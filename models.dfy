/**
 * The records the service stores and the request bodies it accepts, as values.
 *
 * A `DateTime` is its tick count and its kind; a `Guid` is an opaque identifier
 * compared by value; the PDF a generator returns is the `Document` that lists what
 * goes on its pages (module PdfService), standing for the rendered bytes.
 */
module Models {
  import opened Wrappers
  import opened Decimal

  /** `DateTimeKind`. */
  datatype DateTimeKind = Unspecified | Utc | Local

  /** `DateTime`: a tick count and a kind; the kind does not change the ticks. */
  datatype DateTime = DateTime(ticks: int, kind: DateTimeKind)

  /** `Guid`: an identifier, compared by value. */
  datatype Guid = Guid(value: nat)

  /** Raw file contents, as read from disk. */
  type Bytes = seq<bv8>

  /** An employee record (table Employees). */
  datatype Employee = Employee(
    Id: Guid,
    EmployeeNo: string,
    Name: string,
    JoiningDate: Option<DateTime>,
    Designation: Option<string>,
    Department: Option<string>,
    PAN: Option<string>,
    Location: Option<string>,
    MonthlyCTC: Money,
    AnnualCTC: Money,
    UAN: Option<string>,
    CreatedAt: DateTime)

  /** The body of the create and update requests. */
  datatype CreateEmployeeDto = CreateEmployeeDto(
    EmployeeNo: string,
    Name: string,
    JoiningDate: Option<DateTime>,
    Designation: Option<string>,
    Department: Option<string>,
    PAN: Option<string>,
    Location: Option<string>,
    MonthlyCTC: Money,
    AnnualCTC: Money,
    UAN: Option<string>)

  /** The body of the generate request: every date and every salary figure may be absent. */
  datatype GenerateDocumentDto = GenerateDocumentDto(
    EmployeeId: Guid,
    DocumentType: string,
    IssueDate: Option<DateTime>,
    StartDate: Option<DateTime>,
    FromDate: Option<DateTime>,
    ToDate: Option<DateTime>,
    Basic: Option<Money>,
    HRA: Option<Money>,
    Conveyance: Option<Money>,
    SpecialAllowance: Option<Money>,
    PT: Option<Money>,
    PF: Option<Money>,
    PFAdmin: Option<Money>,
    MobileDeduction: Option<Money>,
    HealthInsurance: Option<Money>,
    TravelAllowance: Option<Money>,
    LogoFile: Option<string>,
    SignatureFile: Option<string>)
}
