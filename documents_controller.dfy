/**
 * The HTTP controller of the service: create, read, update and delete employees,
 * and generate a document for one of them.
 *
 * The database is the pair of tables the controller reaches, an employee map keyed
 * by identifier and the sequence of generated-document records. The current time,
 * the fresh identifiers `Guid.NewGuid()` returns and the folder of images are
 * parameters. An exception the controller does not catch becomes `ServerError`.
 */
module DocumentsController {
  import opened Wrappers
  import opened Decimal
  import opened Text
  import opened Models
  import opened SalaryCalculator
  import opened PdfService

  /** A stored generated document (table GeneratedDocuments). */
  datatype GeneratedDocument = GeneratedDocument(
    Id: Guid,
    EmployeeId: Guid,
    DocumentType: string,
    GeneratedOn: DateTime,
    Pdf: Document)

  /** The answer an endpoint gives. */
  datatype Response =
    | Ok(employee: Employee)
    | OkMessage(message: string)
    | NotFound(message: string)
    | BadRequest(message: string)
    | FileResult(pdf: Document, contentType: string, fileName: string)
    | ServerError

  /** The four document types the generate endpoint knows. */
  datatype DocumentKind = OfferKind | PayslipKind | ExperienceKind | RelievingKind

  // ---------------------------------------------------------------------------
  // Request mapping
  // ---------------------------------------------------------------------------

  /** `DateTime.SpecifyKind(d, Utc)` on a present date: the same instant, now marked UTC. */
  function Normalize(d: Option<DateTime>): (r: Option<DateTime>)
    ensures r.Some? <==> d.Some?
    ensures r.Some? ==> r.value.ticks == d.value.ticks && r.value.kind == Utc
  {
    match d
    case None => None
    case Some(t) => Some(DateTime(t.ticks, Utc))
  }

  /** Normalizing twice is normalizing once. */
  lemma NormalizeIdempotent(d: Option<DateTime>)
    ensures Normalize(Normalize(d)) == Normalize(d)
  {
  }

  /**
   * The override object the endpoint hands to the generators: a figure given is passed
   * on as it is; an absent figure is 0, except the Travel Allowance, whose absence is
   * -1 rupee ("not applicable"). Each absent figure thus lands on the side of the
   * calculator's "> 0" (">= 0" for the Travel Allowance) test that keeps its default,
   * and the CTC fields, which the calculator never overrides, are left at 0.
   */
  function OverridesFrom(dto: GenerateDocumentDto): (o: Breakup)
    ensures dto.Basic.Some? ==> o.Basic == dto.Basic.value
    ensures dto.HRA.Some? ==> o.HRA == dto.HRA.value
    ensures dto.Conveyance.Some? ==> o.Conveyance == dto.Conveyance.value
    ensures dto.SpecialAllowance.Some? ==> o.SpecialAllowance == dto.SpecialAllowance.value
    ensures dto.PT.Some? ==> o.PT == dto.PT.value
    ensures dto.PF.Some? ==> o.PF == dto.PF.value
    ensures dto.PFAdmin.Some? ==> o.PFAdmin == dto.PFAdmin.value
    ensures dto.MobileDeduction.Some? ==> o.MobileDeduction == dto.MobileDeduction.value
    ensures dto.HealthInsurance.Some? ==> o.HealthInsurance == dto.HealthInsurance.value
    ensures dto.TravelAllowance.Some? ==> o.TravelAllowance == dto.TravelAllowance.value
    ensures dto.Basic.None? ==> !(o.Basic > 0)
    ensures dto.HRA.None? ==> !(o.HRA > 0)
    ensures dto.Conveyance.None? ==> !(o.Conveyance > 0)
    ensures dto.PT.None? ==> !(o.PT > 0)
    ensures dto.PF.None? ==> !(o.PF > 0)
    ensures dto.PFAdmin.None? ==> !(o.PFAdmin > 0)
    ensures dto.MobileDeduction.None? ==> !(o.MobileDeduction > 0)
    ensures dto.HealthInsurance.None? ==> !(o.HealthInsurance > 0)
    ensures dto.TravelAllowance.None? ==> !(o.TravelAllowance >= 0)
  {
    Breakup(
      Basic := dto.Basic.GetOr(0),
      HRA := dto.HRA.GetOr(0),
      Conveyance := dto.Conveyance.GetOr(0),
      SpecialAllowance := dto.SpecialAllowance.GetOr(0),
      MonthlyCTC := 0,
      AnnualCTC := 0,
      PT := dto.PT.GetOr(0),
      PF := dto.PF.GetOr(0),
      PFAdmin := dto.PFAdmin.GetOr(0),
      MobileDeduction := dto.MobileDeduction.GetOr(0),
      HealthInsurance := dto.HealthInsurance.GetOr(0),
      TravelAllowance := dto.TravelAllowance.GetOr(-1_0000))
  }

  /** The switch on the lower-cased document type. */
  function ParseDocumentType(documentType: string): (kind: Option<DocumentKind>)
    ensures kind == Some(OfferKind) <==> ToLower(documentType) == "offer"
    ensures kind == Some(PayslipKind) <==> ToLower(documentType) == "payslip"
    ensures kind == Some(ExperienceKind) <==> ToLower(documentType) == "experience"
    ensures kind == Some(RelievingKind) <==> ToLower(documentType) == "relieving"
  {
    var t := ToLower(documentType);
    if t == "offer" then Some(OfferKind)
    else if t == "payslip" then Some(PayslipKind)
    else if t == "experience" then Some(ExperienceKind)
    else if t == "relieving" then Some(RelievingKind)
    else None
  }

  /** The dispatch ignores letter case. */
  lemma ParseIgnoresCase(documentType: string)
    ensures ParseDocumentType(ToLower(documentType)) == ParseDocumentType(documentType)
  {
    ToLowerIdempotent(documentType);
  }

  /**
   * The document the switch produces for an employee, with each date defaulted as
   * the endpoint does; a payslip whose net pay overflows aborts.
   */
  function DocumentFor(kind: DocumentKind, emp: Employee, dto: GenerateDocumentDto, now: DateTime,
                       assets: map<string, Bytes>): Result<Document, PdfError>
  {
    var overrides := Some(OverridesFrom(dto));
    var issued := Normalize(dto.IssueDate).GetOr(now);
    match kind
    case OfferKind =>
      Success(OfferDocument(OfferLetterOf(emp, issued,
        Normalize(dto.StartDate).GetOr(emp.JoiningDate.GetOr(now)),
        overrides, dto.LogoFile, dto.SignatureFile, assets)))
    case PayslipKind =>
      (match PayslipOf(emp, issued, overrides, dto.LogoFile, assets)
       case Success(p) => Success(PayslipDocument(p))
       case Failure(e) => Failure(e))
    case ExperienceKind =>
      Success(ExperienceDocument(emp, Normalize(dto.FromDate).GetOr(emp.JoiningDate.GetOr(now)),
        Normalize(dto.ToDate).GetOr(now), issued))
    case RelievingKind =>
      Success(RelievingDocument(emp, Normalize(dto.ToDate).GetOr(now), issued))
  }

  /** The switch of the generate endpoint, one generator call per document type. */
  method Render(kind: DocumentKind, emp: Employee, dto: GenerateDocumentDto, now: DateTime,
                assets: map<string, Bytes>)
    returns (r: Result<Document, PdfError>)
    ensures r == DocumentFor(kind, emp, dto, now, assets)
  {
    var overrides := OverridesFrom(dto);
    match kind {
      case OfferKind =>
        var letter := GenerateOfferLetter(emp, Normalize(dto.IssueDate).GetOr(now),
          Normalize(dto.StartDate).GetOr(emp.JoiningDate.GetOr(now)),
          Some(overrides), dto.LogoFile, dto.SignatureFile, assets);
        r := Success(OfferDocument(letter));
      case PayslipKind =>
        var payslip := GeneratePayslip(emp, Normalize(dto.IssueDate).GetOr(now), Some(overrides),
          dto.LogoFile, assets);
        if payslip.Failure? {
          r := Failure(payslip.error);
        } else {
          r := Success(PayslipDocument(payslip.value));
        }
      case ExperienceKind =>
        r := Success(ExperienceDocument(emp, Normalize(dto.FromDate).GetOr(emp.JoiningDate.GetOr(now)),
          Normalize(dto.ToDate).GetOr(now), Normalize(dto.IssueDate).GetOr(now)));
      case RelievingKind =>
        r := Success(RelievingDocument(emp, Normalize(dto.ToDate).GetOr(now),
          Normalize(dto.IssueDate).GetOr(now)));
    }
  }

  // ---------------------------------------------------------------------------
  // The store and the effect of each endpoint on it
  // ---------------------------------------------------------------------------

  function DocumentIds(documents: seq<GeneratedDocument>): set<Guid> {
    set d | d in documents :: d.Id
  }

  predicate DistinctIds(documents: seq<GeneratedDocument>) {
    forall i, j | 0 <= i < j < |documents| :: documents[i].Id != documents[j].Id
  }

  /**
   * What the database guarantees: employees are keyed by their own identifier,
   * document identifiers are distinct, and every document belongs to a stored
   * employee (the foreign key).
   */
  predicate ValidStore(employees: map<Guid, Employee>, documents: seq<GeneratedDocument>) {
    && (forall id | id in employees :: employees[id].Id == id)
    && DistinctIds(documents)
    && (forall i | 0 <= i < |documents| :: documents[i].EmployeeId in employees)
  }

  /** The employee the create endpoint builds from its request. */
  function NewEmployee(dto: CreateEmployeeDto, id: Guid, now: DateTime): Employee {
    Employee(
      Id := id,
      EmployeeNo := dto.EmployeeNo,
      Name := dto.Name,
      JoiningDate := Normalize(dto.JoiningDate),
      Designation := dto.Designation,
      Department := dto.Department,
      PAN := dto.PAN,
      Location := dto.Location,
      MonthlyCTC := dto.MonthlyCTC,
      AnnualCTC := dto.AnnualCTC,
      UAN := dto.UAN,
      CreatedAt := now)
  }

  /** The create endpoint: its answer and the new employee table. */
  function CreateEffect(employees: map<Guid, Employee>, dto: Option<CreateEmployeeDto>, newId: Guid,
                        now: DateTime): (Response, map<Guid, Employee>)
  {
    match dto
    case None => (BadRequest("Invalid data"), employees)
    case Some(d) =>
      if newId in employees then (ServerError, employees)
      else (Ok(NewEmployee(d, newId, now)), employees[newId := NewEmployee(d, newId, now)])
  }

  /** The lookup endpoint. */
  function GetEffect(employees: map<Guid, Employee>, id: Guid): Response {
    if id in employees then Ok(employees[id]) else NotFound("Employee not found")
  }

  /** The ten fields the update endpoint overwrites; the identifier and creation time stay. */
  function Updated(emp: Employee, dto: CreateEmployeeDto): Employee {
    emp.(EmployeeNo := dto.EmployeeNo, Name := dto.Name, Designation := dto.Designation,
      Department := dto.Department, Location := dto.Location, PAN := dto.PAN, UAN := dto.UAN,
      JoiningDate := Normalize(dto.JoiningDate), AnnualCTC := dto.AnnualCTC,
      MonthlyCTC := dto.MonthlyCTC)
  }

  function UpdateEffect(employees: map<Guid, Employee>, id: Guid, dto: CreateEmployeeDto)
    : (Response, map<Guid, Employee>)
  {
    if id !in employees then (NotFound("Employee not found"), employees)
    else (Ok(Updated(employees[id], dto)), employees[id := Updated(employees[id], dto)])
  }

  /** The documents left once an employee is deleted: the cascade removes theirs, in order. */
  function WithoutEmployee(documents: seq<GeneratedDocument>, id: Guid): (r: seq<GeneratedDocument>)
    ensures |r| <= |documents|
    ensures forall d :: d in r <==> d in documents && d.EmployeeId != id
  {
    if documents == [] then []
    else (if documents[0].EmployeeId == id then [] else [documents[0]]) + WithoutEmployee(documents[1..], id)
  }

  function DeleteEffect(employees: map<Guid, Employee>, documents: seq<GeneratedDocument>, id: Guid)
    : (Response, map<Guid, Employee>, seq<GeneratedDocument>)
  {
    if id !in employees then (NotFound("Employee not found"), employees, documents)
    else (OkMessage("Employee deleted successfully"), employees - {id}, WithoutEmployee(documents, id))
  }

  /** The file name of a generated document: the type as sent, then the employee number. */
  function FileName(documentType: string, emp: Employee): string {
    documentType + "_" + emp.EmployeeNo + ".pdf"
  }

  /**
   * The end of the generate endpoint once a document was attempted: a failed
   * generation answers 500; otherwise the record is appended and the file returned,
   * unless saving the record fails on a duplicate identifier.
   */
  function Recorded(documents: seq<GeneratedDocument>, emp: Employee, documentType: string, now: DateTime,
                    recordId: Guid, rendered: Result<Document, PdfError>): (Response, seq<GeneratedDocument>)
  {
    match rendered
    case Failure(_) => (ServerError, documents)
    case Success(pdf) =>
      if recordId in DocumentIds(documents) then (ServerError, documents)
      else (FileResult(pdf, "application/pdf", FileName(documentType, emp)),
            documents + [GeneratedDocument(recordId, emp.Id, documentType, now, pdf)])
  }

  /**
   * The generate endpoint: the employee is looked up first, then the type is
   * dispatched, then the document is generated and its record appended.
   */
  function GenerateEffect(employees: map<Guid, Employee>, documents: seq<GeneratedDocument>,
                          dto: GenerateDocumentDto, now: DateTime, recordId: Guid,
                          assets: map<string, Bytes>): (Response, seq<GeneratedDocument>)
  {
    if dto.EmployeeId !in employees then (NotFound("Employee not found"), documents)
    else
      var emp := employees[dto.EmployeeId];
      match ParseDocumentType(dto.DocumentType)
      case None => (BadRequest("Invalid document type"), documents)
      case Some(kind) => Recorded(documents, emp, dto.DocumentType, now, recordId, DocumentFor(kind, emp, dto, now, assets))
  }

  // ---------------------------------------------------------------------------
  // The controller
  // ---------------------------------------------------------------------------

  class DocumentsController {
    var employees: map<Guid, Employee>
    var documents: seq<GeneratedDocument>
    /** The `wwwroot/images` folder, by file name. */
    const assets: map<string, Bytes>

    ghost predicate Valid()
      reads this
    {
      ValidStore(employees, documents)
    }

    /** The controller is handed the database as it stands and the images folder. */
    constructor (employees0: map<Guid, Employee>, documents0: seq<GeneratedDocument>,
                 images: map<string, Bytes>)
      requires ValidStore(employees0, documents0)
      ensures Valid()
      ensures employees == employees0 && documents == documents0 && assets == images
    {
      employees := employees0;
      documents := documents0;
      assets := images;
    }

    /** POST employee. A duplicate identifier fails when the change is saved. */
    method CreateEmployee(dto: Option<CreateEmployeeDto>, newId: Guid, now: DateTime)
      returns (resp: Response)
      requires Valid()
      modifies this
      ensures Valid()
      ensures (resp, employees) == CreateEffect(old(employees), dto, newId, now)
      ensures documents == old(documents)
    {
      if dto.None? {
        return BadRequest("Invalid data");
      }
      var emp := NewEmployee(dto.value, newId, now);
      if newId in employees {
        return ServerError;
      }
      employees := employees[newId := emp];
      resp := Ok(emp);
    }

    /** GET employee by identifier. */
    function GetEmployeeById(id: Guid): (resp: Response)
      reads this
      requires Valid()
      ensures resp.Ok? <==> id in employees
      ensures resp.Ok? ==> resp.employee.Id == id && resp.employee == employees[id]
      ensures !resp.Ok? ==> resp == NotFound("Employee not found")
    {
      GetEffect(employees, id)
    }

    /** PUT employee: the tracked record's fields are overwritten one by one. */
    method UpdateEmployee(id: Guid, dto: CreateEmployeeDto) returns (resp: Response)
      requires Valid()
      modifies this
      ensures Valid()
      ensures (resp, employees) == UpdateEffect(old(employees), id, dto)
      ensures documents == old(documents)
    {
      if id !in employees {
        return NotFound("Employee not found");
      }
      var emp := employees[id];
      emp := emp.(EmployeeNo := dto.EmployeeNo);
      emp := emp.(Name := dto.Name);
      emp := emp.(Designation := dto.Designation);
      emp := emp.(Department := dto.Department);
      emp := emp.(Location := dto.Location);
      emp := emp.(PAN := dto.PAN);
      emp := emp.(UAN := dto.UAN);
      emp := emp.(JoiningDate := Normalize(dto.JoiningDate));
      emp := emp.(AnnualCTC := dto.AnnualCTC);
      emp := emp.(MonthlyCTC := dto.MonthlyCTC);
      UpdateKeepsStore(employees, documents, id, dto);
      employees := employees[id := emp];
      resp := Ok(emp);
    }

    /** DELETE employee; the database cascades the delete to the employee's documents. */
    method DeleteEmployee(id: Guid) returns (resp: Response)
      requires Valid()
      modifies this
      ensures Valid()
      ensures (resp, employees, documents) == DeleteEffect(old(employees), old(documents), id)
    {
      if id !in employees {
        return NotFound("Employee not found");
      }
      DeleteKeepsStore(employees, documents, id);
      employees := employees - {id};
      documents := WithoutEmployee(documents, id);
      resp := OkMessage("Employee deleted successfully");
    }

    /** POST generate. */
    method Generate(dto: GenerateDocumentDto, now: DateTime, recordId: Guid) returns (resp: Response)
      requires Valid()
      modifies this
      ensures Valid()
      ensures (resp, documents) == GenerateEffect(old(employees), old(documents), dto, now, recordId, assets)
      ensures employees == old(employees)
    {
      if dto.EmployeeId !in employees {
        return NotFound("Employee not found");
      }
      var emp := employees[dto.EmployeeId];
      var kind := ParseDocumentType(dto.DocumentType);
      if kind.None? {
        return BadRequest("Invalid document type");
      }
      var pdf := Render(kind.value, emp, dto, now, assets);
      if pdf.Failure? {
        return ServerError;
      }
      if recordId in DocumentIds(documents) {
        return ServerError;
      }
      AppendKeepsStore(employees, documents, GeneratedDocument(recordId, emp.Id, dto.DocumentType, now, pdf.value));
      documents := documents + [GeneratedDocument(recordId, emp.Id, dto.DocumentType, now, pdf.value)];
      resp := FileResult(pdf.value, "application/pdf", FileName(dto.DocumentType, emp));
    }
  }

  // ---------------------------------------------------------------------------
  // Properties
  // ---------------------------------------------------------------------------

  lemma UpdateKeepsStore(employees: map<Guid, Employee>, documents: seq<GeneratedDocument>, id: Guid,
                         dto: CreateEmployeeDto)
    requires ValidStore(employees, documents)
    ensures ValidStore(UpdateEffect(employees, id, dto).1, documents)
  {
  }

  lemma DeleteKeepsStore(employees: map<Guid, Employee>, documents: seq<GeneratedDocument>, id: Guid)
    requires ValidStore(employees, documents)
    ensures var (_, e, d) := DeleteEffect(employees, documents, id); ValidStore(e, d)
  {
    if id in employees {
      DistinctIdsFiltered(documents, id);
      var rest := WithoutEmployee(documents, id);
      forall i | 0 <= i < |rest|
        ensures rest[i].EmployeeId in employees - {id}
      {
        assert rest[i] in documents;
      }
    }
  }

  lemma GenerateKeepsStore(employees: map<Guid, Employee>, documents: seq<GeneratedDocument>,
                           dto: GenerateDocumentDto, now: DateTime, recordId: Guid,
                           assets: map<string, Bytes>)
    requires ValidStore(employees, documents)
    ensures ValidStore(employees, GenerateEffect(employees, documents, dto, now, recordId, assets).1)
  {
    if dto.EmployeeId in employees && ParseDocumentType(dto.DocumentType).Some? {
      var emp := employees[dto.EmployeeId];
      var rendered := DocumentFor(ParseDocumentType(dto.DocumentType).value, emp, dto, now, assets);
      if rendered.Success? && recordId !in DocumentIds(documents) {
        AppendKeepsStore(employees, documents,
          GeneratedDocument(recordId, emp.Id, dto.DocumentType, now, rendered.value));
      }
    }
  }

  /** A record of a stored employee under a fresh identifier keeps the store valid. */
  lemma AppendKeepsStore(employees: map<Guid, Employee>, documents: seq<GeneratedDocument>,
                         d: GeneratedDocument)
    requires ValidStore(employees, documents)
    requires d.EmployeeId in employees && d.Id !in DocumentIds(documents)
    ensures ValidStore(employees, documents + [d])
  {
    var r := documents + [d];
    forall i, j | 0 <= i < j < |r|
      ensures r[i].Id != r[j].Id
    {
      assert r[i] == documents[i];
      if j == |documents| {
        assert documents[i] in documents;
      } else {
        assert r[j] == documents[j];
      }
    }
    forall i | 0 <= i < |r|
      ensures r[i].EmployeeId in employees
    {
      if i < |documents| {
        assert r[i] == documents[i];
      }
    }
  }

  lemma {:induction false} DistinctIdsFiltered(documents: seq<GeneratedDocument>, id: Guid)
    requires DistinctIds(documents)
    ensures DistinctIds(WithoutEmployee(documents, id))
  {
    if documents != [] {
      var tail := documents[1..];
      DistinctIdsFiltered(tail, id);
      var rest := WithoutEmployee(tail, id);
      var r := WithoutEmployee(documents, id);
      if documents[0].EmployeeId == id {
        assert r == rest;
      } else {
        assert r == [documents[0]] + rest;
        forall k | 0 <= k < |rest|
          ensures rest[k].Id != documents[0].Id
        {
          assert rest[k] in tail;
          var j :| 0 <= j < |tail| && tail[j] == rest[k];
          assert documents[j + 1] == rest[k];
        }
        DistinctCons(documents[0], rest);
      }
    }
  }

  lemma DistinctCons(d: GeneratedDocument, rest: seq<GeneratedDocument>)
    requires DistinctIds(rest)
    requires forall k | 0 <= k < |rest| :: rest[k].Id != d.Id
    ensures DistinctIds([d] + rest)
  {
    var r := [d] + rest;
    forall i, j | 0 <= i < j < |r|
      ensures r[i].Id != r[j].Id
    {
      assert r[j] == rest[j - 1];
      if i > 0 {
        assert r[i] == rest[i - 1];
      }
    }
  }

  /** After a delete no document of the deleted employee remains, and every other one does. */
  lemma DeleteCascades(employees: map<Guid, Employee>, documents: seq<GeneratedDocument>, id: Guid)
    requires id in employees
    ensures var (resp, e, d) := DeleteEffect(employees, documents, id);
      && resp == OkMessage("Employee deleted successfully")
      && id !in e && e.Keys == employees.Keys - {id}
      && (forall doc | doc in d :: doc.EmployeeId != id)
      && (forall doc | doc in documents && doc.EmployeeId != id :: doc in d)
  {
  }

  /** Creating and then updating with new data is creating with that data. */
  lemma UpdateAfterCreate(d1: CreateEmployeeDto, d2: CreateEmployeeDto, id: Guid, now: DateTime)
    ensures Updated(NewEmployee(d1, id, now), d2) == NewEmployee(d2, id, now)
  {
  }

  /**
   * An update keeps the identifier and creation time, and overwrites every other
   * field: nothing of an earlier update survives a later one.
   */
  lemma UpdateOverwritesAll(emp: Employee, d1: CreateEmployeeDto, d2: CreateEmployeeDto)
    ensures Updated(emp, d1).Id == emp.Id && Updated(emp, d1).CreatedAt == emp.CreatedAt
    ensures Updated(Updated(emp, d1), d2) == Updated(emp, d2)
  {
  }

  /** An unknown employee is reported before the document type is looked at. */
  lemma NotFoundBeforeType(employees: map<Guid, Employee>, documents: seq<GeneratedDocument>,
                           dto: GenerateDocumentDto, documentType: string, now: DateTime,
                           recordId: Guid, assets: map<string, Bytes>)
    requires dto.EmployeeId !in employees
    ensures GenerateEffect(employees, documents, dto.(DocumentType := documentType), now, recordId, assets) ==
      (NotFound("Employee not found"), documents)
  {
  }

  /**
   * Once a document was attempted, at most one record is appended, exactly when the
   * answer is the file; the record keeps the document type as sent, and the file is
   * named after it.
   */
  lemma RecordedAppendsOne(documents: seq<GeneratedDocument>, emp: Employee, documentType: string,
                           now: DateTime, recordId: Guid, rendered: Result<Document, PdfError>)
    ensures var (resp, docs) := Recorded(documents, emp, documentType, now, recordId, rendered);
      && (resp.FileResult? <==> |docs| == |documents| + 1)
      && (!resp.FileResult? ==> resp == ServerError && docs == documents)
      && (resp.FileResult? ==>
            && rendered == Success(resp.pdf)
            && docs[..|documents|] == documents
            && docs[|documents|] == GeneratedDocument(recordId, emp.Id, documentType, now, resp.pdf)
            && resp.contentType == "application/pdf"
            && resp.fileName == documentType + "_" + emp.EmployeeNo + ".pdf")
  {
    var (resp, docs) := Recorded(documents, emp, documentType, now, recordId, rendered);
    if resp.FileResult? {
      assert docs == documents + [GeneratedDocument(recordId, emp.Id, documentType, now, resp.pdf)];
      assert docs[..|documents|] == documents;
    }
  }

  /**
   * A generate call appends at most one record, exactly when it answers with a file,
   * and the record is the requested employee's.
   */
  lemma GenerateAppendsOneRecord(employees: map<Guid, Employee>, documents: seq<GeneratedDocument>,
                                 dto: GenerateDocumentDto, now: DateTime, recordId: Guid,
                                 assets: map<string, Bytes>)
    requires ValidStore(employees, documents)
    ensures var (resp, docs) := GenerateEffect(employees, documents, dto, now, recordId, assets);
      && (resp.FileResult? <==> |docs| == |documents| + 1)
      && (!resp.FileResult? ==> docs == documents)
      && (resp.FileResult? ==>
            && docs[..|documents|] == documents
            && docs[|documents|] == GeneratedDocument(recordId, dto.EmployeeId, dto.DocumentType, now, resp.pdf)
            && resp.fileName == dto.DocumentType + "_" + employees[dto.EmployeeId].EmployeeNo + ".pdf")
  {
    if dto.EmployeeId in employees {
      var emp := employees[dto.EmployeeId];
      var kind := ParseDocumentType(dto.DocumentType);
      if kind.Some? {
        RecordedAppendsOne(documents, emp, dto.DocumentType, now, recordId,
          DocumentFor(kind.value, emp, dto, now, assets));
      }
    }
  }

  /** Any type other than the four is refused and records nothing. */
  lemma UnknownTypeRejected(employees: map<Guid, Employee>, documents: seq<GeneratedDocument>,
                            dto: GenerateDocumentDto, now: DateTime, recordId: Guid,
                            assets: map<string, Bytes>)
    requires dto.EmployeeId in employees
    requires ToLower(dto.DocumentType) !in ["offer", "payslip", "experience", "relieving"]
    ensures GenerateEffect(employees, documents, dto, now, recordId, assets) ==
      (BadRequest("Invalid document type"), documents)
  {
  }

  /** The generated document does not depend on the type's spelling, only on its kind. */
  lemma DocumentForIgnoresType(kind: DocumentKind, emp: Employee, dto: GenerateDocumentDto,
                               documentType: string, now: DateTime, assets: map<string, Bytes>)
    ensures DocumentFor(kind, emp, dto.(DocumentType := documentType), now, assets) ==
      DocumentFor(kind, emp, dto, now, assets)
  {
    assert OverridesFrom(dto.(DocumentType := documentType)) == OverridesFrom(dto);
  }

  /** The type matches in any letter case: only the file name keeps the case as sent. */
  lemma GenerateIgnoresTypeCase(employees: map<Guid, Employee>, documents: seq<GeneratedDocument>,
                                dto: GenerateDocumentDto, now: DateTime, recordId: Guid,
                                assets: map<string, Bytes>)
    ensures var (r1, _) := GenerateEffect(employees, documents, dto, now, recordId, assets);
      var (r2, _) := GenerateEffect(employees, documents, dto.(DocumentType := ToLower(dto.DocumentType)),
        now, recordId, assets);
      && r1.FileResult? == r2.FileResult?
      && (r1.FileResult? ==> r1.pdf == r2.pdf)
      && (!r1.FileResult? ==> r1 == r2)
  {
    ParseIgnoresCase(dto.DocumentType);
    var kind := ParseDocumentType(dto.DocumentType);
    if dto.EmployeeId in employees && kind.Some? {
      DocumentForIgnoresType(kind.value, employees[dto.EmployeeId], dto, ToLower(dto.DocumentType), now, assets);
    }
  }

  /**
   * The dates each document carries: the request's date marked UTC when given,
   * otherwise the employee's joining date for the start and from dates, otherwise now.
   */
  lemma DateDefaults(kind: DocumentKind, emp: Employee, dto: GenerateDocumentDto, now: DateTime,
                     assets: map<string, Bytes>)
    requires DocumentFor(kind, emp, dto, now, assets).Success?
    ensures var doc := DocumentFor(kind, emp, dto, now, assets).value;
      var issued := if dto.IssueDate.Some? then DateTime(dto.IssueDate.value.ticks, Utc) else now;
      var joinedOrNow := if emp.JoiningDate.Some? then emp.JoiningDate.value else now;
      match kind
      case OfferKind =>
        && doc.offer.offerDate == issued
        && doc.offer.startDate ==
             (if dto.StartDate.Some? then DateTime(dto.StartDate.value.ticks, Utc) else joinedOrNow)
      case PayslipKind => doc.payslip.month == issued
      case ExperienceKind =>
        && doc.fromDate == (if dto.FromDate.Some? then DateTime(dto.FromDate.value.ticks, Utc) else joinedOrNow)
        && doc.toDate == (if dto.ToDate.Some? then DateTime(dto.ToDate.value.ticks, Utc) else now)
        && doc.issuedOn == issued
      case RelievingKind =>
        && doc.relievingDate == (if dto.ToDate.Some? then DateTime(dto.ToDate.value.ticks, Utc) else now)
        && doc.issuedOn == issued
  {
  }

  /** A request without salary figures gives the offer letter the calculator's defaults. */
  lemma AbsentFiguresAreDefaults(ctc: Money, dto: GenerateDocumentDto)
    requires dto.Basic.None? && dto.HRA.None? && dto.Conveyance.None? && dto.SpecialAllowance.None?
    requires dto.PT.None? && dto.PF.None? && dto.PFAdmin.None? && dto.MobileDeduction.None?
    requires dto.HealthInsurance.None? && dto.TravelAllowance.None?
    ensures Calculated(ctc, Some(OverridesFrom(dto))) == Calculated(ctc, None)
  {
    OverrideSentinels(ctc, OverridesFrom(dto));
  }

  /**
   * Through the endpoint the payslip always receives overrides, so its own defaults
   * never apply: an absent deduction is 0, so its cell reads "NA", and an absent
   * Travel Allowance is -1 rupee.
   */
  lemma PayslipThroughEndpoint(ctc: Money, dto: GenerateDocumentDto)
    ensures var b := PayslipBreakup(ctc, Some(OverridesFrom(dto)));
      && b.PF == dto.PF.GetOr(0) && b.PT == dto.PT.GetOr(0) && b.PFAdmin == dto.PFAdmin.GetOr(0)
      && b.MobileDeduction == dto.MobileDeduction.GetOr(0)
      && b.HealthInsurance == dto.HealthInsurance.GetOr(0)
      && b.TravelAllowance == dto.TravelAllowance.GetOr(-1_0000)
    ensures dto.PF.None? && dto.PT.None? && dto.PFAdmin.None? ==>
      PayslipBreakup(ctc, Some(OverridesFrom(dto))).PF != PayslipBreakup(ctc, None).PF
    ensures var rows := DeductionRows(PayslipBreakup(ctc, Some(OverridesFrom(dto))));
      && (dto.PF.None? ==> rows[0].amount == NA)
      && (dto.PT.None? ==> rows[1].amount == NA)
      && (dto.PFAdmin.None? ==> rows[2].amount == NA)
      && (dto.MobileDeduction.None? ==> rows[3].amount == NA)
      && (dto.HealthInsurance.None? ==> rows[4].amount == NA)
  {
    PayslipCopiesOverrides(ctc, OverridesFrom(dto));
    PayslipDefaults(ctc);
  }
}
