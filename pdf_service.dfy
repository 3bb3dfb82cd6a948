/**
 * The business rules of the document generator: which figures go into which rows
 * of the offer letter and of the payslip, the payslip's deductions, totals and net
 * pay, and the header shown above them.
 *
 * A generated document is modelled as the `Document` value that lists what is put on
 * its pages; typesetting, fonts and fixed wording are the renderer's.
 */
module PdfService {
  import opened Wrappers
  import opened Decimal
  import opened Text
  import opened Models
  import opened NumberWords
  import opened SalaryCalculator

  /** The logo file whose header also prints the company name. */
  const OldLogoFile: string := "Metrolabs_old.png"

  // ---------------------------------------------------------------------------
  // Header
  // ---------------------------------------------------------------------------

  /** The page header: the logo when one was read, and whether the company name line is printed. */
  datatype Header = Header(logo: Option<Bytes>, showsCompanyName: bool)

  /**
   * An image of the `images` folder, `assets`, by file name: read only for a
   * non-blank name naming a file that exists.
   */
  function LoadImage(assets: map<string, Bytes>, file: Option<string>): (image: Option<Bytes>)
    ensures image.Some? <==> file.Some? && !IsBlank(file.value) && file.value in assets
    ensures image.Some? ==> image.value == assets[file.value]
  {
    if file.Some? && !IsBlank(file.value) && file.value in assets then Some(assets[file.value])
    else None
  }

  /** The company-name condition of the header. */
  predicate ShowsCompanyName(logoFile: Option<string>) {
    logoFile.Some? && !IsBlank(logoFile.value) && EqualsIgnoreCase(logoFile.value, OldLogoFile)
  }

  function HeaderFor(assets: map<string, Bytes>, logoFile: Option<string>): Header {
    Header(LoadImage(assets, logoFile), ShowsCompanyName(logoFile))
  }

  // ---------------------------------------------------------------------------
  // Payslip
  // ---------------------------------------------------------------------------

  /** The deductions a payslip shows when it is given no overrides at all. */
  const DefaultPF: Money := 3600_0000
  const DefaultPT: Money := 200_0000
  const DefaultPFAdmin: Money := 150_0000

  /** A payslip amount cell: "NA" for zero, otherwise the amount. */
  datatype Cell = NA | Amount(value: Money)

  /** The rows of the payslip's two tables, in their printed order. */
  datatype PayslipItem =
    | BasicAdvance | HRA | Conveyance | SpecialAllowance | TravelAllowance
    | PF | PT | PFAdmin | MobileDeduction | HealthInsurance

  datatype PayslipRow = PayslipRow(item: PayslipItem, amount: Cell)

  /** The payslip's figures. `netInWords` is the sentence printed under the net pay. */
  datatype Payslip = Payslip(
    month: DateTime,
    employee: Employee,
    header: Header,
    earnings: seq<PayslipRow>,
    totalEarnings: Money,
    deductions: seq<PayslipRow>,
    totalDeductions: Money,
    net: Money,
    netInWords: string)

  /** What aborts a generation: a `(long)` cast or a `Math.Abs` out of range. */
  datatype PdfError = Overflow

  /** The payslip's amount cell: zero is shown as "NA". */
  function Amt(v: Money): (c: Cell)
    ensures c == NA <==> v == 0
    ensures c.Amount? ==> c.value == v
  {
    if v == 0 then NA else Amount(v)
  }

  /** Each deduction: the override's value whenever overrides are given, otherwise the payslip default. */
  function PayslipDeductions(sb: Breakup, overrides: Option<Breakup>): Breakup {
    match overrides
    case None =>
      sb.(PF := DefaultPF, PT := DefaultPT, PFAdmin := DefaultPFAdmin,
        MobileDeduction := 0, HealthInsurance := 0, TravelAllowance := 0)
    case Some(o) =>
      sb.(PF := o.PF, PT := o.PT, PFAdmin := o.PFAdmin,
        MobileDeduction := o.MobileDeduction, HealthInsurance := o.HealthInsurance,
        TravelAllowance := o.TravelAllowance)
  }

  /** The breakup a payslip prints: the earnings without overrides, then its own deductions. */
  function PayslipBreakup(ctc: Money, overrides: Option<Breakup>): Breakup {
    PayslipDeductions(Calculated(ctc, None), overrides)
  }

  /** The five deductions; the Travel Allowance is not one of them. */
  function TotalDeductions(b: Breakup): Money {
    b.PF + b.PT + b.PFAdmin + b.MobileDeduction + b.HealthInsurance
  }

  function NetPay(b: Breakup): Money {
    b.MonthlyCTC - TotalDeductions(b)
  }

  function EarningsRows(b: Breakup): seq<PayslipRow> {
    [PayslipRow(BasicAdvance, Amt(b.Basic)), PayslipRow(PayslipItem.HRA, Amt(b.HRA)),
     PayslipRow(PayslipItem.Conveyance, Amt(b.Conveyance)),
     PayslipRow(PayslipItem.SpecialAllowance, Amt(b.SpecialAllowance)),
     PayslipRow(PayslipItem.TravelAllowance, Amt(b.TravelAllowance))]
  }

  function DeductionRows(b: Breakup): seq<PayslipRow> {
    [PayslipRow(PayslipItem.PF, Amt(b.PF)), PayslipRow(PayslipItem.PT, Amt(b.PT)),
     PayslipRow(PayslipItem.PFAdmin, Amt(b.PFAdmin)),
     PayslipRow(PayslipItem.MobileDeduction, Amt(b.MobileDeduction)),
     PayslipRow(PayslipItem.HealthInsurance, Amt(b.HealthInsurance))]
  }

  /** The amount a cell stands for: "NA" is zero. */
  function CellValue(c: Cell): Money {
    if c.Amount? then c.value else 0
  }

  /** The sum of the amounts printed in a table's rows. */
  function RowsTotal(rows: seq<PayslipRow>): Money {
    if rows == [] then 0 else CellValue(rows[0].amount) + RowsTotal(rows[1..])
  }

  /** The payslip, or the overflow that aborts it when the net pay does not fit a `long`. */
  function PayslipOf(emp: Employee, month: DateTime, overrides: Option<Breakup>,
                     logoFile: Option<string>, assets: map<string, Bytes>): Result<Payslip, PdfError>
  {
    var b := PayslipBreakup(emp.MonthlyCTC, overrides);
    var rupees := TruncateToRupees(NetPay(b));
    if !FitsNegatableLong(rupees) then Failure(Overflow)
    else Success(Payslip(month, emp, HeaderFor(assets, logoFile),
      EarningsRows(b), b.MonthlyCTC, DeductionRows(b), TotalDeductions(b), NetPay(b),
      Spelled(rupees) + " Rupees Only."))
  }

  /** The deduction lines of the payslip, each overwriting one field of the calculator's object. */
  method ApplyPayslipDeductions(sb: SalaryBreakup, overrides: Option<Breakup>)
    modifies sb
    ensures sb.Value() == PayslipDeductions(old(sb.Value()), overrides)
  {
    sb.PF := if overrides.Some? then overrides.value.PF else DefaultPF;
    sb.PT := if overrides.Some? then overrides.value.PT else DefaultPT;
    sb.PFAdmin := if overrides.Some? then overrides.value.PFAdmin else DefaultPFAdmin;
    sb.MobileDeduction := if overrides.Some? then overrides.value.MobileDeduction else 0;
    sb.HealthInsurance := if overrides.Some? then overrides.value.HealthInsurance else 0;
    sb.TravelAllowance := if overrides.Some? then overrides.value.TravelAllowance else 0;
  }

  method GeneratePayslip(emp: Employee, payslipMonth: DateTime, overrides: Option<Breakup>,
                         logoFile: Option<string>, assets: map<string, Bytes>)
    returns (r: Result<Payslip, PdfError>)
    ensures r == PayslipOf(emp, payslipMonth, overrides, logoFile, assets)
  {
    var sb := Calculate(emp.MonthlyCTC, None);
    ApplyPayslipDeductions(sb, overrides);
    var logo := LoadImage(assets, logoFile);

    var b := sb.Value();
    var totalDeductions := TotalDeductions(b);
    var net := NetPay(b);

    var rupees := TruncateToRupees(net);
    if !FitsNegatableLong(rupees) {
      return Failure(Overflow);
    }
    var words := NumberToWords(rupees);
    r := Success(Payslip(payslipMonth, emp, Header(logo, ShowsCompanyName(logoFile)),
      EarningsRows(b), b.MonthlyCTC, DeductionRows(b), totalDeductions, net,
      words + " Rupees Only."));
  }

  // ---------------------------------------------------------------------------
  // Offer letter
  // ---------------------------------------------------------------------------

  /** The rows of the salary annexure, in their printed order. */
  datatype AnnexureItem = Basic | HRA | Conveyance | SpecialAllowances | CTC | PT | NetTakeHomeSalary

  datatype AnnexureRow = AnnexureRow(item: AnnexureItem, monthly: Money, yearly: Money)

  /**
   * The offer letter's figures: the summary quotes the employee record's CTC
   * figures, the annexure the calculator's breakup.
   */
  datatype OfferLetter = OfferLetter(
    offerDate: DateTime,
    startDate: DateTime,
    employee: Employee,
    header: Header,
    signature: Option<Bytes>,
    summaryMonthlyCtc: Money,
    summaryAnnualCtc: Money,
    annexure: seq<AnnexureRow>)

  /** The monthly net take-home: the CTC less PT and PF only, to the paisa. */
  function NetTakeHome(b: Breakup): Money {
    Round2(b.MonthlyCTC - (b.PT + b.PF))
  }

  function Annexure(b: Breakup): seq<AnnexureRow> {
    var net := NetTakeHome(b);
    [AnnexureRow(AnnexureItem.Basic, b.Basic, b.Basic * 12),
     AnnexureRow(AnnexureItem.HRA, b.HRA, b.HRA * 12),
     AnnexureRow(AnnexureItem.Conveyance, b.Conveyance, b.Conveyance * 12),
     AnnexureRow(SpecialAllowances, b.SpecialAllowance, b.SpecialAllowance * 12),
     AnnexureRow(CTC, b.MonthlyCTC, b.AnnualCTC),
     AnnexureRow(AnnexureItem.PT, b.PT, b.PT * 12),
     AnnexureRow(NetTakeHomeSalary, net, net * 12)]
  }

  function OfferLetterOf(emp: Employee, offerDate: DateTime, startDate: DateTime,
                         overrides: Option<Breakup>, logoFile: Option<string>,
                         signatureFile: Option<string>, assets: map<string, Bytes>): OfferLetter
  {
    OfferLetter(offerDate, startDate, emp, HeaderFor(assets, logoFile), LoadImage(assets, signatureFile),
      emp.MonthlyCTC, emp.AnnualCTC, Annexure(Calculated(emp.MonthlyCTC, overrides)))
  }

  method GenerateOfferLetter(emp: Employee, offerDate: DateTime, startDate: DateTime,
                             overrides: Option<Breakup>, logoFile: Option<string>,
                             signatureFile: Option<string>, assets: map<string, Bytes>)
    returns (letter: OfferLetter)
    ensures letter == OfferLetterOf(emp, offerDate, startDate, overrides, logoFile, signatureFile, assets)
  {
    var sb := Calculate(emp.MonthlyCTC, overrides);
    var logo := LoadImage(assets, logoFile);
    var signature := LoadImage(assets, signatureFile);
    letter := OfferLetter(offerDate, startDate, emp, Header(logo, ShowsCompanyName(logoFile)), signature,
      emp.MonthlyCTC, emp.AnnualCTC, Annexure(sb.Value()));
  }

  // ---------------------------------------------------------------------------
  // Documents
  // ---------------------------------------------------------------------------

  /** A generated PDF, as the figures on its pages. */
  datatype Document =
    | OfferDocument(offer: OfferLetter)
    | PayslipDocument(payslip: Payslip)
    | ExperienceDocument(employee: Employee, fromDate: DateTime, toDate: DateTime, issuedOn: DateTime)
    | RelievingDocument(employee: Employee, relievingDate: DateTime, issuedOn: DateTime)

  // ---------------------------------------------------------------------------
  // Properties
  // ---------------------------------------------------------------------------

  /**
   * The company name is printed exactly for the old logo's name in any letter case:
   * the blank-name test in front of the comparison never decides anything.
   */
  lemma CompanyNameForOldLogoOnly(logoFile: Option<string>)
    ensures ShowsCompanyName(logoFile) <==>
      logoFile.Some? && EqualsIgnoreCase(logoFile.value, OldLogoFile)
  {
    if logoFile.Some? {
      OldLogoNotBlank();
      BlankTestRedundant(logoFile.value, OldLogoFile);
    }
  }

  lemma OldLogoNotBlank()
    ensures !IsBlank(OldLogoFile)
  {
    assert !IsWhiteSpace(OldLogoFile[0]);
  }

  /** Changing the letter case of the logo's name never changes the header. */
  lemma CompanyNameIgnoresCase(logoFile: string)
    ensures ShowsCompanyName(Some(logoFile)) <==> ShowsCompanyName(Some(ToLower(logoFile)))
  {
    CompanyNameForOldLogoOnly(Some(logoFile));
    CompanyNameForOldLogoOnly(Some(ToLower(logoFile)));
    ToLowerIdempotent(logoFile);
  }

  /** The old logo's own name shows the company name; no logo shows none. */
  lemma OldLogoShowsCompanyName()
    ensures ShowsCompanyName(Some(OldLogoFile))
    ensures !ShowsCompanyName(None)
  {
    OldLogoNotBlank();
  }

  /** With no overrides the payslip prints its own fixed deductions: 3600, 200 and 150 rupees. */
  lemma PayslipDefaults(ctc: Money)
    ensures var b := PayslipBreakup(ctc, None);
      && b.PF == 3600_0000 && b.PT == 200_0000 && b.PFAdmin == 150_0000
      && b.MobileDeduction == 0 && b.HealthInsurance == 0 && b.TravelAllowance == 0
      && TotalDeductions(b) == 3950_0000 && NetPay(b) == ctc - 3950_0000
  {
  }

  /**
   * Given overrides, the payslip copies its six deduction fields verbatim, zero and
   * negative values included: there is no fallback to a default once overrides exist.
   */
  lemma PayslipCopiesOverrides(ctc: Money, o: Breakup)
    ensures var b := PayslipBreakup(ctc, Some(o));
      && b.PF == o.PF && b.PT == o.PT && b.PFAdmin == o.PFAdmin
      && b.MobileDeduction == o.MobileDeduction && b.HealthInsurance == o.HealthInsurance
      && b.TravelAllowance == o.TravelAllowance
      && TotalDeductions(b) == o.PF + o.PT + o.PFAdmin + o.MobileDeduction + o.HealthInsurance
  {
  }

  /** The payslip's earnings are the calculator's defaults, whatever overrides are given. */
  lemma PayslipEarningsIgnoreOverrides(ctc: Money, overrides: Option<Breakup>)
    ensures var b, d := PayslipBreakup(ctc, overrides), Calculated(ctc, None);
      && b.Basic == d.Basic && b.HRA == d.HRA && b.Conveyance == d.Conveyance
      && b.SpecialAllowance == d.SpecialAllowance
      && b.MonthlyCTC == ctc && b.AnnualCTC == d.AnnualCTC
      && EarningsRows(b)[..4] == EarningsRows(d)[..4]
  {
  }

  /** The Travel Allowance is printed among the earnings but never counted as a deduction. */
  lemma TravelNotDeducted(b: Breakup, travel: Money)
    ensures TotalDeductions(b.(TravelAllowance := travel)) == TotalDeductions(b)
    ensures NetPay(b.(TravelAllowance := travel)) == NetPay(b)
  {
  }

  lemma RowsTotalFrom(rows: seq<PayslipRow>, k: int)
    requires 0 <= k < |rows|
    ensures RowsTotal(rows[k..]) == CellValue(rows[k].amount) + RowsTotal(rows[k + 1..])
  {
    assert rows[k..][1..] == rows[k + 1..];
  }

  lemma EarningsRowsTotal(b: Breakup)
    ensures RowsTotal(EarningsRows(b)) ==
      b.Basic + b.HRA + b.Conveyance + b.SpecialAllowance + b.TravelAllowance
  {
    var rows := EarningsRows(b);
    RowsTotalFrom(rows, 4);
    RowsTotalFrom(rows, 3);
    RowsTotalFrom(rows, 2);
    RowsTotalFrom(rows, 1);
    RowsTotalFrom(rows, 0);
    assert rows[0..] == rows;
  }

  lemma DeductionRowsTotal(b: Breakup)
    ensures RowsTotal(DeductionRows(b)) == TotalDeductions(b)
  {
    var rows := DeductionRows(b);
    RowsTotalFrom(rows, 4);
    RowsTotalFrom(rows, 3);
    RowsTotalFrom(rows, 2);
    RowsTotalFrom(rows, 1);
    RowsTotalFrom(rows, 0);
    assert rows[0..] == rows;
  }

  /**
   * The payslip's totals: the deductions total is the sum of its rows, the net pay is
   * the total earnings less it, and the total earnings printed is the monthly CTC, not
   * the sum of the earnings rows. For a CTC in whole paise the rows add up to the CTC
   * plus the Travel Allowance.
   */
  lemma PayslipTotals(emp: Employee, month: DateTime, overrides: Option<Breakup>,
                      logoFile: Option<string>, assets: map<string, Bytes>)
    requires PayslipOf(emp, month, overrides, logoFile, assets).Success?
    ensures var p := PayslipOf(emp, month, overrides, logoFile, assets).value;
      && p.totalEarnings == emp.MonthlyCTC
      && p.totalDeductions == RowsTotal(p.deductions)
      && p.net == p.totalEarnings - p.totalDeductions
      && (IsWholeCents(emp.MonthlyCTC) ==>
            RowsTotal(p.earnings) == p.totalEarnings + PayslipBreakup(emp.MonthlyCTC, overrides).TravelAllowance)
  {
    var b := PayslipBreakup(emp.MonthlyCTC, overrides);
    EarningsRowsTotal(b);
    DeductionRowsTotal(b);
    if IsWholeCents(emp.MonthlyCTC) {
      ComponentsSumToCtc(emp.MonthlyCTC, None);
    }
  }

  /**
   * The net pay is spelled after truncation toward zero, so the payslip says "Zero
   * Rupees Only." exactly when the net pay is less than one rupee either way.
   */
  lemma PayslipZeroInWords(emp: Employee, month: DateTime, overrides: Option<Breakup>,
                           logoFile: Option<string>, assets: map<string, Bytes>)
    requires PayslipOf(emp, month, overrides, logoFile, assets).Success?
    ensures var p := PayslipOf(emp, month, overrides, logoFile, assets).value;
      p.netInWords == "Zero Rupees Only." <==> -1_0000 < p.net < 1_0000
  {
    var p := PayslipOf(emp, month, overrides, logoFile, assets).value;
    WordsZeroOnlyBelowOneRupee(p.netInWords, p.net, TruncateToRupees(p.net));
  }

  /** The amount in words reads "Zero Rupees Only." exactly when it spells a truncated zero. */
  lemma WordsZeroOnlyBelowOneRupee(words: string, net: Money, rupees: int)
    requires rupees == TruncateToRupees(net)
    requires words == Spelled(rupees) + " Rupees Only."
    ensures words == "Zero Rupees Only." <==> -1_0000 < net < 1_0000
  {
    WordsEndInRupeesOnly(words, Spelled(rupees));
    SpelledZeroOnlyForZero(rupees);
  }

  lemma WordsEndInRupeesOnly(words: string, spelled: string)
    requires words == spelled + " Rupees Only."
    ensures words == "Zero Rupees Only." <==> spelled == "Zero"
  {
    var suffix := " Rupees Only.";
    assert "Zero Rupees Only." == "Zero" + suffix;
    if words == "Zero" + suffix {
      assert spelled == words[..|words| - |suffix|] == "Zero";
    }
  }

  /** A payslip is refused only for a net pay whose rupees do not fit a `long`. */
  lemma PayslipOverflowOnlyOutOfRange(emp: Employee, month: DateTime, overrides: Option<Breakup>,
                                      logoFile: Option<string>, assets: map<string, Bytes>)
    ensures PayslipOf(emp, month, overrides, logoFile, assets).Failure? <==>
      var net := NetPay(PayslipBreakup(emp.MonthlyCTC, overrides));
      !(-92233720368547758080000 < net < 92233720368547758080000)
  {
  }

  /**
   * The annexure's yearly figures: twelve times the monthly figure on every row
   * but the CTC row, whose yearly figure is the annual CTC.
   */
  lemma AnnexureYearly(b: Breakup)
    ensures |Annexure(b)| == 7
    ensures forall row | row in Annexure(b) && row.item != CTC :: row.yearly == 12 * row.monthly
    ensures Annexure(b)[4] == AnnexureRow(CTC, b.MonthlyCTC, b.AnnualCTC)
  {
  }

  /**
   * On an offer letter for a CTC in whole paise, every annexure row's yearly figure is
   * twelve times its monthly one, the CTC row included.
   */
  lemma OfferYearlyIsTwelveMonths(emp: Employee, offerDate: DateTime, startDate: DateTime,
                                  overrides: Option<Breakup>, logoFile: Option<string>,
                                  signatureFile: Option<string>, assets: map<string, Bytes>)
    requires IsWholeCents(emp.MonthlyCTC)
    ensures var letter := OfferLetterOf(emp, offerDate, startDate, overrides, logoFile, signatureFile, assets);
      forall row | row in letter.annexure :: row.yearly == 12 * row.monthly
  {
    AnnualIsTwelveMonths(emp.MonthlyCTC, overrides);
    AnnexureAllTwelveMonths(Calculated(emp.MonthlyCTC, overrides));
  }

  lemma AnnexureAllTwelveMonths(b: Breakup)
    requires b.AnnualCTC == 12 * b.MonthlyCTC
    ensures forall row | row in Annexure(b) :: row.yearly == 12 * row.monthly
  {
    AnnexureYearly(b);
  }

  /**
   * The net take-home is exact when the CTC less PT and PF is in whole paise, and
   * is never affected by the PF admin charge, the mobile deduction or the health
   * insurance.
   */
  lemma NetTakeHomeDeductsPtAndPfOnly(b: Breakup, pfAdmin: Money, mobile: Money, health: Money)
    ensures NetTakeHome(b.(PFAdmin := pfAdmin, MobileDeduction := mobile, HealthInsurance := health)) ==
      NetTakeHome(b)
    ensures IsWholeCents(b.MonthlyCTC - (b.PT + b.PF)) ==> NetTakeHome(b) == b.MonthlyCTC - b.PT - b.PF
    ensures IsWholeCents(NetTakeHome(b))
  {
  }

  /** With no overrides and a CTC in whole paise, the net take-home is the CTC less 200 rupees and the default PF. */
  lemma OfferNetTakeHomeDefault(ctc: Money)
    requires IsWholeCents(ctc)
    ensures var b := Calculated(ctc, None);
      NetTakeHome(b) == ctc - 200_0000 - b.PF
  {
    var b := Calculated(ctc, None);
    DefaultBreakup(ctc);
    WholeCentsClosed(b.PT, b.PF);
    WholeCentsClosed(ctc, b.PT + b.PF);
  }

  /**
   * The summary quotes the employee record, the annexure the calculator: their
   * monthly CTC always agrees, their annual CTC only when the stored one is the
   * rounded twelve-fold of the monthly.
   */
  lemma OfferSummaryAgainstAnnexure(emp: Employee, offerDate: DateTime, startDate: DateTime,
                                    overrides: Option<Breakup>, logoFile: Option<string>,
                                    signatureFile: Option<string>, assets: map<string, Bytes>)
    ensures var letter := OfferLetterOf(emp, offerDate, startDate, overrides, logoFile, signatureFile, assets);
      && letter.annexure[4].item == CTC
      && letter.annexure[4].monthly == letter.summaryMonthlyCtc
      && (letter.annexure[4].yearly == letter.summaryAnnualCtc <==>
            emp.AnnualCTC == Round2(emp.MonthlyCTC * 12))
  {
  }
}
