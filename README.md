# Generated-Documents: payroll and document rules

This project models, and proves properties of, the business core of a small ASP.NET
service. The service keeps employee records and generates four documents for them:

- an offer letter;
- a monthly payslip;
- an experience letter;
- a relieving letter.

The core is three parts:

- **Salary breakdown engine** (`SalaryCalculator.Calculate`). A monthly CTC (cost to
  company) and an optional set of overrides give a full breakup:
  - Basic and HRA are percentages of the CTC.
  - Conveyance and PT are fixed amounts; PF is 12% of Basic.
  - The Travel Allowance defaults to the sentinel -1.
  - An override replaces a default only when it is positive. The Travel Allowance is
    the exception: there, any override that is not negative wins.
  - The Special Allowance is then recomputed as the residual of the CTC.
- **Document rules of the PDF service:**
  - the Indian-numbering converter `NumberToWords` (crore, lakh, thousand, hundred,
    then "and" and the last two digits);
  - the payslip's deductions, totals, net pay and net pay in words;
  - the payslip's `Amt` cell rule, which shows 0 as "NA";
  - the offer letter's annexure and its net take-home;
  - the header rule that prints the company name only for the old logo.
- **The controller:**
  - `Normalize`;
  - the mapping of the request's optional figures to the calculator's sentinels;
  - the case-blind dispatch on the document type, with each type's date defaults;
  - the record appended for each generated document;
  - the create, read, update and delete endpoints over the two tables.

Modules, one per source file or shared concept:

- `Wrappers`: `Option` and `Result`.
- `Decimal`: the `decimal` arithmetic used.
  - Money is an `int` counted in 1/10000 of a rupee, written `1600_0000` for 1600 rupees.
  - `Math.Round(x, 2)` is round-half-to-even to the paisa.
- `Text`: `IsNullOrWhiteSpace`, `Trim`, `ToLower` and `OrdinalIgnoreCase` comparison.
- `Models`: the records and request bodies.
- `SalaryCalculator`, `NumberWords`, `PdfService`, `DocumentsController`: one module per
  core file.

How each part is modelled:

- **Calculator.** The source builds a mutable `SalaryBreakup` object and overwrites its
  fields in place, so the model is a class with those fields. Its methods are each
  proved against a function on values (`Calculated`), and the properties are lemmas
  about that function.
- **Converter.** The source appends to a string and reduces the number in place, so the
  model is a method. It is proved equal to a specification `Spelled(n)`: the words
  `Tokens(n)` joined by single spaces.
- **Payslip.** `GeneratePayslip` overwrites the calculator object's deduction fields. It
  is proved equal to `PayslipOf`, the payslip as a value.
- **Controller.** The controller is a class holding the employee map and the document
  sequence. Each endpoint is proved against an effect function giving the response and
  the new tables, and it keeps the database's invariants:
  - keys match identifiers;
  - record identifiers are distinct;
  - every record belongs to a stored employee.

Two behaviours of the code that are easy to misread:

- **Payslip deductions.** The payslip writes `overrides?.PF ?? 3600` on a non-nullable
  `decimal`, so once an override object exists its six deduction fields are copied
  verbatim, zero and negative values included; it does not use the calculator's
  "> 0" rule.
  - The controller always passes an override object, so through the endpoint an absent
    PF, PT or PF admin charge is 0, and its cell reads "NA"; an absent Travel Allowance
    is -1.
  - See `PdfService.PayslipCopiesOverrides` and `DocumentsController.PayslipThroughEndpoint`.
- **Date normalisation.** `Normalize` only re-labels the kind as UTC and keeps the
  ticks; it converts nothing (`DocumentsController.Normalize`).

## Model

| member | source | states |
|---|---|---|
| SalaryCalculator.Calculated | Services/SalaryCalculator.cs:29-72 | The breakup keeps the CTC as its monthly figure, its annual figure is the CTC times 12 rounded to the paisa, Conveyance is positive, and the Special Allowance is the rounded residual of the CTC after Basic, HRA and Conveyance, whatever the overrides |
| SalaryCalculator.Calculate | Services/SalaryCalculator.cs:29-72 | Returns a new breakup object holding exactly `Calculated(ctc, overrides)`: defaults, then the field-by-field merge, then the recomputed Special Allowance |
| SalaryCalculator.SalaryBreakup.constructor | Services/SalaryCalculator.cs:38-52 | The object initialiser sets every field from the given figures |
| SalaryCalculator.SalaryBreakup.OverrideEarnings | Services/SalaryCalculator.cs:56-59 | Basic, HRA, Conveyance and Special Allowance are each replaced by a positive override; every other field is unchanged |
| SalaryCalculator.SalaryBreakup.OverrideDeductions | Services/SalaryCalculator.cs:60-64 | PT, PF, PF admin, mobile deduction and health insurance are each replaced by a positive override; every other field is unchanged |
| SalaryCalculator.SalaryBreakup.OverrideTravelAllowance | Services/SalaryCalculator.cs:65 | The Travel Allowance is replaced by any override that is not negative, 0 included; every other field is unchanged |
| SalaryCalculator.SalaryBreakup.RecomputeSpecialAllowance | Services/SalaryCalculator.cs:69 | Only the Special Allowance changes, to the rounded residual of the CTC with the guard on Conveyance |
| SalaryCalculator.DefaultBreakup | Services/SalaryCalculator.cs:31-52 | Without overrides: Conveyance 1600, PT 200, PF admin, mobile and health insurance 0, Travel Allowance -1; Basic and HRA are 50% and 25% of the CTC rounded to whole paise with ties to even; PF is 12% of Basic rounded |
| SalaryCalculator.ComponentsNearCtc | Services/SalaryCalculator.cs:69 | For any overrides, Basic + HRA + Conveyance + Special Allowance is within half a paisa of the CTC |
| SalaryCalculator.WholeCentsEarnings | Services/SalaryCalculator.cs:31-58 | Overrides in whole paise leave Basic, HRA and Conveyance in whole paise |
| SalaryCalculator.ComponentsSumToCtc | Services/SalaryCalculator.cs:69 | When the CTC and the earnings overrides have at most two fractional digits, the four earnings components sum to the CTC exactly |
| SalaryCalculator.ResidualCloses | Services/SalaryCalculator.cs:69 | A residual of whole-paise amounts, rounded to the paisa, closes the sum exactly |
| SalaryCalculator.AnnualIsTwelveMonths | Services/SalaryCalculator.cs:45 | For a CTC with at most two fractional digits the annual CTC is exactly 12 times the monthly one |
| SalaryCalculator.CtcNotOverridable | Services/SalaryCalculator.cs:44-65 | Overrides of the monthly or annual CTC have no effect on the result |
| SalaryCalculator.SpecialOverrideDiscarded | Services/SalaryCalculator.cs:59-69 | A Special Allowance override never changes the result |
| SalaryCalculator.OverrideSentinels | Services/SalaryCalculator.cs:56-65 | Field by field against the breakup without overrides: an override of at most 0 keeps the default and a positive one replaces it; for the Travel Allowance any non-negative override (0 included) replaces -1 and a negative one leaves -1 |
| SalaryCalculator.PfIgnoresBasicOverride | Services/SalaryCalculator.cs:36-56 | Without a PF override, PF is 12% of the default Basic even when Basic is overridden |
| SalaryCalculator.ConveyanceGuardIsInert | Services/SalaryCalculator.cs:69 | The `Conveyance > 0` guard of the recomputation never changes its result |
| SalaryCalculator.DefaultsAreFixedPoint | Services/SalaryCalculator.cs:29-72 | Feeding the default breakup back in as overrides gives the default breakup again |
| SalaryCalculator.SmallCtcNegativeSpecial | Services/SalaryCalculator.cs:69 | The Special Allowance is not clamped: a CTC of 1000 gives -1350 |
| SalaryCalculator.Example50000 | Services/SalaryCalculator.cs:31-52 | A CTC of 50000 gives Basic 25000, HRA 12500, Conveyance 1600, Special 10900, PF 3000, PT 200 and an annual CTC of 600000 |
| SalaryCalculator.ExampleTieToEven | Services/SalaryCalculator.cs:31-32 | A CTC of 0.03 rupee gives Basic 0.02 (0.015 rounded half to even) and HRA 0.01 |
| Decimal.RoundHalfEven | Services/SalaryCalculator.cs:31 | The rounding of `Math.Round`: the integer nearest to n / d, the even one on a tie, and exact when d divides n |
| Decimal.Round2 | Services/SalaryCalculator.cs:34 | `Math.Round(x, 2)`: the result is in whole paise, within half a paisa of x, an even number of paise on an exact half-paisa tie, and equal to x when x is already in whole paise |
| Decimal.RoundedPercent | Services/SalaryCalculator.cs:31-36 | `Math.Round(x * p%, 2)`: the result is in whole paise, within half a paisa of the exact product, and an even number of paise on an exact tie |
| Decimal.TruncateToRupees | Services/PdfService.cs:713 | The `(long)` cast of a decimal truncates toward zero: the result is within one rupee of the amount, on the amount's side of zero |
| NumberWords.NumberToWords | Services/PdfService.cs:28-88 | For every `long` but the minimum, the text is `Spelled(number)`: "Zero", "Minus " before the magnitude's words, or the group words joined by single spaces |
| NumberWords.SpellNegative | Services/PdfService.cs:33-34 | A negative number is spelled "Minus " followed by the words of its magnitude |
| NumberWords.SpellPositive | Services/PdfService.cs:36-87 | The group steps for crore, lakh, thousand and hundred, then the last two digits and the trim, give `Spelled(number)` |
| NumberWords.AppendGroupWords | Services/PdfService.cs:38-60 | A group present in the number appends its quotient's words and its unit name; an absent group appends nothing |
| NumberWords.AppendLastTwoDigits | Services/PdfService.cs:62-85 | The last two digits are appended after "and" exactly when some group came before them; nothing is appended for 0 |
| NumberWords.AppendSmallNumber | Services/PdfService.cs:67-84 | The words of 1 to 99: a unit or teen name, or a tens name and a unit name separated by a space |
| NumberWords.TrimmedWords | Services/PdfService.cs:87 | The text written before the final trim, once trimmed, is the spelling of the number |
| NumberWords.SpelledIsJoinedTokens | Services/PdfService.cs:28-88 | The spelling of any integer is its words joined by single spaces |
| NumberWords.TokensAreWords | Services/PdfService.cs:36-87 | A positive number has at least one word, and none of its words is blank, contains whitespace or is "Zero" |
| NumberWords.ZeroOnlyForZero | Services/PdfService.cs:30-31 | "Zero" is among the words exactly when the number is 0 |
| NumberWords.SpelledZeroOnlyForZero | Services/PdfService.cs:30-31 | The whole text is "Zero" exactly when the number is 0 |
| NumberWords.SpelledIsTrimmed | Services/PdfService.cs:87 | The text is never empty and has no whitespace at either end |
| NumberWords.AndRule | Services/PdfService.cs:62-65 | For a positive number below 100 crore, "and" is among the words exactly when the number is at least 100 and its last two digits are not 00 |
| NumberWords.Digits | Services/PdfService.cs:38-60 | The crore, lakh, thousand and hundred quotients and the last two digits put back together give the number |
| NumberWords.BelowHundred | Services/PdfService.cs:77-84 | A number below 100 has no group: only the words of its two digits |
| NumberWords.ExampleNegative | Services/PdfService.cs:33-34 | -5 is spelled "Minus Five" |
| NumberWords.ExampleOneLakh | Services/PdfService.cs:44-48 | 1,00,000 is spelled "One Lakh" |
| NumberWords.ExampleGroupsInOrder | Services/PdfService.cs:38-85 | The words of 12,34,567 are Twelve Lakh, Thirty Four Thousand, Five Hundred, then "and" and Sixty Seven, in that order |
| PdfService.LoadImage | Services/PdfService.cs:99-109 | An image is read exactly when a name is given, is not blank and names a present file, and it is that file's contents |
| PdfService.Amt | Services/PdfService.cs:515 | The cell is "NA" exactly when the amount is 0, and otherwise shows the amount |
| PdfService.ApplyPayslipDeductions | Services/PdfService.cs:436-442 | The six deduction fields of the calculator's object are overwritten: from the overrides when given, else 3600, 200, 150, 0, 0, 0; the earnings fields are unchanged |
| PdfService.GeneratePayslip | Services/PdfService.cs:424-467 | The payslip is `PayslipOf`: earnings from the calculator without overrides, the payslip's own deductions, the totals, the net pay and its words; it fails only when the rupees of the net pay do not fit a negatable `long` |
| PdfService.GenerateOfferLetter | Services/PdfService.cs:94-122 | The offer letter is `OfferLetterOf`: the summary quotes the employee record, the annexure the calculator's breakup with the overrides |
| PdfService.CompanyNameForOldLogoOnly | Services/PdfService.cs:146-147 | The company name is printed exactly when the logo name equals "Metrolabs_old.png" ignoring case: the blank test in front of it never decides anything |
| PdfService.CompanyNameIgnoresCase | Services/PdfService.cs:490-491 | Lower-casing the logo name never changes whether the company name is printed |
| PdfService.OldLogoShowsCompanyName | Services/PdfService.cs:146-147 | The old logo's own name prints the company name; no logo prints none |
| PdfService.PayslipDefaults | Services/PdfService.cs:427-442 | Without overrides the payslip deducts PF 3600, PT 200 and PF admin 150, mobile, health and travel 0: 3950 in all, and the net is the CTC less 3950 |
| PdfService.PayslipCopiesOverrides | Services/PdfService.cs:436-442 | Given overrides, the six deduction fields are copied verbatim, zero and negative values included, and the total is the sum of the five overridden deductions |
| PdfService.PayslipEarningsIgnoreOverrides | Services/PdfService.cs:433 | The payslip's earnings, its CTC figures and its first four earnings rows are those of the calculator without overrides, whatever overrides are given |
| PdfService.TravelNotDeducted | Services/PdfService.cs:465-467 | Changing the Travel Allowance changes neither the total deductions nor the net pay |
| PdfService.EarningsRowsTotal | Services/PdfService.cs:625-629 | The earnings rows add up to Basic + HRA + Conveyance + Special Allowance + Travel Allowance ("NA" counting as 0) |
| PdfService.DeductionRowsTotal | Services/PdfService.cs:677-681 | The deduction rows add up to the total deductions |
| PdfService.PayslipTotals | Services/PdfService.cs:465-467 | The printed total earnings is the monthly CTC, the total deductions is the sum of its rows, the net is the total earnings less the total deductions, and for a CTC in whole paise the earnings rows add up to the CTC plus the Travel Allowance |
| PdfService.PayslipZeroInWords | Services/PdfService.cs:713 | The net pay reads "Zero Rupees Only." exactly when it is less than one rupee either way, as it is truncated toward zero |
| PdfService.PayslipOverflowOnlyOutOfRange | Services/PdfService.cs:713 | The payslip fails exactly when the net pay is outside the range whose rupees fit a negatable `long` |
| PdfService.AnnexureYearly | Services/PdfService.cs:323-332 | Seven rows; every row but CTC has a yearly figure of 12 times its monthly one; the CTC row shows the monthly and annual CTC |
| PdfService.OfferYearlyIsTwelveMonths | Services/PdfService.cs:323-332 | For a CTC in whole paise every annexure row's yearly figure is 12 times its monthly one, the CTC row included |
| PdfService.NetTakeHomeDeductsPtAndPfOnly | Services/PdfService.cs:330 | The net take-home ignores PF admin, mobile and health insurance, is in whole paise, and is exactly the CTC less PT and PF when that difference is in whole paise |
| PdfService.OfferNetTakeHomeDefault | Services/PdfService.cs:330 | Without overrides and for a CTC in whole paise, the net take-home is the CTC less 200 and the default PF |
| PdfService.OfferSummaryAgainstAnnexure | Services/PdfService.cs:237-239 | The summary's monthly CTC always equals the annexure's CTC row; the annual figures agree exactly when the stored annual CTC is the rounded twelve-fold of the monthly one |
| DocumentsController.Normalize | Controllers/DocumentsController.cs:22-26 | An absent date stays absent; a present one keeps its ticks and is marked UTC |
| DocumentsController.NormalizeIdempotent | Controllers/DocumentsController.cs:22-26 | Normalizing twice is normalizing once |
| DocumentsController.ParseDocumentType | Controllers/DocumentsController.cs:148-188 | Each of the four kinds is chosen exactly when the lower-cased type is "offer", "payslip", "experience" or "relieving" |
| DocumentsController.ParseIgnoresCase | Controllers/DocumentsController.cs:148 | Lower-casing the type first never changes the dispatch |
| DocumentsController.Render | Controllers/DocumentsController.cs:148-185 | The generator call of each case, with its date defaults, gives `DocumentFor(kind, …)` |
| DocumentsController.WithoutEmployee | Data/ApplicationDbContext.cs:27-31 | The cascade keeps exactly the records of other employees and never adds one |
| DocumentsController.DocumentsController.constructor | Controllers/DocumentsController.cs:16-20 | The controller works over the database as it stands: the tables it is given, which must satisfy the store invariants, and the images folder |
| DocumentsController.DocumentsController.CreateEmployee | Controllers/DocumentsController.cs:31-56 | A missing body is refused with "Invalid data"; otherwise the new employee, with a normalized joining date and the given creation time, is added under the fresh identifier and returned; the invariants are kept |
| DocumentsController.DocumentsController.GetEmployeeById | Controllers/DocumentsController.cs:74-81 | Ok exactly when the identifier is stored, with that employee, whose identifier it is; otherwise "Employee not found" |
| DocumentsController.DocumentsController.UpdateEmployee | Controllers/DocumentsController.cs:86-106 | An unknown identifier is "Employee not found"; otherwise the ten fields are overwritten and the updated employee returned; records are untouched and the invariants kept |
| DocumentsController.DocumentsController.DeleteEmployee | Controllers/DocumentsController.cs:111-121 | An unknown identifier is "Employee not found"; otherwise the employee and, by the cascade, their records are removed, with "Employee deleted successfully" |
| DocumentsController.DocumentsController.Generate | Controllers/DocumentsController.cs:126-204 | The answer and the new records are `GenerateEffect`: lookup, dispatch, generation, one appended record, the file; employees are untouched and the invariants kept |
| DocumentsController.UpdateKeepsStore | Controllers/DocumentsController.cs:86-106 | An update keeps the store invariants |
| DocumentsController.DeleteKeepsStore | Controllers/DocumentsController.cs:111-121 | A delete with its cascade keeps the store invariants, the foreign key included |
| DocumentsController.GenerateKeepsStore | Controllers/DocumentsController.cs:191-201 | A generate call keeps the store invariants |
| DocumentsController.AppendKeepsStore | Controllers/DocumentsController.cs:191-200 | A record for a stored employee under a fresh identifier keeps the store invariants |
| DocumentsController.DistinctIdsFiltered | Data/ApplicationDbContext.cs:27-31 | Removing an employee's records keeps the record identifiers distinct |
| DocumentsController.DeleteCascades | Data/ApplicationDbContext.cs:27-31 | After a delete the employee is gone, no record of theirs remains, and every other record does |
| DocumentsController.UpdateAfterCreate | Controllers/DocumentsController.cs:92-101 | Updating a new employee with other data is creating it with that data |
| DocumentsController.UpdateOverwritesAll | Controllers/DocumentsController.cs:92-101 | An update keeps the identifier and creation time and overwrites every other field, so a later update hides an earlier one completely |
| DocumentsController.NotFoundBeforeType | Controllers/DocumentsController.cs:129-130 | An unknown employee is reported, and nothing recorded, whatever the document type |
| DocumentsController.RecordedAppendsOne | Controllers/DocumentsController.cs:191-203 | Once a document was attempted, exactly one record is appended exactly when the answer is the file; the record keeps the type as sent, and the file is "application/pdf" named type_number.pdf |
| DocumentsController.GenerateAppendsOneRecord | Controllers/DocumentsController.cs:126-204 | A generate call appends one record for the requested employee exactly when it answers with a file, and otherwise leaves the records unchanged |
| DocumentsController.UnknownTypeRejected | Controllers/DocumentsController.cs:187-188 | For a stored employee, a type that is none of the four in any case is "Invalid document type" and records nothing |
| DocumentsController.DocumentForIgnoresType | Controllers/DocumentsController.cs:148-185 | The generated document depends on the kind, not on the type's spelling |
| DocumentsController.GenerateIgnoresTypeCase | Controllers/DocumentsController.cs:148-203 | Sending the type in another letter case gives the same kind of answer and the same document; only the file name keeps the case as sent |
| DocumentsController.DateDefaults | Controllers/DocumentsController.cs:153-183 | Each date is the request's date marked UTC when given; otherwise the joining date for the offer's start and the experience's from date; otherwise now |
| DocumentsController.OverridesFrom | Controllers/DocumentsController.cs:132-144 | Every figure given is passed on as it is; every absent figure becomes a value the calculator's "> 0" (Travel Allowance: ">= 0") test treats as not overridden |
| DocumentsController.AbsentFiguresAreDefaults | Controllers/DocumentsController.cs:132-144 | A request without salary figures gives the calculator's breakup without overrides |
| DocumentsController.PayslipThroughEndpoint | Controllers/DocumentsController.cs:132-144 | Through the endpoint the payslip's deductions are the request's figures, an absent one 0 (its cell reads "NA") and an absent Travel Allowance -1; with no PF, PT or PF admin given, the PF differs from the payslip's own default |

## Left out

- Typesetting: the layout, fonts and fixed wording of the four documents are left out. This includes the address lines under the logo and the experience and relieving letter bodies. A document is the value listing the figures, dates and images that go on its pages. The rendering library is not part of this model.
- `ToString("N2")` and the date format strings: they depend on the current culture. Amounts and dates are kept as values.
- The filesystem: the `images` folder is a map from file name to contents. The name is combined with the folder path unchecked, so a rooted or `../` name reaches outside the folder; the map is over arbitrary names and can hold such files. `File.Exists` is membership, and the catch-all around the read is not modelled: a read never fails.
- Time and identifiers: `DateTime.UtcNow` and `Guid.NewGuid()` are parameters. The several `UtcNow` reads of one request are a single `now`.
- Persistence: EF Core is two values, the employee map and the record sequence, and `async`/`await` is sequential.
  - A failing `SaveChangesAsync` appears only as a duplicate identifier answering `ServerError`.
  - The list endpoint (`GetEmployees`, ordered by creation time) is not modelled.
  - The `Documents` navigation of `Employee` is not modelled; the database schema configures none.
- Entity aliasing: the update endpoint edits the tracked entity. The model edits a copy and stores it back in the map, which the single-threaded controller cannot tell apart.
- Null bodies: a null body for create, update or generate is refused by the framework before the action runs, so it is not modelled for update and generate; create's own null check ("Invalid data") is kept as written but is dead code. A null document type is also excluded (`string` is non-null here).
- Decimal range: money is an unbounded integer of 1/10000 rupee. The 28-digit limit of `decimal` and amounts with more than four fractional digits are not modelled; the overflow of the `(long)` cast is.
- NumberWords.NumberToWords: requires a number above `long.MinValue`. There the source's `Math.Abs` throws; the payslip checks for this case and returns `Overflow`.
- Text: whitespace and letter case are the ASCII ones, not the full Unicode tables of .NET.
- NumberWords.ExampleGroupsInOrder: states the example's words in order, not the joined text. That the text is these words joined by single spaces is `NumberWords.SpelledIsJoinedTokens`.
