/**
 * The salary breakdown engine: a monthly CTC (cost to company) and an optional set of
 * overrides give the full breakup of earnings and deductions.
 *
 * Defaults are percentages of the CTC and fixed amounts; an override replaces a default
 * only when it is positive (for Travel Allowance: when it is not negative); the Special
 * Allowance is then always recomputed as the residual of the CTC.
 */
module SalaryCalculator {
  import opened Wrappers
  import opened Decimal

  /**
   * The figures of a salary breakup, as a value. The override set the calculator is
   * given is one of these too (its MonthlyCTC and AnnualCTC are never read).
   */
  datatype Breakup = Breakup(
    Basic: Money,
    HRA: Money,
    Conveyance: Money,
    SpecialAllowance: Money,
    MonthlyCTC: Money,
    AnnualCTC: Money,
    PT: Money,
    PF: Money,
    PFAdmin: Money,
    MobileDeduction: Money,
    HealthInsurance: Money,
    TravelAllowance: Money)  // -1 rupee stands for "not applicable"

  const BasicPercent: int := 50
  const HraPercent: int := 25
  // Amounts in units of 1/10000 rupee: 1600 and 200 rupees.
  const ConveyanceFixed: Money := 1600_0000
  const PTFixed: Money := 200_0000
  const PfPercentOfBasic: int := 12
  /** The Travel Allowance sentinel: -1 means "not applicable". */
  const TravelNotApplicable: Money := -1_0000

  // ---------------------------------------------------------------------------
  // Specification: defaults, merge, residual
  // ---------------------------------------------------------------------------

  /** The breakup before any override. */
  function Defaults(ctc: Money): Breakup {
    var basic := RoundedPercent(ctc, BasicPercent);
    var hra := RoundedPercent(ctc, HraPercent);
    Breakup(
      Basic := basic,
      HRA := hra,
      Conveyance := ConveyanceFixed,
      SpecialAllowance := Round2(ctc - (basic + hra + ConveyanceFixed)),
      MonthlyCTC := ctc,
      AnnualCTC := Round2(ctc * 12),
      PT := PTFixed,
      PF := RoundedPercent(basic, PfPercentOfBasic),
      PFAdmin := 0,
      MobileDeduction := 0,
      HealthInsurance := 0,
      TravelAllowance := TravelNotApplicable)
  }

  /** The rule for every field but Travel Allowance: a positive override wins. */
  function Pick(override: Money, default: Money): Money {
    if override > 0 then override else default
  }

  /** The rule for Travel Allowance: any non-negative override wins, 0 included. */
  function PickTravel(override: Money, default: Money): Money {
    if override >= 0 then override else default
  }

  /** The overrides of the earnings components applied; every other field kept. */
  function MergeEarnings(d: Breakup, o: Breakup): Breakup {
    Breakup(
      Basic := Pick(o.Basic, d.Basic),
      HRA := Pick(o.HRA, d.HRA),
      Conveyance := Pick(o.Conveyance, d.Conveyance),
      SpecialAllowance := Pick(o.SpecialAllowance, d.SpecialAllowance),
      MonthlyCTC := d.MonthlyCTC,
      AnnualCTC := d.AnnualCTC,
      PT := d.PT,
      PF := d.PF,
      PFAdmin := d.PFAdmin,
      MobileDeduction := d.MobileDeduction,
      HealthInsurance := d.HealthInsurance,
      TravelAllowance := d.TravelAllowance)
  }

  /** The overrides of the deductions applied; every other field kept. */
  function MergeDeductions(d: Breakup, o: Breakup): Breakup {
    Breakup(
      Basic := d.Basic,
      HRA := d.HRA,
      Conveyance := d.Conveyance,
      SpecialAllowance := d.SpecialAllowance,
      MonthlyCTC := d.MonthlyCTC,
      AnnualCTC := d.AnnualCTC,
      PT := Pick(o.PT, d.PT),
      PF := Pick(o.PF, d.PF),
      PFAdmin := Pick(o.PFAdmin, d.PFAdmin),
      MobileDeduction := Pick(o.MobileDeduction, d.MobileDeduction),
      HealthInsurance := Pick(o.HealthInsurance, d.HealthInsurance),
      TravelAllowance := d.TravelAllowance)
  }

  /** The overrides of the Travel Allowance applied; every other field kept. */
  function MergeTravel(d: Breakup, o: Breakup): Breakup {
    Breakup(
      Basic := d.Basic,
      HRA := d.HRA,
      Conveyance := d.Conveyance,
      SpecialAllowance := d.SpecialAllowance,
      MonthlyCTC := d.MonthlyCTC,
      AnnualCTC := d.AnnualCTC,
      PT := d.PT,
      PF := d.PF,
      PFAdmin := d.PFAdmin,
      MobileDeduction := d.MobileDeduction,
      HealthInsurance := d.HealthInsurance,
      TravelAllowance := PickTravel(o.TravelAllowance, d.TravelAllowance))
  }

  /** The defaults with every override applied, field by field. */
  function Merge(d: Breakup, o: Breakup): Breakup {
    MergeTravel(MergeDeductions(MergeEarnings(d, o), o), o)
  }

  /** The final recomputation of the Special Allowance, with the source's guard on Conveyance. */
  function Residual(sb: Breakup): Money {
    Round2(sb.MonthlyCTC - (sb.Basic + sb.HRA + (if sb.Conveyance > 0 then sb.Conveyance else 0)))
  }

  /** The breakup `Calculate` returns. */
  function Calculated(ctc: Money, overrides: Option<Breakup>): (r: Breakup)
    ensures r.MonthlyCTC == ctc && r.AnnualCTC == Round2(ctc * 12)
    ensures r.Conveyance > 0
    ensures r.SpecialAllowance == Round2(ctc - (r.Basic + r.HRA + r.Conveyance))
  {
    var merged := match overrides
      case None => Defaults(ctc)
      case Some(o) => Merge(Defaults(ctc), o);
    merged.(SpecialAllowance := Residual(merged))
  }

  // ---------------------------------------------------------------------------
  // The calculator, as the source runs it: a new breakup object whose fields are
  // then overwritten
  // ---------------------------------------------------------------------------

  /** The mutable breakup object the calculator returns and the payslip then edits. */
  class SalaryBreakup {
    var Basic: Money
    var HRA: Money
    var Conveyance: Money
    var SpecialAllowance: Money
    var MonthlyCTC: Money
    var AnnualCTC: Money
    var PT: Money
    var PF: Money
    var PFAdmin: Money
    var MobileDeduction: Money
    var HealthInsurance: Money
    var TravelAllowance: Money

    /** The object initialiser: every field set from `init`. */
    constructor (init: Breakup)
      ensures Value() == init
    {
      Basic := init.Basic;
      HRA := init.HRA;
      Conveyance := init.Conveyance;
      SpecialAllowance := init.SpecialAllowance;
      MonthlyCTC := init.MonthlyCTC;
      AnnualCTC := init.AnnualCTC;
      PT := init.PT;
      PF := init.PF;
      PFAdmin := init.PFAdmin;
      MobileDeduction := init.MobileDeduction;
      HealthInsurance := init.HealthInsurance;
      TravelAllowance := init.TravelAllowance;
    }

    /** The figures the object holds. */
    function Value(): Breakup
      reads this
    {
      Breakup(Basic, HRA, Conveyance, SpecialAllowance, MonthlyCTC, AnnualCTC,
        PT, PF, PFAdmin, MobileDeduction, HealthInsurance, TravelAllowance)
    }

    /** The override lines for the earnings components. */
    method OverrideEarnings(o: Breakup)
      modifies this
      ensures Value() == MergeEarnings(old(Value()), o)
    {
      if o.Basic > 0 { Basic := o.Basic; }
      if o.HRA > 0 { HRA := o.HRA; }
      if o.Conveyance > 0 { Conveyance := o.Conveyance; }
      if o.SpecialAllowance > 0 { SpecialAllowance := o.SpecialAllowance; }
    }

    /** The override lines for the deductions. */
    method OverrideDeductions(o: Breakup)
      modifies this
      ensures Value() == MergeDeductions(old(Value()), o)
    {
      if o.PT > 0 { PT := o.PT; }
      if o.PF > 0 { PF := o.PF; }
      if o.PFAdmin > 0 { PFAdmin := o.PFAdmin; }
      if o.MobileDeduction > 0 { MobileDeduction := o.MobileDeduction; }
      if o.HealthInsurance > 0 { HealthInsurance := o.HealthInsurance; }
    }

    /** The Special Allowance recomputed from the possibly overridden components. */
    method RecomputeSpecialAllowance()
      modifies this
      ensures Value() == old(Value()).(SpecialAllowance := Residual(old(Value())))
    {
      SpecialAllowance := Round2(MonthlyCTC - (Basic + HRA + (if Conveyance > 0 then Conveyance else 0)));
    }

    /** The override lines for the Travel Allowance. */
    method OverrideTravelAllowance(o: Breakup)
      modifies this
      ensures Value() == MergeTravel(old(Value()), o)
    {
      if o.TravelAllowance >= 0 { TravelAllowance := o.TravelAllowance; }
    }
  }

  method Calculate(monthlyCtc: Money, overrides: Option<Breakup>) returns (sb: SalaryBreakup)
    ensures fresh(sb)
    ensures sb.Value() == Calculated(monthlyCtc, overrides)
  {
    var basic := RoundedPercent(monthlyCtc, BasicPercent);
    var hra := RoundedPercent(monthlyCtc, HraPercent);
    var conveyance := ConveyanceFixed;
    var special := Round2(monthlyCtc - (basic + hra + conveyance));
    var pt := PTFixed;
    var pf := RoundedPercent(basic, PfPercentOfBasic);

    sb := new SalaryBreakup(Breakup(
      Basic := basic,
      HRA := hra,
      Conveyance := conveyance,
      SpecialAllowance := special,
      MonthlyCTC := monthlyCtc,
      AnnualCTC := Round2(monthlyCtc * 12),
      PT := pt,
      PF := pf,
      PFAdmin := 0,
      MobileDeduction := 0,
      HealthInsurance := 0,
      TravelAllowance := TravelNotApplicable));

    assert sb.Value() == Defaults(monthlyCtc);

    if overrides.Some? {
      var o := overrides.value;
      sb.OverrideEarnings(o);
      sb.OverrideDeductions(o);
      sb.OverrideTravelAllowance(o);
    }
    sb.RecomputeSpecialAllowance();
  }

  // ---------------------------------------------------------------------------
  // Properties
  // ---------------------------------------------------------------------------

  /** Without overrides: the fixed amounts, the sentinel, and the percentages of the CTC. */
  lemma DefaultBreakup(ctc: Money)
    ensures var r := Calculated(ctc, None);
      && r.Conveyance == 1600_0000 && r.PT == 200_0000
      && r.PFAdmin == 0 && r.MobileDeduction == 0 && r.HealthInsurance == 0
      && r.TravelAllowance == -1_0000
      && r.Basic == RoundedPercent(ctc, BasicPercent) && r.HRA == RoundedPercent(ctc, HraPercent)
      && r.PF == RoundedPercent(r.Basic, 12)
  {
  }

  /** The earnings components add up to the CTC to within half a paisa, whatever the overrides. */
  lemma ComponentsNearCtc(ctc: Money, overrides: Option<Breakup>)
    ensures var r := Calculated(ctc, overrides);
      -100 <= 2 * (ctc - (r.Basic + r.HRA + r.Conveyance + r.SpecialAllowance)) <= 100
  {
  }

  /** Earnings overrides given in whole paise. */
  predicate WholeCentsOverrides(overrides: Option<Breakup>) {
    overrides.Some? ==>
      && IsWholeCents(overrides.value.Basic)
      && IsWholeCents(overrides.value.HRA)
      && IsWholeCents(overrides.value.Conveyance)
  }

  /** With whole-paise overrides, the earnings components that are not recomputed are whole paise. */
  lemma WholeCentsEarnings(ctc: Money, overrides: Option<Breakup>)
    requires WholeCentsOverrides(overrides)
    ensures var r := Calculated(ctc, overrides);
      IsWholeCents(r.Basic) && IsWholeCents(r.HRA) && IsWholeCents(r.Conveyance)
  {
    var d := Defaults(ctc);
    assert IsWholeCents(d.Basic) && IsWholeCents(d.HRA) && IsWholeCents(d.Conveyance);
    match overrides
    case None =>
    case Some(o) =>
      var m := Merge(d, o);
      assert m.Basic == Pick(o.Basic, d.Basic);
      assert m.HRA == Pick(o.HRA, d.HRA);
      assert m.Conveyance == Pick(o.Conveyance, d.Conveyance);
  }

  /** With a CTC and overrides of at most two fractional digits, the components sum to the CTC exactly. */
  lemma ComponentsSumToCtc(ctc: Money, overrides: Option<Breakup>)
    requires IsWholeCents(ctc) && WholeCentsOverrides(overrides)
    ensures var r := Calculated(ctc, overrides);
      r.Basic + r.HRA + r.Conveyance + r.SpecialAllowance == ctc
  {
    var r := Calculated(ctc, overrides);
    WholeCentsEarnings(ctc, overrides);
    ResidualCloses(ctc, r.Basic, r.HRA, r.Conveyance, r.SpecialAllowance);
  }

  /** A residual of whole-paise amounts, rounded to paise, closes the sum exactly. */
  lemma ResidualCloses(x: Money, a: Money, b: Money, c: Money, s: Money)
    requires IsWholeCents(x) && IsWholeCents(a) && IsWholeCents(b) && IsWholeCents(c)
    requires s == Round2(x - (a + b + c))
    ensures a + b + c + s == x
  {
    WholeCentsQuotient(x);
    WholeCentsQuotient(a);
    WholeCentsQuotient(b);
    WholeCentsQuotient(c);
    var k := x / 100 - a / 100 - b / 100 - c / 100;
    assert x - (a + b + c) == k * 100;
    WholeCentsMultiple(k);
  }

  /** The annual CTC is twelve monthly CTCs when the CTC has at most two fractional digits. */
  lemma AnnualIsTwelveMonths(ctc: Money, overrides: Option<Breakup>)
    requires IsWholeCents(ctc)
    ensures Calculated(ctc, overrides).AnnualCTC == 12 * ctc
  {
    WholeCentsQuotient(ctc);
    var k := ctc / 100;
    assert ctc * 12 == (k * 12) * 100;
    WholeCentsMultiple(k * 12);
  }

  /** Neither the monthly nor the annual CTC can be overridden. */
  lemma CtcNotOverridable(ctc: Money, o: Breakup, monthly: Money, annual: Money)
    ensures Calculated(ctc, Some(o.(MonthlyCTC := monthly, AnnualCTC := annual))) == Calculated(ctc, Some(o))
  {
  }

  /** A Special Allowance override is always discarded. */
  lemma SpecialOverrideDiscarded(ctc: Money, o: Breakup, special: Money)
    ensures Calculated(ctc, Some(o.(SpecialAllowance := special))) == Calculated(ctc, Some(o))
  {
  }

  /**
   * The sentinels: an override of at most 0 leaves the default and a positive one
   * replaces it; for Travel Allowance a non-negative one (0 included) replaces -1.
   */
  lemma OverrideSentinels(ctc: Money, o: Breakup)
    ensures var r, d := Calculated(ctc, Some(o)), Calculated(ctc, None);
      && r.Basic == (if o.Basic > 0 then o.Basic else d.Basic)
      && r.HRA == (if o.HRA > 0 then o.HRA else d.HRA)
      && r.Conveyance == (if o.Conveyance > 0 then o.Conveyance else d.Conveyance)
      && r.PT == (if o.PT > 0 then o.PT else d.PT)
      && r.PF == (if o.PF > 0 then o.PF else d.PF)
      && r.PFAdmin == (if o.PFAdmin > 0 then o.PFAdmin else d.PFAdmin)
      && r.MobileDeduction == (if o.MobileDeduction > 0 then o.MobileDeduction else d.MobileDeduction)
      && r.HealthInsurance == (if o.HealthInsurance > 0 then o.HealthInsurance else d.HealthInsurance)
      && r.TravelAllowance == (if o.TravelAllowance >= 0 then o.TravelAllowance else -1_0000)
  {
  }

  /** PF follows the default Basic: overriding Basic does not change it. */
  lemma PfIgnoresBasicOverride(ctc: Money, o: Breakup)
    requires o.PF <= 0
    ensures Calculated(ctc, Some(o)).PF == RoundedPercent(RoundedPercent(ctc, BasicPercent), PfPercentOfBasic)
  {
  }

  /** The `Conveyance > 0` guard of the recomputation never changes its result. */
  lemma ConveyanceGuardIsInert(ctc: Money, overrides: Option<Breakup>)
    ensures var merged := match overrides
        case None => Defaults(ctc)
        case Some(o) => Merge(Defaults(ctc), o);
      Residual(merged) == Round2(merged.MonthlyCTC - (merged.Basic + merged.HRA + merged.Conveyance))
  {
  }

  /** Feeding the default breakup back in as overrides gives the default breakup again. */
  lemma DefaultsAreFixedPoint(ctc: Money)
    ensures Calculated(ctc, Some(Calculated(ctc, None))) == Calculated(ctc, None)
  {
  }

  /** The Special Allowance is not clamped: a small CTC makes it negative. */
  lemma SmallCtcNegativeSpecial()
    ensures Calculated(1000_0000, None).SpecialAllowance == -1350_0000
  {
  }

  /** A CTC of 50000 with no overrides. */
  lemma Example50000()
    ensures var r := Calculated(50000_0000, None);
      && r.Basic == 25000_0000 && r.HRA == 12500_0000 && r.Conveyance == 1600_0000
      && r.SpecialAllowance == 10900_0000 && r.PF == 3000_0000 && r.PT == 200_0000
      && r.AnnualCTC == 600000_0000
  {
  }

  /**
   * A CTC of 0.03 rupee: half of it, 0.015, is a tie and rounds to the even 0.02,
   * and a quarter of it, 0.0075, rounds to 0.01.
   */
  lemma ExampleTieToEven()
    ensures var r := Calculated(300, None);
      r.Basic == 200 && r.HRA == 100
  {
  }
}
