/**
 * The calculator screen's own tax engine. From two amounts entered by the
 * user (revenue invoiced with VAT included, and revenue without VAT), either
 * per month or per year, it derives the annual VAT inside the first amount,
 * the revenue net of VAT, Social Security, the IRS Jovem exemption, income
 * tax (IRS), net income and the total handed to the State, and then the
 * figures it displays. Its constants, exemption rules and bracket table are
 * its own and differ from the library engine's.
 */
module TaxCalculator {
  import opened Progressive

  const VatRate: real := 0.23
  const SsRate: real := 0.214
  const SsBaseRate: real := 0.7
  const IrsBaseRate: real := 0.75
  /** Social support index (IAS), in euros, as this screen has it. */
  const Ias: real := 509.26

  /** The IRS Jovem stage chosen on the screen. */
  datatype IrsJovemStage = None | Year1 | Year2 | Year3 | Year4 | Year5

  /** An exemption rule: the fraction exempt, and the cap in multiples of the IAS. */
  datatype ExemptionRule = ExemptionRule(rate: real, limit: real)

  /** The exemption rule of each IRS Jovem stage. */
  function IrsJovemRules(stage: IrsJovemStage): (rule: ExemptionRule)
    ensures 0.0 <= rule.rate <= 1.0 && 0.0 <= rule.limit
    ensures rule.rate == 0.0 <==> stage == None
    ensures rule.limit == 0.0 <==> stage == None
  {
    match stage
    case None => ExemptionRule(0.0, 0.0)
    case Year1 => ExemptionRule(1.0, 40.0)
    case Year2 => ExemptionRule(0.75, 30.0)
    case Year3 => ExemptionRule(0.5, 20.0)
    case Year4 => ExemptionRule(0.5, 20.0)
    case Year5 => ExemptionRule(0.25, 10.0)
  }

  /** The top marginal rate of this screen's table. */
  const TopRate: real := 0.45

  /** The income tax brackets of this screen, by upper limit and marginal rate. */
  const IrsBrackets: seq<Bracket> := [
    Bracket(Finite(7703.0), 0.1325),
    Bracket(Finite(11623.0), 0.18),
    Bracket(Finite(16432.0), 0.23),
    Bracket(Finite(21041.0), 0.265),
    Bracket(Finite(27135.0), 0.285),
    Bracket(Finite(39251.0), 0.35),
    Bracket(Finite(51997.0), 0.37),
    Bracket(Finite(81479.0), 0.435),
    Bracket(Infinity, TopRate)
  ]

  /**
   * The shape of the bracket table: every bracket but the last is bounded,
   * the last is unbounded, the limits strictly increase from 0 and the
   * marginal rates never decrease, from 13.25% to 45%.
   */
  lemma BracketTableShape()
    ensures |IrsBrackets| == 9 && IrsBrackets[8].upto.Infinity?
    ensures forall i :: 0 <= i < 8 ==> IrsBrackets[i].upto.Finite?
    ensures IrsBrackets[0].upto.value > 0.0
    ensures forall i :: 0 <= i < 7 ==> IrsBrackets[i].upto.value < IrsBrackets[i + 1].upto.value
    ensures forall i :: 0 <= i < 8 ==> IrsBrackets[i].rate <= IrsBrackets[i + 1].rate
    ensures IrsBrackets[0].rate == 0.1325 && IrsBrackets[8].rate == 0.45
    ensures RatesRise(IrsBrackets)
    ensures Ordered(IrsBrackets)
    ensures RatesWithin(IrsBrackets, TopRate)
  {
    var t := IrsBrackets;
    assert OrderedFrom(t, 8, 81479.0);
    assert OrderedFrom(t, 7, 51997.0);
    assert OrderedFrom(t, 6, 39251.0);
    assert OrderedFrom(t, 5, 27135.0);
    assert OrderedFrom(t, 4, 21041.0);
    assert OrderedFrom(t, 3, 16432.0);
    assert OrderedFrom(t, 2, 11623.0);
    assert OrderedFrom(t, 1, 7703.0);
  }

  /** Income tax on an amount: the progressive sum over this screen's brackets. */
  function IrsTax(amount: real): real
  {
    ProgressiveTax(IrsBrackets, amount)
  }

  /**
   * The invariant of the bracket loop before bracket `i`, which starts at
   * `prev`: `tax` holds the tax on the brackets before `i`, and what the
   * brackets from `i` on add to it makes up `goal`.
   */
  predicate TaxInvariant(t: seq<Bracket>, i: nat, prev: real, amount: real, tax: real, goal: real)
  {
    (i < |t| ==> OrderedFrom(t, i, prev)) && tax + SumFrom(t, i, prev, amount) == goal
  }

  /**
   * A pass of the bracket loop over bracket `i` whose taxable part is
   * positive: adding that part at the bracket's rate to `tax` and moving
   * `prev` to the bracket's limit (the unbounded bracket being the last)
   * keeps the invariant for bracket `i + 1`.
   */
  lemma LoopStep(t: seq<Bracket>, i: nat, prev: real, amount: real, tax: real, goal: real,
                 taxable: real, tax': real, prev': real)
    requires i < |t| && TaxInvariant(t, i, prev, amount, tax, goal)
    requires taxable == MinLimit(amount, t[i].upto) - prev && taxable > 0.0
    requires tax' == tax + taxable * t[i].rate
    requires prev' == if t[i].upto.Finite? then t[i].upto.value else prev
    ensures TaxInvariant(t, i + 1, prev', amount, tax', goal)
  {
    assert taxable == Segment(amount, prev, t[i].upto);
    SameScaled(taxable, Segment(amount, prev, t[i].upto), t[i].rate);
    match t[i].upto
    case Finite(hi) =>
      UnfoldFinite(t, i, prev, amount);
      Regroup(tax, SumFrom(t, i, prev, amount), taxable * t[i].rate, SumFrom(t, i + 1, hi, amount), goal);
    case Infinity =>
      Regroup(tax, SumFrom(t, i, prev, amount), taxable * t[i].rate, SumFrom(t, i + 1, prev, amount), goal);
  }

  /**
   * A pass whose taxable part is not positive finds the amount used up:
   * nothing more is due in the brackets from `i` on, so `tax` is the whole
   * tax.
   */
  lemma LoopStop(t: seq<Bracket>, i: nat, prev: real, amount: real, tax: real, goal: real)
    requires i < |t| && TaxInvariant(t, i, prev, amount, tax, goal)
    requires MinLimit(amount, t[i].upto) - prev <= 0.0
    ensures tax == goal
  {
    NothingBelowFloor(t, i, prev, amount);
  }

  /**
   * `calculateIRS`: walk the bracket table, taxing the part of the amount
   * between the previous limit and this bracket's, and stop at the first
   * bracket that leaves nothing to tax.
   */
  method CalculateIrs(amount: real) returns (tax: real)
    ensures tax == IrsTax(amount)
  {
    BracketTableShape();
    tax := TaxOver(IrsBrackets, amount);
  }

  /** The loop of `calculateIRS`, over any well-formed table `t`. */
  method TaxOver(t: seq<Bracket>, amount: real) returns (tax: real)
    requires Ordered(t)
    ensures tax == ProgressiveTax(t, amount)
  {
    tax := 0.0;
    var prev := 0.0;
    ghost var goal := ProgressiveTax(t, amount);
    for i := 0 to |t|
      invariant TaxInvariant(t, i, prev, amount, tax, goal)
    {
      var bracket := t[i];
      var taxable := MinLimit(amount, bracket.upto) - prev;
      if taxable > 0.0 {
        ghost var (tax0, prev0) := (tax, prev);
        tax := tax + taxable * bracket.rate;
        // The unbounded bracket is the last one, so its limit is never read.
        prev := if bracket.upto.Finite? then bracket.upto.value else prev;
        LoopStep(t, i, prev0, amount, tax0, goal, taxable, tax, prev);
      } else {
        LoopStop(t, i, prev, amount, tax, goal);
        break;
      }
    }
  }

  /** Everything the screen derives from its inputs, per year. */
  datatype Figures = Figures(
    annualWithVat: real, annualWithoutVat: real,
    annualVat: real, annualRevenue: real,
    ss: real, collectable: real, exemption: real, taxableIrs: real, irs: real,
    net: real, totalState: real)

  /**
   * The IRS Jovem exemption on the collectable income: the stage's fraction
   * of it, but never more than the stage's cap of so many IAS.
   */
  function Exemption(collectable: real, stage: IrsJovemStage): (e: real)
    ensures e <= collectable * IrsJovemRules(stage).rate
    ensures e <= IrsJovemRules(stage).limit * Ias
    ensures e == collectable * IrsJovemRules(stage).rate || e == IrsJovemRules(stage).limit * Ias
    ensures stage == None ==> e == 0.0
    ensures collectable >= 0.0 ==> 0.0 <= e <= collectable
  {
    var rule := IrsJovemRules(stage);
    Min(collectable * rule.rate, rule.limit * Ias)
  }

  /**
   * The screen's computation, for amounts entered per month (when
   * `isMonthly`) or per year. The amount with VAT is VAT-inclusive: 23/123
   * of it is VAT and the rest is revenue. Social Security is 21.4% of 70% of
   * revenue unless exempt; income tax is the progressive tax on 75% of
   * revenue less the IRS Jovem exemption; net income is revenue less Social
   * Security and income tax; the State receives Social Security, income tax
   * and VAT.
   */
  function Compute(withVatNumber: real, withoutVatNumber: real, isMonthly: bool, ssExempt: bool,
                   irsStage: IrsJovemStage): (f: Figures)
    ensures isMonthly ==> f.annualWithVat == 12.0 * withVatNumber && f.annualWithoutVat == 12.0 * withoutVatNumber
    ensures !isMonthly ==> f.annualWithVat == withVatNumber && f.annualWithoutVat == withoutVatNumber
    // The VAT is 23% of the VAT-exclusive part, and the two add up to the amount invoiced.
    ensures f.annualVat == VatRate * (f.annualWithVat - f.annualVat)
    ensures 1.23 * (f.annualWithVat - f.annualVat) == f.annualWithVat
    // Revenue without VAT counts in full.
    ensures f.annualRevenue == (f.annualWithVat - f.annualVat) + f.annualWithoutVat
    ensures ssExempt ==> f.ss == 0.0
    ensures !ssExempt ==> f.ss == 0.1498 * f.annualRevenue
    ensures f.collectable == 0.75 * f.annualRevenue
    ensures f.exemption == Exemption(f.collectable, irsStage)
    ensures f.taxableIrs == f.collectable - f.exemption
    ensures irsStage == None ==> f.taxableIrs == f.collectable
    ensures f.annualRevenue >= 0.0 ==> 0.0 <= f.taxableIrs <= f.collectable
    ensures f.irs == IrsTax(f.taxableIrs)
    ensures f.net + f.ss + f.irs == f.annualRevenue
    ensures f.totalState == f.ss + f.irs + f.annualVat
    // Whatever is invoiced is either kept as net income or handed to the State.
    ensures f.net + f.totalState == f.annualWithVat + f.annualWithoutVat
  {
    var multiplier := if isMonthly then 12.0 else 1.0;
    var annualWithVat := withVatNumber * multiplier;
    var annualWithoutVat := withoutVatNumber * multiplier;
    var annualVat := annualWithVat * VatRate / (1.0 + VatRate);
    var annualRevenue := annualWithVat - annualVat + annualWithoutVat;
    var ss := if ssExempt then 0.0 else annualRevenue * SsBaseRate * SsRate;
    var collectable := annualRevenue * IrsBaseRate;
    var exemption := Exemption(collectable, irsStage);
    var taxableIrs := collectable - exemption;
    var irs := IrsTax(taxableIrs);
    var net := annualRevenue - ss - irs;
    var totalState := ss + irs + annualVat;
    Figures(annualWithVat, annualWithoutVat, annualVat, annualRevenue,
            ss, collectable, exemption, taxableIrs, irs, net, totalState)
  }

  /** The figures the screen shows: the chart's four slices and the State's total. */
  datatype Shown = Shown(ss: real, irs: real, vat: real, net: real, totalState: real)

  /**
   * The figures the screen displays for the entered amounts (chart data and
   * the lines under it, before rounding to cents): the mode that annualised
   * the amounts also divides the annual figures back, so they are per month
   * in monthly mode and per year otherwise.
   */
  function Screen(withVatNumber: real, withoutVatNumber: real, isMonthly: bool, ssExempt: bool,
                  irsStage: IrsJovemStage): (d: Shown)
    ensures var f := Compute(withVatNumber, withoutVatNumber, isMonthly, ssExempt, irsStage);
      (isMonthly ==>
        12.0 * d.ss == f.ss && 12.0 * d.irs == f.irs && 12.0 * d.vat == f.annualVat
        && 12.0 * d.net == f.net && 12.0 * d.totalState == f.totalState) &&
      (!isMonthly ==> d == Shown(f.ss, f.irs, f.annualVat, f.net, f.totalState))
  {
    var f := Compute(withVatNumber, withoutVatNumber, isMonthly, ssExempt, irsStage);
    var displayDiv := if isMonthly then 12.0 else 1.0;
    Shown(f.ss / displayDiv, f.irs / displayDiv, f.annualVat / displayDiv, f.net / displayDiv,
          f.totalState / displayDiv)
  }

  /** No income tax is due on nothing, and never more than 45% of the whole amount. */
  lemma IrsTaxBounds(amount: real)
    ensures amount <= 0.0 ==> IrsTax(amount) == 0.0
    ensures 0.0 < amount ==> 0.0 <= IrsTax(amount) <= TopRate * amount
  {
    BracketTableShape();
    TaxBounds(IrsBrackets, amount, TopRate);
  }

  /**
   * Income tax is non-decreasing in the amount, and a rise of the amount
   * raises it by at most 45% of the rise.
   */
  lemma IrsTaxMonotone(x: real, y: real)
    requires x <= y
    ensures 0.0 <= IrsTax(y) - IrsTax(x) <= TopRate * (y - x)
  {
    BracketTableShape();
    TaxGrowth(IrsBrackets, x, y, TopRate);
  }

  /**
   * Income tax is piecewise linear with a slope that never decreases: a
   * rise `d` of the amount costs at least as much tax on a higher amount as
   * on a lower one.
   */
  lemma IrsTaxConvex(x: real, y: real, d: real)
    requires x <= y && 0.0 <= d
    ensures IrsTax(x + d) - IrsTax(x) <= IrsTax(y + d) - IrsTax(y)
  {
    BracketTableShape();
    TaxConvex(IrsBrackets, x, y, d);
  }

  /** An amount within the first bracket is taxed at 13.25% only. */
  lemma IrsTaxFirstBracket(amount: real)
    requires 0.0 <= amount <= 7703.0
    ensures IrsTax(amount) == 0.1325 * amount
  {
    BracketTableShape();
    FirstBracketOnly(IrsBrackets, amount);
  }

  /**
   * The amount subject to income tax (collectable income less the
   * exemption) grows with collectable income, and never faster.
   */
  lemma TaxableGrowth(c1: real, c2: real, stage: IrsJovemStage)
    requires c1 <= c2
    ensures 0.0 <= (c2 - Exemption(c2, stage)) - (c1 - Exemption(c1, stage)) <= c2 - c1
  {
    var rule := IrsJovemRules(stage);
    assert 0.0 <= c2 * rule.rate - c1 * rule.rate <= c2 - c1 by {
      ScaleMono(rule.rate, c1, c2);
      ScaleMono(1.0 - rule.rate, c1, c2);
    }
    CappedGrowth(c1, c2, c1 * rule.rate, c2 * rule.rate, rule.limit * Ias);
  }

  /**
   * Monthly mode is annual mode on twelve times the amounts: the same
   * figures, and each displayed one is the annual figure over 12.
   */
  lemma MonthlyIsTwelveMonths(withVatNumber: real, withoutVatNumber: real, ssExempt: bool,
                              irsStage: IrsJovemStage)
    ensures var monthly := Compute(withVatNumber, withoutVatNumber, true, ssExempt, irsStage);
      var annual := Compute(12.0 * withVatNumber, 12.0 * withoutVatNumber, false, ssExempt, irsStage);
      var perMonth := Screen(withVatNumber, withoutVatNumber, true, ssExempt, irsStage);
      var perYear := Screen(12.0 * withVatNumber, 12.0 * withoutVatNumber, false, ssExempt, irsStage);
      monthly == annual &&
      12.0 * perMonth.ss == perYear.ss && 12.0 * perMonth.irs == perYear.irs &&
      12.0 * perMonth.vat == perYear.vat && 12.0 * perMonth.net == perYear.net &&
      12.0 * perMonth.totalState == perYear.totalState
  {
    var monthly := Compute(withVatNumber, withoutVatNumber, true, ssExempt, irsStage);
    var annual := Compute(12.0 * withVatNumber, 12.0 * withoutVatNumber, false, ssExempt, irsStage);
    assert monthly.annualWithVat == annual.annualWithVat;
    assert monthly.annualWithoutVat == annual.annualWithoutVat;
  }

  /**
   * More revenue never means less: Social Security, income tax and net
   * income all grow (weakly) with annual revenue, for a fixed stage and
   * exemption, since at most 14.98% + 45% of 75% of any extra euro goes to
   * the State.
   */
  lemma RevenueMonotone(w1: real, o1: real, m1: bool, w2: real, o2: real, m2: bool,
                        ssExempt: bool, irsStage: IrsJovemStage)
    requires Compute(w1, o1, m1, ssExempt, irsStage).annualRevenue <=
             Compute(w2, o2, m2, ssExempt, irsStage).annualRevenue
    ensures var f1, f2 := Compute(w1, o1, m1, ssExempt, irsStage), Compute(w2, o2, m2, ssExempt, irsStage);
      f1.ss <= f2.ss && f1.irs <= f2.irs && f1.net <= f2.net
  {
    var f1 := Compute(w1, o1, m1, ssExempt, irsStage);
    var f2 := Compute(w2, o2, m2, ssExempt, irsStage);
    TaxableGrowth(f1.collectable, f2.collectable, irsStage);
    IrsTaxMonotone(f1.taxableIrs, f2.taxableIrs);
  }

  /** Nothing entered: every figure is 0. */
  lemma NothingEntered(isMonthly: bool, ssExempt: bool, irsStage: IrsJovemStage)
    ensures Compute(0.0, 0.0, isMonthly, ssExempt, irsStage) ==
      Figures(0.0, 0.0, 0.0, 0.0, 0.0, 0.0, 0.0, 0.0, 0.0, 0.0, 0.0)
  {
    IrsTaxBounds(0.0);
  }

  /**
   * Negative amounts are not rejected: with no positive revenue no income
   * tax is due, while Social Security, unless exempt, comes out negative
   * for negative revenue.
   */
  lemma NoPositiveRevenue(withVatNumber: real, withoutVatNumber: real, isMonthly: bool, ssExempt: bool,
                          irsStage: IrsJovemStage)
    requires Compute(withVatNumber, withoutVatNumber, isMonthly, ssExempt, irsStage).annualRevenue <= 0.0
    ensures var f := Compute(withVatNumber, withoutVatNumber, isMonthly, ssExempt, irsStage);
      f.taxableIrs <= 0.0 && f.irs == 0.0 && f.net == f.annualRevenue - f.ss &&
      (!ssExempt && f.annualRevenue < 0.0 ==> f.ss < 0.0)
  {
    var f := Compute(withVatNumber, withoutVatNumber, isMonthly, ssExempt, irsStage);
    var rate := IrsJovemRules(irsStage).rate;
    ScaleMono(rate, f.collectable, 0.0);
    ScaleMono(1.0 - rate, f.collectable, 0.0);
    IrsTaxBounds(f.taxableIrs);
  }

  /** Income tax on 9000: the first bracket in full and 1297 of the second. */
  lemma IrsOn9000()
    ensures IrsTax(9000.0) == 1254.1075
  {
    var t, x := IrsBrackets, 9000.0;
    BracketTableShape();
    assert OrderedFrom(t, 8, 81479.0);
    assert OrderedFrom(t, 7, 51997.0);
    assert OrderedFrom(t, 6, 39251.0);
    assert OrderedFrom(t, 5, 27135.0);
    assert OrderedFrom(t, 4, 21041.0);
    assert OrderedFrom(t, 3, 16432.0);
    assert OrderedFrom(t, 2, 11623.0);
    UnfoldFinite(t, 0, 0.0, x);
    UnfoldFinite(t, 1, 7703.0, x);
    NothingBelowFloor(t, 2, 11623.0, x);
  }

  /**
   * 1230 a month invoiced with VAT, nothing without, no exemptions: 12000 of
   * revenue a year, of which the State takes 5811.7075 with the VAT.
   */
  lemma Example1230Monthly()
    ensures var f := Compute(1230.0, 0.0, true, false, None);
      f == Figures(14760.0, 0.0, 2760.0, 12000.0, 1797.6, 9000.0, 0.0, 9000.0, 1254.1075,
                   8948.2925, 5811.7075)
  {
    IrsOn9000();
  }
}
