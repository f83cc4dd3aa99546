/**
 * The library tax engine (`calculateTaxes`): a year of domestic and foreign
 * revenue of a self-employed worker, with optional "IRS Jovem" relief and
 * optional Social Security exemption, turned into annual and
 * monthly amounts of Social Security, income tax (IRS), VAT and net income.
 */
module Calculations {
  import opened Progressive

  /** The IRS Jovem stage a worker is in. */
  datatype IrsJovemOption = None | Year1 | Year2To4 | Year5To7 | Year8To10

  const VatRate: real := 0.23
  const VatExemptThreshold: real := 15000.0
  const SocialSecurityRate: real := 0.214
  const SocialSecurityBase: real := 0.7
  const IrsCoefficient: real := 0.75
  /** Social support index (IAS), in euros. */
  const Ias: real := 509.27
  /** Cap on the IRS Jovem exemption: 55 times the IAS. */
  const IrsJovemLimit: real := 55.0 * Ias

  /** Fraction of the IRS base that an IRS Jovem stage exempts. */
  function ExemptionFraction(o: IrsJovemOption): (f: real)
    ensures 0.0 <= f <= 1.0
    ensures f == 0.0 <==> o == None
    ensures f == 1.0 <==> o == Year1
  {
    match o
    case None => 0.0
    case Year1 => 1.0
    case Year2To4 => 0.75
    case Year5To7 => 0.5
    case Year8To10 => 0.25
  }

  /** The top marginal rate. */
  const TopRate: real := 0.48

  /** The income tax brackets, by upper limit and marginal rate. */
  const IrsBrackets: seq<Bracket> := [
    Bracket(Finite(7703.0), 0.1325),
    Bracket(Finite(11623.0), 0.18),
    Bracket(Finite(16472.0), 0.23),
    Bracket(Finite(21321.0), 0.26),
    Bracket(Finite(27146.0), 0.3),
    Bracket(Finite(39791.0), 0.35),
    Bracket(Finite(64179.0), 0.37),
    Bracket(Finite(90000.0), 0.45),
    Bracket(Infinity, TopRate)
  ]

  /**
   * The bracket table is well formed: limits strictly increase from 0, only
   * the last bracket is unbounded, the rates never decrease and every rate
   * lies in `[0, 0.48]`.
   */
  lemma BracketTable()
    ensures Ordered(IrsBrackets)
    ensures forall i :: 0 <= i < 8 ==> IrsBrackets[i].rate <= IrsBrackets[i + 1].rate
    ensures RatesRise(IrsBrackets)
    ensures RatesWithin(IrsBrackets, TopRate)
  {
    var t := IrsBrackets;
    assert OrderedFrom(t, 8, 90000.0);
    assert OrderedFrom(t, 7, 64179.0);
    assert OrderedFrom(t, 6, 39791.0);
    assert OrderedFrom(t, 5, 27146.0);
    assert OrderedFrom(t, 4, 21321.0);
    assert OrderedFrom(t, 3, 16472.0);
    assert OrderedFrom(t, 2, 11623.0);
    assert OrderedFrom(t, 1, 7703.0);
  }

  /** Income tax due on a taxable amount: the progressive sum over the brackets. */
  function IrsPayable(taxable: real): real
  {
    ProgressiveTax(IrsBrackets, taxable)
  }

  /**
   * What the bracket loop keeps between passes: `remaining` is what is left
   * of `x` above `lo` (or 0 once `x` is used up).
   */
  predicate Remains(remaining: real, x: real, lo: real) {
    remaining == x - lo || (remaining == 0.0 && x <= lo)
  }

  /**
   * The invariant of the bracket loop before bracket `i`, which starts at
   * `lo`: `total` holds the tax on the brackets before `i`, and what the
   * brackets from `i` on add to it is the rest of the progressive tax on `x`.
   */
  predicate PayableInvariant(t: seq<Bracket>, i: nat, lo: real, x: real, remaining: real, total: real, goal: real)
  {
    (i < |t| ==> OrderedFrom(t, i, lo) && Remains(remaining, x, lo)) &&
    total + SumFrom(t, i, lo, x) == goal
  }

  /**
   * A pass of the bracket loop over bracket `i` whose segment is positive:
   * the segment is that bracket's share of `x`, and adding it at the
   * bracket's rate to `total`, taking it off `remaining` and moving `lo` to
   * the bracket's limit (the unbounded bracket being the last) keeps the
   * invariant for bracket `i + 1`.
   */
  lemma LoopStep(t: seq<Bracket>, i: nat, lo: real, x: real, remaining: real, total: real, goal: real,
                 segment: real, total': real, remaining': real, lo': real)
    requires i < |t| && PayableInvariant(t, i, lo, x, remaining, total, goal)
    requires segment == MinLimit(remaining, Minus(t[i].upto, lo)) && segment > 0.0
    requires total' == total + segment * t[i].rate && remaining' == remaining - segment
    requires lo' == if t[i].upto.Finite? then t[i].upto.value else lo
    ensures PayableInvariant(t, i + 1, lo', x, remaining', total', goal)
  {
    assert segment == Segment(x, lo, t[i].upto);
    SameScaled(segment, Segment(x, lo, t[i].upto), t[i].rate);
    match t[i].upto
    case Finite(hi) =>
      UnfoldFinite(t, i, lo, x);
      Regroup(total, SumFrom(t, i, lo, x), segment * t[i].rate, SumFrom(t, i + 1, hi, x), goal);
    case Infinity =>
      Regroup(total, SumFrom(t, i, lo, x), segment * t[i].rate, SumFrom(t, i + 1, lo, x), goal);
  }

  /**
   * A pass whose segment is not positive finds the amount used up: nothing
   * more is due in the brackets from `i` on, so `total` is the whole tax.
   */
  lemma LoopStop(t: seq<Bracket>, i: nat, lo: real, x: real, remaining: real, total: real, goal: real)
    requires i < |t| && PayableInvariant(t, i, lo, x, remaining, total, goal)
    requires MinLimit(remaining, Minus(t[i].upto, lo)) <= 0.0
    ensures total == goal
  {
    NothingBelowFloor(t, i, lo, x);
  }

  /**
   * `calculateIRSPayable`: walk the bracket table, taxing the part of the
   * remaining amount that fits in each bracket, and stop at the first
   * bracket that receives nothing.
   */
  method CalculateIrsPayable(taxable: real) returns (total: real)
    ensures total == IrsPayable(taxable)
  {
    BracketTable();
    total := PayableOver(IrsBrackets, taxable);
  }

  /** The loop of `calculateIRSPayable`, over any well-formed table `t`. */
  method PayableOver(t: seq<Bracket>, taxable: real) returns (total: real)
    requires Ordered(t)
    ensures total == ProgressiveTax(t, taxable)
  {
    var remaining := taxable;
    var lastLimit := 0.0;
    total := 0.0;
    ghost var goal := ProgressiveTax(t, taxable);
    for i := 0 to |t|
      invariant PayableInvariant(t, i, lastLimit, taxable, remaining, total, goal)
    {
      var bracket := t[i];
      var segment := MinLimit(remaining, Minus(bracket.upto, lastLimit));
      if segment <= 0.0 {
        LoopStop(t, i, lastLimit, taxable, remaining, total, goal);
        break;
      }
      ghost var (total0, remaining0, lastLimit0) := (total, remaining, lastLimit);
      total := total + segment * bracket.rate;
      remaining := remaining - segment;
      if bracket.upto.Finite? {
        lastLimit := bracket.upto.value;
      }
      // After the unbounded bracket, the last one, the loop ends.
      LoopStep(t, i, lastLimit0, taxable, remaining0, total0, goal, segment, total, remaining, lastLimit);
    }
  }

  /** The per-year figures of `calculateTaxes`. */
  datatype Annual = Annual(
    ss: real, irs: real, vat: real, net: real, gross: real, irsBase: real, exemption: real)

  /** The per-month figures of `calculateTaxes`. */
  datatype Monthly = Monthly(ss: real, irs: real, vat: real, net: real, gross: real)

  datatype TaxResult = TaxResult(annual: Annual, monthly: Monthly, effectiveIrsRate: real)

  /** `amount / base` when the base is positive, and 0 otherwise. */
  function Rate(amount: real, base: real): (q: real)
    ensures base > 0.0 ==> q * base == amount
    ensures base <= 0.0 ==> q == 0.0
  {
    if base > 0.0 then DivCancel(amount, base); amount / base else 0.0
  }

  /**
   * The IRS Jovem exemption on an IRS base: the stage's fraction of the base,
   * but never more than `IrsJovemLimit`.
   */
  function Exemption(irsBase: real, o: IrsJovemOption): (e: real)
    ensures e <= IrsJovemLimit && e <= irsBase * ExemptionFraction(o)
    ensures e == IrsJovemLimit || e == irsBase * ExemptionFraction(o)
    ensures o == None ==> e == 0.0
    ensures irsBase >= 0.0 ==> e >= 0.0
  {
    Min(irsBase * ExemptionFraction(o), IrsJovemLimit)
  }

  /**
   * The amount the income tax is levied on: the IRS base less the
   * exemption, floored at 0; with no IRS Jovem stage, the (non-negative)
   * base itself.
   */
  function IrsTaxable(irsBase: real, o: IrsJovemOption): (x: real)
    ensures 0.0 <= x
    ensures x == 0.0 || x == irsBase - Exemption(irsBase, o)
    ensures irsBase - Exemption(irsBase, o) <= x
    ensures irsBase >= 0.0 ==> x <= irsBase
    ensures o == None ==> x == Max(irsBase, 0.0)
  {
    Max(irsBase - Exemption(irsBase, o), 0.0)
  }

  /**
   * `calculateTaxes`. VAT is owed on domestic revenue from 15000 up;
   * Social Security is 21.4% of 70% of all revenue unless exempt; income tax
   * is the progressive tax on 75% of all revenue less the IRS Jovem
   * exemption; net income is revenue less Social Security and income tax.
   */
  function CalculateTaxes(domestic: real, foreign: real, irsJovem: IrsJovemOption, ssExempt: bool)
    : (r: TaxResult)
    ensures r.annual.gross == domestic + foreign
    ensures r.annual.vat == 0.0 <==> domestic < VatExemptThreshold
    ensures domestic >= VatExemptThreshold ==> r.annual.vat == 0.23 * domestic
    ensures ssExempt ==> r.annual.ss == 0.0
    ensures !ssExempt ==> r.annual.ss == 0.1498 * r.annual.gross
    ensures r.annual.irsBase == 0.75 * r.annual.gross
    ensures r.annual.exemption == Exemption(r.annual.irsBase, irsJovem)
    ensures r.annual.irs == IrsPayable(IrsTaxable(r.annual.irsBase, irsJovem))
    ensures r.annual.net + r.annual.ss + r.annual.irs == r.annual.gross
    ensures 12.0 * r.monthly.ss == r.annual.ss
    ensures 12.0 * r.monthly.irs == r.annual.irs
    ensures 12.0 * r.monthly.vat == r.annual.vat
    ensures 12.0 * r.monthly.net == r.annual.net
    ensures 12.0 * r.monthly.gross == r.annual.gross
    ensures r.effectiveIrsRate == Rate(r.annual.irs, r.annual.irsBase)
  {
    var totalRevenue := domestic + foreign;
    var vatToPay := if domestic < VatExemptThreshold then 0.0 else domestic * VatRate;
    var calculatedSs := totalRevenue * SocialSecurityBase * SocialSecurityRate;
    var ss := if ssExempt then 0.0 else calculatedSs;
    var irsBase := totalRevenue * IrsCoefficient;
    var exemption := Exemption(irsBase, irsJovem);
    var irsTaxable := IrsTaxable(irsBase, irsJovem);
    var irs := IrsPayable(irsTaxable);
    var net := totalRevenue - ss - irs;
    var annual := Annual(ss, irs, vatToPay, net, totalRevenue, irsBase, exemption);
    var monthly := Monthly(ss / 12.0, irs / 12.0, vatToPay / 12.0, net / 12.0, totalRevenue / 12.0);
    var effectiveIrsRate := Rate(irs, irsBase);
    TaxResult(annual, monthly, effectiveIrsRate)
  }

  /** No income tax is due on nothing, and never more than the top rate of the whole amount. */
  lemma IrsPayableBounds(taxable: real)
    ensures taxable <= 0.0 ==> IrsPayable(taxable) == 0.0
    ensures 0.0 < taxable ==> 0.0 <= IrsPayable(taxable) <= TopRate * taxable
  {
    BracketTable();
    TaxBounds(IrsBrackets, taxable, TopRate);
  }

  /**
   * Income tax is non-decreasing in the taxable amount, and a rise of the
   * amount raises it by at most the top rate times the rise.
   */
  lemma IrsPayableMonotone(x: real, y: real)
    requires x <= y
    ensures 0.0 <= IrsPayable(y) - IrsPayable(x) <= TopRate * (y - x)
  {
    BracketTable();
    TaxGrowth(IrsBrackets, x, y, TopRate);
  }

  /**
   * Income tax is piecewise linear with a slope that never decreases: a
   * rise `d` of the taxable amount costs at least as much tax on a higher
   * amount as on a lower one.
   */
  lemma IrsPayableConvex(x: real, y: real, d: real)
    requires x <= y && 0.0 <= d
    ensures IrsPayable(x + d) - IrsPayable(x) <= IrsPayable(y + d) - IrsPayable(y)
  {
    BracketTable();
    TaxConvex(IrsBrackets, x, y, d);
  }

  /** An amount within the first bracket is taxed at 13.25% only. */
  lemma IrsFirstBracket(taxable: real)
    requires 0.0 <= taxable <= 7703.0
    ensures IrsPayable(taxable) == 0.1325 * taxable
  {
    BracketTable();
    FirstBracketOnly(IrsBrackets, taxable);
  }

  /**
   * The effective rate (income tax over the IRS base) lies between 0 and the
   * top rate; with no positive base there is neither tax nor rate.
   */
  lemma EffectiveRate(domestic: real, foreign: real, irsJovem: IrsJovemOption, ssExempt: bool)
    ensures var r := CalculateTaxes(domestic, foreign, irsJovem, ssExempt);
      (r.annual.irsBase <= 0.0 ==> r.effectiveIrsRate == 0.0 && r.annual.irs == 0.0) &&
      (r.annual.irsBase > 0.0 ==> 0.0 <= r.effectiveIrsRate <= TopRate)
  {
    var r := CalculateTaxes(domestic, foreign, irsJovem, ssExempt);
    var base, irs := r.annual.irsBase, r.annual.irs;
    var taxable := IrsTaxable(base, irsJovem);
    IrsPayableBounds(taxable);
    if base > 0.0 {
      assert 0.0 <= irs <= TopRate * base by {
        if taxable > 0.0 {
          ScaleMono(TopRate, taxable, base);
        }
      }
      RateWithin(irs, base, TopRate);
    }
  }

  /** `a / b` lies in `[0, m]` when `a` lies in `[0, m * b]` and `b` is positive. */
  lemma RateWithin(a: real, b: real, m: real)
    requires b > 0.0 && 0.0 <= a <= m * b
    ensures 0.0 <= Rate(a, b) <= m
  {
    var q := Rate(a, b);
    if q > m {
      assert q * b > m * b;
    }
  }

  /** No revenue: nothing is owed and nothing is earned. */
  lemma ZeroRevenue(irsJovem: IrsJovemOption, ssExempt: bool)
    ensures var r := CalculateTaxes(0.0, 0.0, irsJovem, ssExempt);
      r.annual == Annual(0.0, 0.0, 0.0, 0.0, 0.0, 0.0, 0.0) &&
      r.monthly == Monthly(0.0, 0.0, 0.0, 0.0, 0.0) &&
      r.effectiveIrsRate == 0.0
  {
    IrsPayableBounds(0.0);
  }

  /**
   * Only VAT depends on where the revenue comes from: two splits of the same
   * total owe the same Social Security and income tax and earn the same net.
   */
  lemma OnlyVatDependsOnSplit(d1: real, f1: real, d2: real, f2: real, irsJovem: IrsJovemOption, ssExempt: bool)
    requires d1 + f1 == d2 + f2
    ensures var r1, r2 := CalculateTaxes(d1, f1, irsJovem, ssExempt), CalculateTaxes(d2, f2, irsJovem, ssExempt);
      r1.annual.ss == r2.annual.ss && r1.annual.irs == r2.annual.irs &&
      r1.annual.net == r2.annual.net && r1.effectiveIrsRate == r2.effectiveIrsRate
  {
    var r1 := CalculateTaxes(d1, f1, irsJovem, ssExempt);
    var r2 := CalculateTaxes(d2, f2, irsJovem, ssExempt);
    assert r1.annual.irsBase == r2.annual.irsBase;
  }

  /**
   * The exemption from Social Security raises net income by
   * exactly the contribution it waives and changes nothing else but `ss`.
   */
  lemma SsExemptionGain(domestic: real, foreign: real, irsJovem: IrsJovemOption)
    ensures var paying, exempt := CalculateTaxes(domestic, foreign, irsJovem, false),
                                  CalculateTaxes(domestic, foreign, irsJovem, true);
      exempt.annual.net - paying.annual.net == 0.1498 * (domestic + foreign) &&
      exempt.annual.irs == paying.annual.irs && exempt.annual.vat == paying.annual.vat
  {
  }

  /**
   * The amount subject to income tax grows with the IRS base, and never
   * faster than the base.
   */
  lemma TaxableGrowth(b1: real, b2: real, o: IrsJovemOption)
    requires b1 <= b2
    ensures 0.0 <= IrsTaxable(b2, o) - IrsTaxable(b1, o) <= b2 - b1
  {
    var f := ExemptionFraction(o);
    assert 0.0 <= b2 * f - b1 * f <= b2 - b1 by {
      ScaleMono(f, b1, b2);
      ScaleMono(1.0 - f, b1, b2);
    }
    CappedGrowth(b1, b2, b1 * f, b2 * f, IrsJovemLimit);
  }

  /**
   * More revenue never means less: Social Security, income tax and net
   * income all grow (weakly) with total revenue, for a fixed stage and
   * exemption. VAT, which has a threshold, is not part of net income.
   */
  lemma RevenueMonotone(d1: real, f1: real, d2: real, f2: real, irsJovem: IrsJovemOption, ssExempt: bool)
    requires d1 + f1 <= d2 + f2
    ensures var r1, r2 := CalculateTaxes(d1, f1, irsJovem, ssExempt), CalculateTaxes(d2, f2, irsJovem, ssExempt);
      r1.annual.ss <= r2.annual.ss && r1.annual.irs <= r2.annual.irs &&
      r1.annual.net <= r2.annual.net
  {
    var r1 := CalculateTaxes(d1, f1, irsJovem, ssExempt);
    var r2 := CalculateTaxes(d2, f2, irsJovem, ssExempt);
    var t1 := IrsTaxable(r1.annual.irsBase, irsJovem);
    var t2 := IrsTaxable(r2.annual.irsBase, irsJovem);
    TaxableGrowth(r1.annual.irsBase, r2.annual.irsBase, irsJovem);
    IrsPayableMonotone(t1, t2);
  }

  /**
   * Income tax on 22500 (the IRS base of 30000 of revenue): four full
   * brackets and 1179 of the fifth.
   */
  lemma IrsOn22500()
    ensures IrsPayable(22500.0) == 4455.9575
  {
    var t, x := IrsBrackets, 22500.0;
    BracketTable();
    assert OrderedFrom(t, 8, 90000.0);
    assert OrderedFrom(t, 7, 64179.0);
    assert OrderedFrom(t, 6, 39791.0);
    assert OrderedFrom(t, 5, 27146.0);
    UnfoldFinite(t, 0, 0.0, x);
    UnfoldFinite(t, 1, 7703.0, x);
    UnfoldFinite(t, 2, 11623.0, x);
    UnfoldFinite(t, 3, 16472.0, x);
    UnfoldFinite(t, 4, 21321.0, x);
    NothingBelowFloor(t, 5, 27146.0, x);
  }

  /** 30000 of domestic revenue, no IRS Jovem, paying Social Security. */
  lemma Example30000()
    ensures var r := CalculateTaxes(30000.0, 0.0, None, false);
      r.annual == Annual(4494.0, 4455.9575, 6900.0, 21050.0425, 30000.0, 22500.0, 0.0) &&
      r.monthly.gross == 2500.0 && r.monthly.ss == 374.5 && r.monthly.vat == 575.0
  {
    IrsOn22500();
  }
}
