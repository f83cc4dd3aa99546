/**
 * Progressive-bracket income tax, as a closed form.
 *
 * A bracket table is an ordered sequence of brackets, each with an upper
 * limit (the last one unbounded) and a marginal rate. The tax on an amount
 * `x` is the sum over brackets of `rate * max(0, min(x, hi) - lo)`, where
 * `lo` is the previous bracket's limit (0 for the first one). Both bracket
 * loops of the calculator are proved equal to this sum.
 */
module Progressive {

  /** `Math.min` on amounts: the smaller of the two. */
  function Min(a: real, b: real): (r: real)
    ensures r <= a && r <= b && (r == a || r == b)
  {
    if a <= b then a else b
  }

  /** `Math.max` on amounts: the larger of the two. */
  function Max(a: real, b: real): (r: real)
    ensures r >= a && r >= b && (r == a || r == b)
  {
    if a >= b then a else b
  }

  /** Dividing by a non-zero amount and multiplying back gives the original. */
  lemma DivCancel(a: real, b: real)
    requires b != 0.0
    ensures a / b * b == a
  {
  }

  /** A bracket limit: a finite amount, or `Infinity` for the last bracket. */
  datatype Limit = Finite(value: real) | Infinity

  datatype Bracket = Bracket(upto: Limit, rate: real)

  /** `Math.min(a, l)` where `l` may be `Infinity`. */
  function MinLimit(a: real, l: Limit): (r: real)
    ensures r <= a
    ensures l.Finite? ==> r <= l.value && (r == a || r == l.value)
    ensures l.Infinity? ==> r == a
  {
    match l
    case Finite(v) => if a <= v then a else v
    case Infinity => a
  }

  /** `l - b` where `l` may be `Infinity` (and then so is the difference). */
  function Minus(l: Limit, b: real): (r: Limit)
    ensures r.Infinity? <==> l.Infinity?
    ensures l.Finite? ==> r.value + b == l.value
  {
    match l
    case Finite(v) => Finite(v - b)
    case Infinity => Infinity
  }

  /** `l > lo`. */
  predicate Exceeds(l: Limit, lo: real) {
    l.Infinity? || l.value > lo
  }

  /** The part of `x` that falls in the bracket `(lo, hi]`. */
  function Segment(x: real, lo: real, hi: Limit): (r: real)
    ensures 0.0 <= r
    ensures x <= lo ==> r == 0.0
    ensures lo <= x && (hi.Infinity? || x <= hi.value) ==> r == x - lo
    ensures hi.Finite? && lo < hi.value <= x ==> r == hi.value - lo
  {
    match hi
    case Infinity => if x > lo then x - lo else 0.0
    case Finite(h) =>
      var top := if x <= h then x else h;
      if top > lo then top - lo else 0.0
  }

  /**
   * The brackets of `t` from index `i` on form a well-formed table starting
   * at `lo`: limits strictly increase, every bracket but the last is bounded
   * and the last one is unbounded.
   */
  predicate OrderedFrom(t: seq<Bracket>, i: nat, lo: real)
    decreases |t| - i
  {
    i < |t| && Exceeds(t[i].upto, lo) &&
    match t[i].upto
    case Infinity => i == |t| - 1
    case Finite(hi) => OrderedFrom(t, i + 1, hi)
  }

  /** `t` is a well-formed bracket table whose first bracket starts at 0. */
  predicate Ordered(t: seq<Bracket>) {
    OrderedFrom(t, 0, 0.0)
  }

  /** Every marginal rate of `t` lies in `[0, m]`. */
  predicate RatesWithin(t: seq<Bracket>, m: real) {
    forall i :: 0 <= i < |t| ==> 0.0 <= t[i].rate <= m
  }

  /** The marginal rates of `t` never decrease from one bracket to a later one. */
  predicate RatesRise(t: seq<Bracket>) {
    forall i, j :: 0 <= i < j < |t| ==> t[i].rate <= t[j].rate
  }

  /** Tax on `x` due in the brackets of `t` from index `i` on, the first of which starts at `lo`. */
  function SumFrom(t: seq<Bracket>, i: nat, lo: real, x: real): real
    decreases |t| - i
  {
    if i >= |t| then 0.0
    else
      Segment(x, lo, t[i].upto) * t[i].rate +
      match t[i].upto
      case Infinity => 0.0
      case Finite(hi) => SumFrom(t, i + 1, hi, x)
  }

  /** Progressive tax on `x` under table `t`. */
  function ProgressiveTax(t: seq<Bracket>, x: real): real
  {
    SumFrom(t, 0, 0.0, x)
  }

  /** No tax is due on an amount that does not exceed the floor of the brackets from `i`. */
  lemma {:induction false} NothingBelowFloor(t: seq<Bracket>, i: nat, lo: real, x: real)
    requires OrderedFrom(t, i, lo) && x <= lo
    ensures SumFrom(t, i, lo, x) == 0.0
    decreases |t| - i
  {
    match t[i].upto
    case Infinity =>
    case Finite(hi) => NothingBelowFloor(t, i + 1, hi, x);
  }

  /** Two amounts `d` apart, taxed at a rate in `[0, m]`, are at most `m * d` apart. */
  lemma RateStep(sx: real, sy: real, r: real, m: real, d: real)
    requires sy - sx == d && 0.0 <= d && 0.0 <= r <= m
    ensures 0.0 <= sy * r - sx * r <= m * d
  {
    assert sy * r - sx * r == d * r;
    assert m * d - d * r == d * (m - r);
  }

  /** `m * a + m * b == m * c` when `a + b == c`. */
  lemma AddScaled(m: real, a: real, b: real, c: real)
    requires a + b == c
    ensures m * a + m * b == m * c
  {
  }

  /** Multiplying by a non-negative factor keeps the order. */
  lemma ScaleMono(m: real, u: real, v: real)
    requires 0.0 <= m && u <= v
    ensures m * u <= m * v
  {
    assert m * v - m * u == m * (v - u);
  }

  /** `total + s == goal` with `s == a + b` gives `total + a + b == goal`. */
  lemma Regroup(total: real, s: real, a: real, b: real, goal: real)
    requires total + s == goal && s == a + b
    ensures total + a + b == goal
  {
  }

  /** Equal amounts taxed at one rate give equal tax. */
  lemma SameScaled(a: real, b: real, r: real)
    requires a == b
    ensures a * r == b * r
  {
  }

  /** One step of `SumFrom` through a bounded bracket. */
  lemma UnfoldFinite(t: seq<Bracket>, i: nat, lo: real, x: real)
    requires OrderedFrom(t, i, lo) && t[i].upto.Finite?
    ensures SumFrom(t, i, lo, x) ==
      Segment(x, lo, t[i].upto) * t[i].rate + SumFrom(t, i + 1, t[i].upto.value, x)
  {
  }

  /** Growth of the tax through an unbounded bracket. */
  lemma GrowthUnbounded(t: seq<Bracket>, i: nat, lo: real, x: real, y: real, m: real)
    requires OrderedFrom(t, i, lo) && t[i].upto.Infinity? && 0.0 <= t[i].rate <= m && lo <= x <= y
    ensures 0.0 <= SumFrom(t, i, lo, y) - SumFrom(t, i, lo, x) <= m * (y - x)
  {
    RateStep(Segment(x, lo, t[i].upto), Segment(y, lo, t[i].upto), t[i].rate, m, y - x);
  }

  /** Growth of the tax when both amounts stay inside bounded bracket `i`. */
  lemma GrowthWithin(t: seq<Bracket>, i: nat, lo: real, x: real, y: real, m: real)
    requires OrderedFrom(t, i, lo) && t[i].upto.Finite? && 0.0 <= t[i].rate <= m
    requires lo <= x <= y <= t[i].upto.value
    ensures 0.0 <= SumFrom(t, i, lo, y) - SumFrom(t, i, lo, x) <= m * (y - x)
  {
    var hi := t[i].upto.value;
    UnfoldFinite(t, i, lo, x);
    UnfoldFinite(t, i, lo, y);
    NothingBelowFloor(t, i + 1, hi, x);
    NothingBelowFloor(t, i + 1, hi, y);
    RateStep(Segment(x, lo, t[i].upto), Segment(y, lo, t[i].upto), t[i].rate, m, y - x);
  }

  /** Growth of the tax when both amounts are past bounded bracket `i`. */
  lemma GrowthAbove(t: seq<Bracket>, i: nat, lo: real, x: real, y: real, m: real)
    requires OrderedFrom(t, i, lo) && t[i].upto.Finite? && t[i].upto.value <= x <= y
    requires 0.0 <= SumFrom(t, i + 1, t[i].upto.value, y) - SumFrom(t, i + 1, t[i].upto.value, x)
               <= m * (y - x)
    ensures 0.0 <= SumFrom(t, i, lo, y) - SumFrom(t, i, lo, x) <= m * (y - x)
  {
    var hi := t[i].upto.value;
    UnfoldFinite(t, i, lo, x);
    UnfoldFinite(t, i, lo, y);
    SameScaled(Segment(x, lo, t[i].upto), Segment(y, lo, t[i].upto), t[i].rate);
    ShiftBound(SumFrom(t, i, lo, x), SumFrom(t, i, lo, y),
               Segment(x, lo, t[i].upto) * t[i].rate, Segment(y, lo, t[i].upto) * t[i].rate,
               SumFrom(t, i + 1, hi, x), SumFrom(t, i + 1, hi, y), m * (y - x));
  }

  /** Adding the same amount to two quantities keeps their difference. */
  lemma ShiftBound(sx: real, sy: real, a: real, b: real, tx: real, ty: real, bound: real)
    requires sx == a + tx && sy == b + ty && a == b && 0.0 <= ty - tx <= bound
    ensures 0.0 <= sy - sx <= bound
  {
  }

  /** Two consecutive rises within `[0, p]` and `[0, q]` make one within `[0, p + q]`. */
  lemma Chain(a: real, b: real, c: real, p: real, q: real, s: real)
    requires 0.0 <= b - a <= p && 0.0 <= c - b <= q && p + q == s
    ensures 0.0 <= c - a <= s
  {
  }

  /**
   * Raising an amount above the floor from `x` to `y` raises the tax due in
   * the brackets from `i` by at least 0 and by at most the top rate `m`
   * times the raise.
   */
  lemma {:induction false} SumFromGrowth(t: seq<Bracket>, i: nat, lo: real, x: real, y: real, m: real)
    requires OrderedFrom(t, i, lo) && RatesWithin(t, m) && lo <= x <= y
    ensures 0.0 <= SumFrom(t, i, lo, y) - SumFrom(t, i, lo, x) <= m * (y - x)
    decreases |t| - i
  {
    assert 0.0 <= t[i].rate <= m;
    match t[i].upto
    case Infinity =>
      GrowthUnbounded(t, i, lo, x, y, m);
    case Finite(hi) =>
      if y <= hi {
        GrowthWithin(t, i, lo, x, y, m);
      } else if hi <= x {
        SumFromGrowth(t, i + 1, hi, x, y, m);
        GrowthAbove(t, i, lo, x, y, m);
      } else {
        // Across the limit: up to it inside the bracket, then beyond it.
        SumFromGrowth(t, i + 1, hi, hi, y, m);
        GrowthWithin(t, i, lo, x, hi, m);
        GrowthAbove(t, i, lo, hi, y, m);
        AddScaled(m, hi - x, y - hi, y - x);
        Chain(SumFrom(t, i, lo, x), SumFrom(t, i, lo, hi), SumFrom(t, i, lo, y),
              m * (hi - x), m * (y - hi), m * (y - x));
      }
  }

  /**
   * An amount less a capped share of it: if the share grows by no more than
   * the amount does, taking the cap `Min(share, cap)` off leaves something
   * that grows with the amount, and never faster.
   */
  lemma CappedGrowth(a1: real, a2: real, share1: real, share2: real, cap: real)
    requires a1 <= a2 && 0.0 <= share2 - share1 <= a2 - a1
    ensures 0.0 <= (a2 - Min(share2, cap)) - (a1 - Min(share1, cap)) <= a2 - a1
  {
  }

  /** `0 <= m * d` for non-negative `m` and `d`. */
  lemma ScaleNonNegative(m: real, d: real)
    requires 0.0 <= m && 0.0 <= d
    ensures 0.0 <= m * d
  {
  }

  /**
   * The tax is non-decreasing and grows by at most `m` per unit of amount:
   * it is continuous, and no extra unit is taxed above the top rate.
   */
  lemma TaxGrowth(t: seq<Bracket>, x: real, y: real, m: real)
    requires Ordered(t) && RatesWithin(t, m) && x <= y
    ensures 0.0 <= ProgressiveTax(t, y) - ProgressiveTax(t, x) <= m * (y - x)
  {
    assert 0.0 <= t[0].rate <= m;
    if y <= 0.0 {
      NothingBelowFloor(t, 0, 0.0, x);
      NothingBelowFloor(t, 0, 0.0, y);
      ScaleNonNegative(m, y - x);
    } else if 0.0 <= x {
      SumFromGrowth(t, 0, 0.0, x, y, m);
    } else {
      NothingBelowFloor(t, 0, 0.0, x);
      NothingBelowFloor(t, 0, 0.0, 0.0);
      SumFromGrowth(t, 0, 0.0, 0.0, y, m);
      ScaleMono(m, y - 0.0, y - x);
    }
  }

  /** Nothing is due on `x <= 0`, and otherwise the tax lies in `[0, m * x]`. */
  lemma TaxBounds(t: seq<Bracket>, x: real, m: real)
    requires Ordered(t) && RatesWithin(t, m)
    ensures x <= 0.0 ==> ProgressiveTax(t, x) == 0.0
    ensures 0.0 < x ==> 0.0 <= ProgressiveTax(t, x) <= m * x
  {
    NothingBelowFloor(t, 0, 0.0, 0.0);
    if x <= 0.0 {
      NothingBelowFloor(t, 0, 0.0, x);
    } else {
      SumFromGrowth(t, 0, 0.0, 0.0, x, m);
      assert x - 0.0 == x;
    }
  }

  /**
   * An amount inside the first bracket is taxed at the first bracket's rate
   * only: progressive, not blended or top-rate, taxation.
   */
  lemma FirstBracketOnly(t: seq<Bracket>, x: real)
    requires Ordered(t) && t[0].upto.Finite? && 0.0 <= x <= t[0].upto.value
    ensures ProgressiveTax(t, x) == x * t[0].rate
  {
    NothingBelowFloor(t, 1, t[0].upto.value, x);
  }

  /** `max(0, z - lo)`: the part of `z` above `lo`. */
  function Above(z: real, lo: real): real {
    if z > lo then z - lo else 0.0
  }

  /** A bounded bracket's part is the part above its floor less the part above its limit. */
  lemma SegmentAsAbove(x: real, lo: real, hi: real)
    requires lo < hi
    ensures Segment(x, lo, Finite(hi)) == Above(x, lo) - Above(x, hi)
  {
  }

  /** The part above a floor gains at least as much from a rise `d` higher up. */
  lemma AboveConvex(lo: real, x: real, y: real, d: real)
    requires x <= y && 0.0 <= d
    ensures Above(x + d, lo) - Above(x, lo) <= Above(y + d, lo) - Above(y, lo)
  {
  }

  /** `k * a1 - k * a0 <= k * b1 - k * b0` for `k >= 0` when `a1 - a0 <= b1 - b0`. */
  lemma ScaleIncrements(k: real, a0: real, a1: real, b0: real, b1: real)
    requires 0.0 <= k && a1 - a0 <= b1 - b0
    ensures k * a1 - k * a0 <= k * b1 - k * b0
  {
    ScaleMono(k, a1 - a0, b1 - b0);
  }

  /** Increments of a sum are no smaller higher up when those of both terms are not. */
  lemma AddIncrements(e0: real, e1: real, e2: real, e3: real, p0: real, p1: real, p2: real, p3: real,
                      q0: real, q1: real, q2: real, q3: real)
    requires e0 == p0 + q0
    requires e1 == p1 + q1
    requires e2 == p2 + q2
    requires e3 == p3 + q3
    requires p1 - p0 <= p3 - p2
    requires q1 - q0 <= q3 - q2
    ensures e1 - e0 <= e3 - e2
  {
  }

  /** The rise in marginal rate from bracket `i` to bracket `i + 1`. */
  function Rise(t: seq<Bracket>, i: nat): real
    requires i + 1 < |t|
  {
    t[i + 1].rate - t[i].rate
  }

  /** The kink at bounded limit `i`: the rise in rate there, charged on the part of `z` above it. */
  function Kink(t: seq<Bracket>, i: nat, z: real): real
    requires i + 1 < |t| && t[i].upto.Finite?
  {
    Rise(t, i) * Above(z, t[i].upto.value)
  }

  /**
   * The tax the brackets of `t` from `i` on charge beyond bracket `i`'s rate:
   * the kinks at each bounded limit from `i` on.
   */
  function Excess(t: seq<Bracket>, i: nat, z: real): real
    decreases |t| - i
  {
    if i + 1 < |t| && t[i].upto.Finite? then Kink(t, i, z) + Excess(t, i + 1, z)
    else 0.0
  }

  /** `k * b` with `k == r1 - r` distributes to `r1 * b - r * b`. */
  lemma Distribute(k: real, r1: real, r: real, b: real)
    requires k == r1 - r
    ensures k * b == r1 * b - r * b
  {
  }

  /**
   * One step of the split through a bounded bracket: if the tax from the
   * next bracket is its rate on all above the limit plus its excess, the tax
   * from this bracket is this rate on all above `lo` plus this excess.
   */
  lemma SplitStep(t: seq<Bracket>, i: nat, lo: real, z: real)
    requires OrderedFrom(t, i, lo) && t[i].upto.Finite? && i + 1 < |t|
    requires SumFrom(t, i + 1, t[i].upto.value, z) ==
      t[i + 1].rate * Above(z, t[i].upto.value) + Excess(t, i + 1, z)
    ensures SumFrom(t, i, lo, z) == t[i].rate * Above(z, lo) + Excess(t, i, z)
  {
    UnfoldFinite(t, i, lo, z);
    SegmentAsAbove(z, lo, t[i].upto.value);
    SameScaled(Segment(z, lo, t[i].upto), Above(z, lo) - Above(z, t[i].upto.value), t[i].rate);
    Distribute(Rise(t, i), t[i + 1].rate, t[i].rate, Above(z, t[i].upto.value));
    assert (Above(z, lo) - Above(z, t[i].upto.value)) * t[i].rate ==
      t[i].rate * Above(z, lo) - t[i].rate * Above(z, t[i].upto.value);
  }

  /** The tax from bracket `i` on is bracket `i`'s rate on all above `lo`, plus the excess. */
  lemma {:induction false} ExcessSplit(t: seq<Bracket>, i: nat, lo: real, z: real)
    requires OrderedFrom(t, i, lo)
    ensures SumFrom(t, i, lo, z) == t[i].rate * Above(z, lo) + Excess(t, i, z)
    decreases |t| - i
  {
    match t[i].upto
    case Infinity =>
      SameScaled(Segment(z, lo, t[i].upto), Above(z, lo), t[i].rate);
    case Finite(hi) =>
      ExcessSplit(t, i + 1, hi, z);
      SplitStep(t, i, lo, z);
  }

  /** A non-negative rate charged on all above `lo` gains at least as much from a rise higher up. */
  lemma FlatConvex(r: real, lo: real, x: real, y: real, d: real)
    requires 0.0 <= r && x <= y && 0.0 <= d
    ensures r * Above(x + d, lo) - r * Above(x, lo) <= r * Above(y + d, lo) - r * Above(y, lo)
  {
    AboveConvex(lo, x, y, d);
    ScaleIncrements(r, Above(x, lo), Above(x + d, lo), Above(y, lo), Above(y + d, lo));
  }

  /** Where the rate rises, the kink gains at least as much from a rise `d` higher up. */
  lemma KinkConvex(t: seq<Bracket>, i: nat, x: real, y: real, d: real)
    requires i + 1 < |t| && t[i].upto.Finite? && t[i].rate <= t[i + 1].rate && x <= y && 0.0 <= d
    ensures Kink(t, i, x + d) - Kink(t, i, x) <= Kink(t, i, y + d) - Kink(t, i, y)
  {
    FlatConvex(Rise(t, i), t[i].upto.value, x, y, d);
  }

  /**
   * With rates that never decrease, the excess is convex: a rise `d` adds at
   * least as much to a higher amount as to a lower one.
   */
  lemma {:induction false} ExcessConvex(t: seq<Bracket>, i: nat, x: real, y: real, d: real)
    requires RatesRise(t) && x <= y && 0.0 <= d
    ensures Excess(t, i, x + d) - Excess(t, i, x) <= Excess(t, i, y + d) - Excess(t, i, y)
    decreases |t| - i
  {
    if i + 1 < |t| && t[i].upto.Finite? {
      ExcessConvex(t, i + 1, x, y, d);
      assert t[i].rate <= t[i + 1].rate;
      KinkConvex(t, i, x, y, d);
      AddIncrements(Excess(t, i, x), Excess(t, i, x + d), Excess(t, i, y), Excess(t, i, y + d),
                    Kink(t, i, x), Kink(t, i, x + d), Kink(t, i, y), Kink(t, i, y + d),
                    Excess(t, i + 1, x), Excess(t, i + 1, x + d), Excess(t, i + 1, y), Excess(t, i + 1, y + d));
    }
  }

  /** `t` behind a bracket at rate 0 up to 0, so that the first real rate is itself a rise. */
  function FromZero(t: seq<Bracket>): (r: seq<Bracket>)
    ensures |r| == |t| + 1 && r[0] == Bracket(Finite(0.0), 0.0)
    ensures forall i :: 0 <= i < |t| ==> r[i + 1] == t[i]
  {
    [Bracket(Finite(0.0), 0.0)] + t
  }

  /** Behind the zero bracket, the excess from `i + 1` is that of `t` from `i`. */
  lemma {:induction false} ExcessShift(t: seq<Bracket>, i: nat, z: real)
    ensures Excess(FromZero(t), i + 1, z) == Excess(t, i, z)
    decreases |t| - i
  {
    if i + 1 < |t| && t[i].upto.Finite? {
      ExcessShift(t, i + 1, z);
      assert Rise(FromZero(t), i + 1) == Rise(t, i);
    }
  }

  /**
   * The tax is a sum of kinks: at 0 and at every bounded limit, the rise in
   * marginal rate charged on the part of the amount above that point.
   */
  lemma TaxAsExcess(t: seq<Bracket>, z: real)
    requires Ordered(t)
    ensures ProgressiveTax(t, z) == Excess(FromZero(t), 0, z)
  {
    ExcessSplit(t, 0, 0.0, z);
    ExcessShift(t, 0, z);
    SameScaled(Rise(FromZero(t), 0), t[0].rate, Above(z, 0.0));
  }

  /** A table with rates that never decrease, from a rate of at least 0, keeps them so behind the zero bracket. */
  lemma RatesRiseFromZero(t: seq<Bracket>)
    requires |t| > 0 && RatesRise(t) && 0.0 <= t[0].rate
    ensures RatesRise(FromZero(t))
  {
    var u := FromZero(t);
    forall i, j | 0 <= i < j < |u|
      ensures u[i].rate <= u[j].rate
    {
      if i == 0 {
        assert t[0].rate <= t[j - 1].rate;
      } else {
        assert t[i - 1].rate <= t[j - 1].rate;
      }
    }
  }

  /**
   * With rates that never decrease, the tax is convex (piecewise linear
   * with a slope that never decreases): a rise `d` of the amount costs at
   * least as much tax on a higher amount as on a lower one.
   */
  lemma TaxConvex(t: seq<Bracket>, x: real, y: real, d: real)
    requires Ordered(t) && RatesRise(t) && 0.0 <= t[0].rate && x <= y && 0.0 <= d
    ensures ProgressiveTax(t, x + d) - ProgressiveTax(t, x) <= ProgressiveTax(t, y + d) - ProgressiveTax(t, y)
  {
    RatesRiseFromZero(t);
    ExcessConvex(FromZero(t), 0, x, y, d);
    TaxAsExcess(t, x);
    TaxAsExcess(t, x + d);
    TaxAsExcess(t, y);
    TaxAsExcess(t, y + d);
  }
}
