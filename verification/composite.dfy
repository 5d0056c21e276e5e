/** The weighted combiner and the range mappers shared by every scorer: five
    (or six) sub-scores on a 0-100 scale are multiplied by fixed weights and
    summed, and the 0-100 total is mapped onto the 300-850 range. */
module Composite {
  import opened Basics

  /** The five FICO components, in the order the source lists them. */
  datatype Components = Components(
    paymentHistory: real,
    amountsOwed: real,
    lengthOfHistory: real,
    creditMix: real,
    newCredit: real)
  {
    function AsSeq(): (s: seq<real>)
      ensures |s| == 5
    {
      [paymentHistory, amountsOwed, lengthOfHistory, creditMix, newCredit]
    }
  }

  /** The dictionary `calculate_fico_score` returns. */
  datatype ScoreResult = ScoreResult(fico: int, components: Components, weighted: Components)

  /** Payment history 35%, amounts owed 30%, length of history 15%, credit
      mix 10%, new credit 10%. */
  const FicoWeights := Components(0.35, 0.30, 0.15, 0.10, 0.10)

  const MinScore: real := 300.0
  const MaxScore: real := 850.0

  // ---------------------------------------------------------------------
  // Weighted sums
  // ---------------------------------------------------------------------

  function Total(weights: seq<real>): real {
    if |weights| == 0 then 0.0 else weights[0] + Total(weights[1..])
  }

  /** `sum(score * weight)` over matching positions. */
  function Dot(scores: seq<real>, weights: seq<real>): real
    requires |scores| == |weights|
  {
    if |scores| == 0 then 0.0 else scores[0] * weights[0] + Dot(scores[1..], weights[1..])
  }

  predicate NonNegative(weights: seq<real>) {
    |weights| == 0 || (0.0 <= weights[0] && NonNegative(weights[1..]))
  }

  predicate AllWithin(scores: seq<real>, lo: real, hi: real) {
    |scores| == 0 || (lo <= scores[0] <= hi && AllWithin(scores[1..], lo, hi))
  }

  /** Every entry of `a` is at most the entry of `b` in the same position. */
  predicate Pointwise(a: seq<real>, b: seq<real>)
    requires |a| == |b|
  {
    |a| == 0 || (a[0] <= b[0] && Pointwise(a[1..], b[1..]))
  }

  /** Non-negative weights are valid when they add up to one. */
  predicate ValidWeights(weights: seq<real>) {
    NonNegative(weights) && Total(weights) == 1.0
  }

  /** Scaling a sum scales each part. */
  lemma ScaleSum(k: real, t: real, a: real, b: real)
    requires t == a + b
    ensures k * t == k * a + k * b
  {
  }

  /** A weighted sum of scores in [lo, hi] lies in [lo, hi] scaled by the
      total weight. */
  lemma {:induction false} DotWithin(scores: seq<real>, weights: seq<real>, lo: real, hi: real)
    requires |scores| == |weights|
    requires NonNegative(weights) && AllWithin(scores, lo, hi)
    ensures lo * Total(weights) <= Dot(scores, weights) <= hi * Total(weights)
  {
    if |scores| > 0 {
      DotWithin(scores[1..], weights[1..], lo, hi);
      StepWithin(lo, hi, scores[0], weights[0], Total(weights[1..]), Dot(scores[1..], weights[1..]),
                 Total(weights), Dot(scores, weights));
    }
  }

  /** One induction step of `DotWithin`, on plain numbers: adding a score in
      [lo, hi] with weight `w0` to a sum within bounds keeps it within. */
  lemma StepWithin(lo: real, hi: real, s0: real, w0: real, wr: real, dr: real, total: real, dot: real)
    requires lo <= s0 <= hi && 0.0 <= w0
    requires lo * wr <= dr <= hi * wr
    requires dot == s0 * w0 + dr && total == w0 + wr
    ensures lo * total <= dot <= hi * total
  {
    MulLe(lo, s0, w0);
    AddLe(lo * w0, s0 * w0, lo * wr, dr);
    MulLe(s0, hi, w0);
    AddLe(s0 * w0, hi * w0, dr, hi * wr);
    ScaleSum(lo, total, w0, wr);
    ScaleSum(hi, total, w0, wr);
  }

  /** Adding two inequalities side by side. */
  lemma AddLe(a: real, b: real, c: real, d: real)
    requires a <= b && c <= d
    ensures a + c <= b + d
  {
  }

  /** Raising any score never lowers a weighted sum with non-negative weights. */
  lemma {:induction false} DotMonotone(a: seq<real>, b: seq<real>, weights: seq<real>)
    requires |a| == |b| == |weights|
    requires NonNegative(weights) && Pointwise(a, b)
    ensures Dot(a, weights) <= Dot(b, weights)
  {
    if |a| > 0 {
      DotMonotone(a[1..], b[1..], weights[1..]);
      MulLe(a[0], b[0], weights[0]);
    }
  }

  // ---------------------------------------------------------------------
  // Range mapping
  // ---------------------------------------------------------------------

  /** `lo + (base / 100) * (hi - lo)`: maps a 0-100 total onto [lo, hi].
      Over the reals the product is written `base * (hi - lo) / 100`. */
  function Rescale(base: real, lo: real, hi: real): (r: real)
    ensures base == 0.0 ==> r == lo
    ensures base == 100.0 ==> r == hi
  {
    lo + base * (hi - lo) / 100.0
  }

  /** A 0-100 share of a non-negative span lies between none and all of it. */
  lemma ShareOfSpan(base: real, lo: real, hi: real)
    requires lo <= hi && 0.0 <= base <= 100.0
    ensures 0.0 <= base * (hi - lo) <= 100.0 * (hi - lo)
  {
    MulLe(base, 100.0, hi - lo);
    MulLe(0.0, base, hi - lo);
  }

  /** A larger share of the same non-negative span is no smaller. */
  lemma ShareLe(a: real, b: real, lo: real, hi: real)
    requires a <= b && lo <= hi
    ensures lo + a * (hi - lo) / 100.0 <= lo + b * (hi - lo) / 100.0
  {
    MulLe(a, b, hi - lo);
  }

  /** A total between 0 and 100 lands between the two ends. */
  lemma RescaleWithin(base: real, lo: real, hi: real)
    requires lo <= hi && 0.0 <= base <= 100.0
    ensures lo <= Rescale(base, lo, hi) <= hi
  {
    ShareOfSpan(base, lo, hi);
  }

  lemma RescaleMonotone(a: real, b: real, lo: real, hi: real)
    requires a <= b && lo <= hi
    ensures Rescale(a, lo, hi) <= Rescale(b, lo, hi)
  {
    ShareLe(a, b, lo, hi);
  }

  // ---------------------------------------------------------------------
  // Five-component FICO score
  // ---------------------------------------------------------------------

  /** The per-component `score * weight` products. */
  function Weighted(c: Components, w: Components): (r: Components)
    ensures Total(r.AsSeq()) == Base(c, w)
  {
    DotOfFive(c.AsSeq(), w.AsSeq());
    TotalOfFive(Components(c.paymentHistory * w.paymentHistory, c.amountsOwed * w.amountsOwed,
               c.lengthOfHistory * w.lengthOfHistory, c.creditMix * w.creditMix,
               c.newCredit * w.newCredit).AsSeq());
    Components(c.paymentHistory * w.paymentHistory, c.amountsOwed * w.amountsOwed,
               c.lengthOfHistory * w.lengthOfHistory, c.creditMix * w.creditMix,
               c.newCredit * w.newCredit)
  }

  lemma DotOfFive(s: seq<real>, w: seq<real>)
    requires |s| == |w| == 5
    ensures Dot(s, w) == s[0] * w[0] + s[1] * w[1] + s[2] * w[2] + s[3] * w[3] + s[4] * w[4]
  {
    assert Dot(s[4..], w[4..]) == s[4] * w[4] + Dot(s[5..], w[5..]);
    assert Dot(s[3..], w[3..]) == s[3] * w[3] + Dot(s[4..], w[4..]);
    assert Dot(s[2..], w[2..]) == s[2] * w[2] + Dot(s[3..], w[3..]);
    assert Dot(s[1..], w[1..]) == s[1] * w[1] + Dot(s[2..], w[2..]);
  }

  lemma TotalOfFive(s: seq<real>)
    requires |s| == 5
    ensures Total(s) == s[0] + s[1] + s[2] + s[3] + s[4]
  {
    assert Total(s[4..]) == s[4] + Total(s[5..]);
    assert Total(s[3..]) == s[3] + Total(s[4..]);
    assert Total(s[2..]) == s[2] + Total(s[3..]);
    assert Total(s[1..]) == s[1] + Total(s[2..]);
  }

  /** `base_score`: the sum of the weighted components. */
  function Base(c: Components, w: Components): real {
    Dot(c.AsSeq(), w.AsSeq())
  }

  /** Sub-scores on the 0-100 scale. */
  predicate InRange(c: Components) {
    AllWithin(c.AsSeq(), 0.0, 100.0)
  }

  /** Components are in range when each of the five is. */
  lemma InRangeIntro(c: Components)
    requires 0.0 <= c.paymentHistory <= 100.0 && 0.0 <= c.amountsOwed <= 100.0
    requires 0.0 <= c.lengthOfHistory <= 100.0 && 0.0 <= c.creditMix <= 100.0
    requires 0.0 <= c.newCredit <= 100.0
    ensures InRange(c)
  {
    var s := c.AsSeq();
    assert AllWithin(s[4..], 0.0, 100.0) by { assert s[4..][1..] == []; }
    assert AllWithin(s[3..], 0.0, 100.0) by { assert s[3..][1..] == s[4..]; }
    assert AllWithin(s[2..], 0.0, 100.0) by { assert s[2..][1..] == s[3..]; }
    assert AllWithin(s[1..], 0.0, 100.0) by { assert s[1..][1..] == s[2..]; }
  }

  /** Fieldwise order of two component records is pointwise order of their sequences. */
  lemma PointwiseIntro(a: Components, b: Components)
    requires a.paymentHistory <= b.paymentHistory && a.amountsOwed <= b.amountsOwed
    requires a.lengthOfHistory <= b.lengthOfHistory && a.creditMix <= b.creditMix
    requires a.newCredit <= b.newCredit
    ensures Pointwise(a.AsSeq(), b.AsSeq())
  {
    var s, t := a.AsSeq(), b.AsSeq();
    assert Pointwise(s[4..], t[4..]) by { assert s[4..][1..] == [] && t[4..][1..] == []; }
    assert Pointwise(s[3..], t[3..]) by { assert s[3..][1..] == s[4..] && t[3..][1..] == t[4..]; }
    assert Pointwise(s[2..], t[2..]) by { assert s[2..][1..] == s[3..] && t[2..][1..] == t[3..]; }
    assert Pointwise(s[1..], t[1..]) by { assert s[1..][1..] == s[2..] && t[1..][1..] == t[2..]; }
  }

  /** `int(300 + (base / 100) * (850 - 300))` together with the components,
      as `calculate_fico_score` returns them. */
  function Combine(c: Components, w: Components): (r: ScoreResult)
    ensures r.components == c && r.weighted == Weighted(c, w)
    ensures ValidWeights(w.AsSeq()) && InRange(c) ==> 300 <= r.fico <= 850
    ensures ValidWeights(w.AsSeq()) && c == Components(100.0, 100.0, 100.0, 100.0, 100.0) ==> r.fico == 850
    ensures ValidWeights(w.AsSeq()) && c == Components(0.0, 0.0, 0.0, 0.0, 0.0) ==> r.fico == 300
  {
    var base := Base(c, w);
    var fico := Trunc(Rescale(base, MinScore, MaxScore));
    assert ValidWeights(w.AsSeq()) && InRange(c) ==> 300 <= fico <= 850 by {
      if ValidWeights(w.AsSeq()) && InRange(c) {
        DotWithin(c.AsSeq(), w.AsSeq(), 0.0, 100.0);
        RescaleWithin(base, MinScore, MaxScore);
        TruncOfInt(300);
        TruncOfInt(850);
        TruncMonotone(300.0, Rescale(base, MinScore, MaxScore));
        TruncMonotone(Rescale(base, MinScore, MaxScore), 850.0);
      }
    }
    assert ValidWeights(w.AsSeq()) && c == Components(100.0, 100.0, 100.0, 100.0, 100.0) ==> fico == 850 by {
      if ValidWeights(w.AsSeq()) && c == Components(100.0, 100.0, 100.0, 100.0, 100.0) {
        DotWithin(c.AsSeq(), w.AsSeq(), 100.0, 100.0);
        TruncOfInt(850);
      }
    }
    assert ValidWeights(w.AsSeq()) && c == Components(0.0, 0.0, 0.0, 0.0, 0.0) ==> fico == 300 by {
      if ValidWeights(w.AsSeq()) && c == Components(0.0, 0.0, 0.0, 0.0, 0.0) {
        DotWithin(c.AsSeq(), w.AsSeq(), 0.0, 0.0);
        TruncOfInt(300);
      }
    }
    ScoreResult(fico, c, Weighted(c, w))
  }

  /** The FICO score of a combination, read off its base score. */
  lemma CombineAt(c: Components, w: Components, base: real, fico: int)
    requires Base(c, w) == base
    requires Trunc(Rescale(base, MinScore, MaxScore)) == fico
    ensures Combine(c, w).fico == fico
  {
  }

  /** Components 50, 100, 30, 30, 100 have a base score of 65 under the
      published weights. */
  lemma BaseOfEmpty()
    ensures Base(Components(50.0, 100.0, 30.0, 30.0, 100.0), FicoWeights) == 65.0
  {
    DotOfFive(Components(50.0, 100.0, 30.0, 30.0, 100.0).AsSeq(), FicoWeights.AsSeq());
  }

  /** ... and a FICO score of 657: 300 + 0.65 * 550 = 657.5, truncated. */
  lemma ScoreOfEmpty()
    ensures Combine(Components(50.0, 100.0, 30.0, 30.0, 100.0), FicoWeights).fico == 657
  {
    BaseOfEmpty();
    assert Rescale(65.0, MinScore, MaxScore) == 657.5;
    assert Trunc(657.5) == 657;
    CombineAt(Components(50.0, 100.0, 30.0, 30.0, 100.0), FicoWeights, 65.0, 657);
  }

  /** Every component at 100 has a base score of 100 under the published
      weights, and a FICO score of 850. */
  lemma ScoreOfPerfect()
    ensures Combine(Components(100.0, 100.0, 100.0, 100.0, 100.0), FicoWeights).fico == 850
  {
    var c := Components(100.0, 100.0, 100.0, 100.0, 100.0);
    DotOfFive(c.AsSeq(), FicoWeights.AsSeq());
    assert Rescale(100.0, MinScore, MaxScore) == 850.0;
    TruncOfInt(850);
    CombineAt(c, FicoWeights, 100.0, 850);
  }

  /** The published FICO weights are non-negative and add up to one. */
  lemma FicoWeightsValid()
    ensures ValidWeights(FicoWeights.AsSeq())
  {
  }

  /** Improving any component never lowers the FICO score. */
  lemma CombineMonotone(a: Components, b: Components, w: Components)
    requires NonNegative(w.AsSeq()) && Pointwise(a.AsSeq(), b.AsSeq())
    ensures Combine(a, w).fico <= Combine(b, w).fico
  {
    DotMonotone(a.AsSeq(), b.AsSeq(), w.AsSeq());
    RescaleMonotone(Base(a, w), Base(b, w), MinScore, MaxScore);
    TruncMonotone(Rescale(Base(a, w), MinScore, MaxScore), Rescale(Base(b, w), MinScore, MaxScore));
  }

  // ---------------------------------------------------------------------
  // Binning (pandas.cut)
  // ---------------------------------------------------------------------

  /** `pd.cut(x, bins=edges, labels=[0, 1, ...])` with right-closed bins:
      label `i` for `edges[i] < x <= edges[i + 1]`, missing outside. */
  function Cut(x: real, edges: seq<real>): (r: Option<nat>)
    ensures r.Some? ==> r.value + 1 < |edges| && edges[r.value] < x <= edges[r.value + 1]
    ensures r.None? ==> forall i :: 0 <= i < |edges| - 1 ==> !(edges[i] < x <= edges[i + 1])
  {
    if |edges| < 2 then None
    else if edges[0] < x <= edges[1] then Some(0)
    else
      match Cut(x, edges[1..])
      case Some(i) => Some(i + 1)
      case None => None
  }

  /** The two-category split used by the binary models:
      `pd.cut(fico, bins=[0, cutoff, 850], labels=[0, 1])`. */
  function Category(fico: real, cutoff: real): (r: Option<nat>)
    requires 0.0 < cutoff < MaxScore
    ensures r == Some(0) <==> 0.0 < fico <= cutoff
    ensures r == Some(1) <==> cutoff < fico <= MaxScore
    ensures r == None <==> fico <= 0.0 || MaxScore < fico
  {
    var edges := [0.0, cutoff, MaxScore];
    assert edges[1..] == [cutoff, MaxScore];
    assert [cutoff, MaxScore][1..] == [MaxScore];
    assert Cut(fico, [MaxScore]) == None;
    assert Cut(fico, [cutoff, MaxScore]) == if cutoff < fico <= MaxScore then Some(0) else None;
    Cut(fico, edges)
  }
}
