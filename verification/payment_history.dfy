/** The payment-history component shared by the scorers: late payments are
    counted per delay bucket, every bucket deducts a fixed number of points
    per payment from a perfect 100, the result is floored at 0, scaled down
    for a credit file younger than a year, and capped at 100. */
module PaymentHistory {
  import opened Basics
  import opened StepTable

  /** A delay range and the points each payment in it deducts. */
  datatype Bucket = Bucket(range: Cond, points: real)

  /** The delay argument: a single number, or a list / array / column. */
  datatype Delays = One(delay: real) | Many(delays: seq<real>)

  // ---------------------------------------------------------------------
  // Counting
  // ---------------------------------------------------------------------

  /** `np.sum(mask)`: how many delays satisfy the condition. */
  function Count(ds: seq<real>, c: Cond): (n: nat)
    ensures n <= |ds|
    ensures n == 0 <==> forall i :: 0 <= i < |ds| ==> !Holds(c, ds[i])
    ensures n == |ds| <==> forall i :: 0 <= i < |ds| ==> Holds(c, ds[i])
  {
    if |ds| == 0 then 0
    else
      var rest := Count(ds[1..], c);
      assert forall i :: 1 <= i < |ds| ==> ds[1..][i - 1] == ds[i];
      (if Holds(c, ds[0]) then 1 else 0) + rest
  }

  /** The per-bucket counts of a sequence of delays. */
  function Counts(buckets: seq<Bucket>, ds: seq<real>): (r: seq<real>)
    ensures |r| == |buckets|
    ensures forall i :: 0 <= i < |buckets| ==> r[i] == Count(ds, buckets[i].range) as real
  {
    if |buckets| == 0 then []
    else [Count(ds, buckets[0].range) as real] + Counts(buckets[1..], ds)
  }

  /** The per-bucket 0/1 flags of a single delay. */
  function ScalarCounts(buckets: seq<Bucket>, d: real): (r: seq<real>)
    ensures |r| == |buckets|
    ensures forall i :: 0 <= i < |buckets| ==> r[i] == (if Holds(buckets[i].range, d) then 1.0 else 0.0)
  {
    if |buckets| == 0 then []
    else [if Holds(buckets[0].range, d) then 1.0 else 0.0] + ScalarCounts(buckets[1..], d)
  }

  /** The counts the scorer takes from its delay argument. */
  function Tally(buckets: seq<Bucket>, delays: Delays): (r: seq<real>)
    ensures |r| == |buckets|
  {
    match delays
    case One(d) => ScalarCounts(buckets, d)
    case Many(ds) => Counts(buckets, ds)
  }

  /** `sum(count * points)` over the buckets. */
  function Deduction(buckets: seq<Bucket>, counts: seq<real>): real
    requires |counts| == |buckets|
  {
    if |buckets| == 0 then 0.0
    else counts[0] * buckets[0].points + Deduction(buckets[1..], counts[1..])
  }

  predicate NonNegativePoints(buckets: seq<Bucket>) {
    |buckets| == 0 || (0.0 <= buckets[0].points && NonNegativePoints(buckets[1..]))
  }

  // ---------------------------------------------------------------------
  // Score
  // ---------------------------------------------------------------------

  /** The short-history factor `0.5 + months / 24`: it reaches 1 at twelve
      months and 0 at minus twelve. */
  function Factor(months: real): (f: real)
    ensures months < 12.0 ==> f < 1.0
    ensures -12.0 <= months ==> 0.0 <= f
  {
    0.5 + months / 24.0
  }

  /** `raw *= 0.5 + months / 24` when the file is younger than 12 months. */
  function ShortHistory(raw: real, months: real): real {
    if months < 12.0 then raw * Factor(months) else raw
  }

  /** Scaling leaves a file of a year or more alone and never raises a
      non-negative score; from minus twelve months on it never makes one
      negative either. */
  lemma ShortHistoryBounds(raw: real, months: real)
    ensures 12.0 <= months ==> ShortHistory(raw, months) == raw
    ensures 0.0 <= raw ==> ShortHistory(raw, months) <= raw
    ensures 0.0 <= raw && -12.0 <= months ==> 0.0 <= ShortHistory(raw, months)
  {
    if months < 12.0 && 0.0 <= raw {
      MulLe(Factor(months), 1.0, raw);
      if -12.0 <= months {
        MulLe(0.0, Factor(months), raw);
      }
    }
  }

  /** `min(scale(max(0, 100 - deduction), months), 100)`. */
  function Score(deduction: real, months: real): (r: real)
    ensures r <= 100.0
    ensures -12.0 <= months ==> 0.0 <= r
    ensures 12.0 <= months && 0.0 <= deduction <= 100.0 ==> r == 100.0 - deduction
    ensures 12.0 <= months && 100.0 <= deduction ==> r == 0.0
    ensures 12.0 <= months && deduction <= 0.0 ==> r == 100.0
    ensures months < 12.0 && 0.0 <= deduction <= 100.0 ==> r == (100.0 - deduction) * (0.5 + months / 24.0)
    ensures months < 12.0 && 100.0 <= deduction ==> r == 0.0
  {
    var raw := Max(0.0, 100.0 - deduction);
    ShortHistoryBounds(raw, months);
    Min(ShortHistory(raw, months), 100.0)
  }

  /** The whole component for one delay argument. */
  function BucketScore(buckets: seq<Bucket>, delays: Delays, months: real): (r: real)
    ensures r <= 100.0
    ensures -12.0 <= months ==> 0.0 <= r
  {
    Score(Deduction(buckets, Tally(buckets, delays)), months)
  }

  // ---------------------------------------------------------------------
  // Properties
  // ---------------------------------------------------------------------

  /** A single delay is counted exactly as the one-element list holding it. */
  lemma ScalarIsSingleton(buckets: seq<Bucket>, d: real)
    ensures Tally(buckets, One(d)) == Tally(buckets, Many([d]))
  {
    var a := Tally(buckets, One(d));
    var b := Tally(buckets, Many([d]));
    forall i | 0 <= i < |buckets|
      ensures a[i] == b[i]
    {
      assert [d][1..] == [];
    }
  }

  lemma {:induction false} CountAppend(ds: seq<real>, es: seq<real>, c: Cond)
    ensures Count(ds + es, c) == Count(ds, c) + Count(es, c)
  {
    if |ds| > 0 {
      assert (ds + es)[1..] == ds[1..] + es;
      CountAppend(ds[1..], es, c);
    } else {
      assert ds + es == es;
    }
  }

  /** Removing the delay at position `k` removes its contribution. */
  lemma CountRemove(es: seq<real>, k: nat, c: Cond)
    requires k < |es|
    ensures Count(es, c) == (if Holds(c, es[k]) then 1 else 0) + Count(es[..k] + es[k + 1..], c)
  {
    assert es == es[..k] + [es[k]] + es[k + 1..];
    CountAppend(es[..k] + [es[k]], es[k + 1..], c);
    CountAppend(es[..k], [es[k]], c);
    CountAppend(es[..k], es[k + 1..], c);
    assert [es[k]][1..] == [];
  }

  lemma MultisetRemove(es: seq<real>, k: nat)
    requires k < |es|
    ensures multiset(es[..k] + es[k + 1..]) == multiset(es) - multiset{es[k]}
  {
    assert es == es[..k] + [es[k]] + es[k + 1..];
  }

  /** Counting ignores the order of the delays. */
  lemma {:induction false} CountPermutation(ds: seq<real>, es: seq<real>, c: Cond)
    requires multiset(ds) == multiset(es)
    ensures Count(ds, c) == Count(es, c)
    decreases |ds|
  {
    if |ds| == 0 {
      assert |es| == |multiset(es)| == 0;
    } else {
      var x := ds[0];
      assert x in multiset(es);
      var k :| 0 <= k < |es| && es[k] == x;
      MultisetRemove(es, k);
      assert multiset(ds[1..]) == multiset(ds) - multiset{x} by {
        assert ds == [x] + ds[1..];
      }
      CountPermutation(ds[1..], es[..k] + es[k + 1..], c);
      CountRemove(es, k, c);
    }
  }

  /** Reordering the delays leaves every bucket count, hence the score, unchanged. */
  lemma CountsPermutation(buckets: seq<Bucket>, ds: seq<real>, es: seq<real>, months: real)
    requires multiset(ds) == multiset(es)
    ensures Counts(buckets, ds) == Counts(buckets, es)
    ensures BucketScore(buckets, Many(ds), months) == BucketScore(buckets, Many(es), months)
  {
    forall i | 0 <= i < |buckets|
      ensures Count(ds, buckets[i].range) == Count(es, buckets[i].range)
    {
      CountPermutation(ds, es, buckets[i].range);
    }
  }

  /** A delay outside every bucket adds nothing to any count. */
  lemma MissAddsNothing(buckets: seq<Bucket>, ds: seq<real>, d: real)
    requires forall i :: 0 <= i < |buckets| ==> !Holds(buckets[i].range, d)
    ensures Counts(buckets, ds + [d]) == Counts(buckets, ds)
  {
    forall i | 0 <= i < |buckets|
      ensures Count(ds + [d], buckets[i].range) == Count(ds, buckets[i].range)
    {
      CountAppend(ds, [d], buckets[i].range);
      assert [d][1..] == [];
    }
  }

  /** Non-negative counts with non-negative points deduct a non-negative amount. */
  lemma {:induction false} DeductionNonNegative(buckets: seq<Bucket>, counts: seq<real>)
    requires |counts| == |buckets| && NonNegativePoints(buckets)
    requires forall i :: 0 <= i < |counts| ==> 0.0 <= counts[i]
    ensures 0.0 <= Deduction(buckets, counts)
  {
    if |buckets| > 0 {
      DeductionNonNegative(buckets[1..], counts[1..]);
      MulLe(0.0, counts[0], buckets[0].points);
    }
  }

  /** Larger counts never deduct less when every bucket's points are non-negative. */
  lemma {:induction false} DeductionMonotone(buckets: seq<Bucket>, lo: seq<real>, hi: seq<real>)
    requires |lo| == |hi| == |buckets| && NonNegativePoints(buckets)
    requires forall i :: 0 <= i < |lo| ==> lo[i] <= hi[i]
    ensures Deduction(buckets, lo) <= Deduction(buckets, hi)
  {
    if |buckets| > 0 {
      DeductionMonotone(buckets[1..], lo[1..], hi[1..]);
      MulLe(lo[0], hi[0], buckets[0].points);
    }
  }

  /** One more delay never lowers any bucket count. */
  lemma CountsGrow(buckets: seq<Bucket>, ds: seq<real>, d: real)
    ensures forall i :: 0 <= i < |buckets| ==> Counts(buckets, ds)[i] <= Counts(buckets, ds + [d])[i]
  {
    forall i | 0 <= i < |buckets|
      ensures Count(ds, buckets[i].range) <= Count(ds + [d], buckets[i].range)
    {
      CountAppend(ds, [d], buckets[i].range);
    }
  }

  /** Recording one more payment, late or not, never raises the score. */
  lemma ExtraDelayNeverHelps(buckets: seq<Bucket>, ds: seq<real>, d: real, months: real)
    requires NonNegativePoints(buckets) && -12.0 <= months
    ensures BucketScore(buckets, Many(ds + [d]), months) <= BucketScore(buckets, Many(ds), months)
  {
    CountsGrow(buckets, ds, d);
    DeductionMonotone(buckets, Counts(buckets, ds), Counts(buckets, ds + [d]));
    ScoreNonIncreasing(Deduction(buckets, Counts(buckets, ds)), Deduction(buckets, Counts(buckets, ds + [d])), months);
  }

  /** A larger deduction never raises the score, for any file at least
      twelve months short of a year (below that the scale factor turns
      negative). */
  lemma ScoreNonIncreasing(d1: real, d2: real, months: real)
    requires d1 <= d2 && -12.0 <= months
    ensures Score(d2, months) <= Score(d1, months)
  {
    ScaleKeepsOrder(Max(0.0, 100.0 - d2), Max(0.0, 100.0 - d1), months);
  }

  lemma ScaleKeepsOrder(a: real, b: real, months: real)
    requires a <= b && -12.0 <= months
    ensures ShortHistory(a, months) <= ShortHistory(b, months)
  {
    if months < 12.0 {
      MulLe(a, b, Factor(months));
    }
  }

  /** A longer credit file never lowers the score. */
  lemma ScoreNonDecreasingInMonths(deduction: real, m1: real, m2: real)
    requires m1 <= m2
    ensures Score(deduction, m1) <= Score(deduction, m2)
  {
    ScaleGrowsWithMonths(Max(0.0, 100.0 - deduction), m1, m2);
  }

  lemma ScaleGrowsWithMonths(raw: real, m1: real, m2: real)
    requires 0.0 <= raw && m1 <= m2
    ensures ShortHistory(raw, m1) <= ShortHistory(raw, m2)
  {
    if m2 < 12.0 {
      MulLe(Factor(m1), Factor(m2), raw);
    } else {
      ShortHistoryBounds(raw, m1);
    }
  }
}
