/** The aggregated-data scorer (`FICOScoreModel` in ASAS.py): a finer
    15/30/45/60-day payment scorer that also returns a trace of its
    intermediate values, a stricter utilization table, a shorter history
    table, a three-valued mix and a five-branch inquiries table. */
module Asas {
  import opened Basics
  import opened StepTable
  import opened PaymentHistory
  import opened Composite

  // ---------------------------------------------------------------------
  // Payment history
  // ---------------------------------------------------------------------

  /** The buckets used for a list of delays: (0,15], (15,30], (30,45] and
      everything above 45 days, deducting 10, 30, 50 and 70 points. */
  const ListBuckets: seq<Bucket> := [
    Bucket(Within(0.0, 15.0), 10.0),
    Bucket(Within(15.0, 30.0), 30.0),
    Bucket(Within(30.0, 45.0), 50.0),
    Bucket(Above(45.0), 70.0)
  ]

  /** The buckets used for a single delay: the fourth one is (50,60]. */
  const ScalarBuckets: seq<Bucket> := [
    Bucket(Within(0.0, 15.0), 10.0),
    Bucket(Within(15.0, 30.0), 30.0),
    Bucket(Within(30.0, 45.0), 50.0),
    Bucket(Within(50.0, 60.0), 70.0)
  ]

  /** The four late-payment counts of a delay argument. */
  function LateCounts(delays: Delays): (c: seq<real>)
    ensures |c| == 4
    ensures forall i :: 0 <= i < 4 ==> 0.0 <= c[i]
  {
    match delays
    case One(d) => ScalarCounts(ScalarBuckets, d)
    case Many(ds) => Counts(ListBuckets, ds)
  }

  /** One entry of the trace list: the delay argument as given, or a number. */
  datatype TraceItem = Input(delays: Delays) | Value(value: real)

  /** The `(final_score, values_array)` pair. */
  datatype Traced = Traced(score: real, trace: seq<TraceItem>)

  /** `calculate_payment_history_score`: the trace holds the two inputs, the
      four counts, the base 100, the deduction, the floored score, the
      scaled score when the file is younger than a year, and the result. */
  function PaymentHistoryScore(delays: Delays, months: real): (r: Traced)
    ensures r.score == Score(Deduction(ListBuckets, LateCounts(delays)), months)
    ensures r.score <= 100.0
    ensures -12.0 <= months ==> 0.0 <= r.score
    ensures |r.trace| == if months < 12.0 then 11 else 10
    ensures r.trace[0] == Input(delays) && r.trace[1] == Value(months)
    ensures forall i :: 0 <= i < 4 ==> r.trace[i + 2] == Value(LateCounts(delays)[i])
    ensures r.trace[6] == Value(100.0)
    ensures r.trace[7] == Value(Deduction(ListBuckets, LateCounts(delays)))
    ensures r.trace[8] == Value(Max(0.0, 100.0 - Deduction(ListBuckets, LateCounts(delays))))
    ensures 0.0 <= r.trace[8].value
    ensures 12.0 <= months ==> r.trace[8] == Value(r.score)
    ensures months < 12.0 ==>
      r.trace[9] == Value(ShortHistory(Max(0.0, 100.0 - Deduction(ListBuckets, LateCounts(delays))), months))
    ensures r.trace[|r.trace| - 1] == Value(r.score)
  {
    var c := LateCounts(delays);
    var deduction := Deduction(ListBuckets, c);
    DeductionNonNegative(ListBuckets, c);
    var raw := Max(0.0, 100.0 - deduction);
    var scaled := ShortHistory(raw, months);
    var final := Min(scaled, 100.0);
    if months < 12.0 then
      Traced(final, [Input(delays), Value(months), Value(c[0]), Value(c[1]), Value(c[2]), Value(c[3]),
                     Value(100.0), Value(deduction), Value(raw), Value(scaled), Value(final)])
    else
      Traced(final, [Input(delays), Value(months), Value(c[0]), Value(c[1]), Value(c[2]), Value(c[3]),
                     Value(100.0), Value(deduction), Value(raw), Value(final)])
  }

  /** Below a year the tenth trace entry is the floored score times
      `0.5 + months / 24`. */
  lemma ShortFileTrace(delays: Delays, months: real)
    requires months < 12.0
    ensures var raw := Max(0.0, 100.0 - Deduction(ListBuckets, LateCounts(delays)));
      PaymentHistoryScore(delays, months).trace[9] == Value(raw * (0.5 + months / 24.0))
  {
    var raw := Max(0.0, 100.0 - Deduction(ListBuckets, LateCounts(delays)));
    var entry := PaymentHistoryScore(delays, months).trace[9];
    assert entry == Value(ShortHistory(raw, months));
    ScaledValue(raw, months);
  }

  lemma ScaledValue(raw: real, months: real)
    requires months < 12.0
    ensures ShortHistory(raw, months) == raw * (0.5 + months / 24.0)
  {
  }

  /** The bucket deduction is the source's `10·c15 + 30·c30 + 50·c45 + 70·c60`. */
  lemma ListDeduction(c: seq<real>)
    requires |c| == 4
    ensures Deduction(ListBuckets, c) == 10.0 * c[0] + 30.0 * c[1] + 50.0 * c[2] + 70.0 * c[3]
  {
    var b := ListBuckets;
    assert Deduction(b[4..], c[4..]) == 0.0;
    assert Deduction(b[3..], c[3..]) == 70.0 * c[3] by {
      assert b[3..][1..] == b[4..] && c[3..][1..] == c[4..];
    }
    assert Deduction(b[2..], c[2..]) == 50.0 * c[2] + 70.0 * c[3] by {
      assert b[2..][1..] == b[3..] && c[2..][1..] == c[3..];
    }
    assert Deduction(b[1..], c[1..]) == 30.0 * c[1] + 50.0 * c[2] + 70.0 * c[3] by {
      assert b[1..][1..] == b[2..] && c[1..][1..] == c[2..];
    }
  }

  /** A single delay in (45,50] or above 60 falls in no scalar bucket. */
  predicate ScalarGap(d: real) {
    (45.0 < d <= 50.0) || 60.0 < d
  }

  /** A single delay scores as the one-element list exactly when it lies
      outside the scalar gap, for every file age except minus twelve months,
      where the scale factor is 0 and every delay scores 0. */
  lemma ScalarVersusList(d: real, months: real)
    requires months != -12.0
    ensures PaymentHistoryScore(One(d), months).score == PaymentHistoryScore(Many([d]), months).score
        <==> !ScalarGap(d)
  {
    var one, many := LateCounts(One(d)), LateCounts(Many([d]));
    ListDeduction(one);
    ListDeduction(many);
    assert [d][1..] == [];
    if ScalarGap(d) {
      assert one == [0.0, 0.0, 0.0, 0.0];
      assert many == [0.0, 0.0, 0.0, 1.0];
      GapScores(months);
    } else {
      assert one == many;
    }
  }

  /** No deduction and a 70-point deduction score the same only at minus
      twelve months, where the scale factor vanishes. */
  lemma GapScores(months: real)
    requires months != -12.0
    ensures Score(0.0, months) != Score(70.0, months)
  {
    if months < 12.0 {
      var f := Factor(months);
      assert f != 0.0 && f < 1.0;
      assert ShortHistory(100.0, months) == 100.0 * f;
      assert ShortHistory(30.0, months) == 30.0 * f;
    }
  }

  /** A scalar 47-day delay deducts nothing, the list `[47]` deducts 70. */
  lemma ScalarGapExample()
    ensures PaymentHistoryScore(One(47.0), 24.0).score == 100.0
    ensures PaymentHistoryScore(Many([47.0]), 24.0).score == 30.0
  {
    ListDeduction(LateCounts(One(47.0)));
    ListDeduction(LateCounts(Many([47.0])));
    assert [47.0][1..] == [];
  }

  /** For a list, only the multiset of delays matters. */
  lemma DelayOrderIrrelevant(ds: seq<real>, es: seq<real>, months: real)
    requires multiset(ds) == multiset(es)
    ensures PaymentHistoryScore(Many(ds), months).score == PaymentHistoryScore(Many(es), months).score
  {
    CountsPermutation(ListBuckets, ds, es, months);
  }

  /** One more delay in the list never raises the score. */
  lemma ExtraDelay(ds: seq<real>, d: real, months: real)
    requires -12.0 <= months
    ensures PaymentHistoryScore(Many(ds + [d]), months).score <= PaymentHistoryScore(Many(ds), months).score
  {
    ExtraDelayNeverHelps(ListBuckets, ds, d, months);
  }

  // ---------------------------------------------------------------------
  // Amounts owed
  // ---------------------------------------------------------------------

  /** 100 at or below 30%, then 10 points less per 10%, 40 at or below 90%, 20 above. */
  const Utilization := Table([
    Rule(AtMost(0.30), 100.0), Rule(AtMost(0.40), 90.0), Rule(AtMost(0.50), 80.0),
    Rule(AtMost(0.60), 70.0), Rule(AtMost(0.70), 60.0), Rule(AtMost(0.80), 50.0),
    Rule(AtMost(0.90), 40.0)
  ], 20.0)

  function UtilizationScore(ratio: real): (r: real)
    ensures r in {20.0, 40.0, 50.0, 60.0, 70.0, 80.0, 90.0, 100.0}
    ensures ratio <= 0.30 <==> r == 100.0
    ensures 0.90 < ratio <==> r == 20.0
  {
    UtilizationSteps(ratio);
    Min(Lookup(Utilization, ratio), 100.0)
  }

  /** The table read back as the source's `if / elif` chain. */
  lemma UtilizationSteps(x: real)
    ensures Lookup(Utilization, x) ==
      if x <= 0.30 then 100.0 else if x <= 0.40 then 90.0 else if x <= 0.50 then 80.0
      else if x <= 0.60 then 70.0 else if x <= 0.70 then 60.0 else if x <= 0.80 then 50.0
      else if x <= 0.90 then 40.0 else 20.0
  {
    var t0 := Utilization;
    LookupStep(t0, x);
    var t1 := t0.Rest();
    LookupStep(t1, x);
    var t2 := t1.Rest();
    LookupStep(t2, x);
    var t3 := t2.Rest();
    LookupStep(t3, x);
    var t4 := t3.Rest();
    LookupStep(t4, x);
    var t5 := t4.Rest();
    LookupStep(t5, x);
    var t6 := t5.Rest();
    LookupStep(t6, x);
    assert t6.Rest().rules == [];
  }

  lemma UtilizationNonIncreasing(x: real, y: real)
    requires x <= y
    ensures UtilizationScore(y) <= UtilizationScore(x)
  {
    UtilizationSteps(x);
    UtilizationSteps(y);
  }

  // ---------------------------------------------------------------------
  // Length of history
  // ---------------------------------------------------------------------

  /** `>=` steps at 120, 100, 80, 60, 24 and 12 months. */
  const History := Table([
    Rule(AtLeast(120.0), 100.0), Rule(AtLeast(100.0), 95.0), Rule(AtLeast(80.0), 90.0),
    Rule(AtLeast(60.0), 80.0), Rule(AtLeast(24.0), 65.0), Rule(AtLeast(12.0), 50.0)
  ], 30.0)

  function HistoryScore(months: real): (r: real)
    ensures 30.0 <= r <= 100.0
    ensures r in {30.0, 50.0, 65.0, 80.0, 90.0, 95.0, 100.0}
    ensures 120.0 <= months <==> r == 100.0
    ensures months < 12.0 <==> r == 30.0
  {
    HistorySteps(months);
    Min(Lookup(History, months), 100.0)
  }

  /** The table read back as the source's `if / elif` chain. */
  lemma HistorySteps(x: real)
    ensures Lookup(History, x) ==
      if x >= 120.0 then 100.0 else if x >= 100.0 then 95.0 else if x >= 80.0 then 90.0
      else if x >= 60.0 then 80.0 else if x >= 24.0 then 65.0 else if x >= 12.0 then 50.0
      else 30.0
  {
    var t0 := History;
    LookupStep(t0, x);
    var t1 := t0.Rest();
    LookupStep(t1, x);
    var t2 := t1.Rest();
    LookupStep(t2, x);
    var t3 := t2.Rest();
    LookupStep(t3, x);
    var t4 := t3.Rest();
    LookupStep(t4, x);
    var t5 := t4.Rest();
    LookupStep(t5, x);
    assert t5.Rest().rules == [];
  }

  lemma HistoryNonDecreasing(x: real, y: real)
    requires x <= y
    ensures HistoryScore(x) <= HistoryScore(y)
  {
    HistorySteps(x);
    HistorySteps(y);
  }

  // ---------------------------------------------------------------------
  // Credit mix
  // ---------------------------------------------------------------------

  /** 0 scores 20, 1 scores 60, every other value 100. */
  const Mix := Table([Rule(Exactly(0.0), 20.0), Rule(Exactly(1.0), 60.0)], 100.0)

  function CreditMixScore(mix: real): (r: real)
    ensures r in {20.0, 60.0, 100.0}
    ensures r == 20.0 <==> mix == 0.0
    ensures r == 60.0 <==> mix == 1.0
  {
    var t := Mix;
    LookupStep(t, mix);
    LookupStep(t.Rest(), mix);
    assert t.Rest().Rest().rules == [];
    Min(Max(Lookup(Mix, mix), 0.0), 100.0)
  }

  // ---------------------------------------------------------------------
  // Inquiries
  // ---------------------------------------------------------------------

  /** 0 scores 100, up to 2 scores 90, up to 5 scores 75, 6 or more 50, and
      anything left (strictly between 5 and 6) 40. */
  const Inquiries := Table([
    Rule(Exactly(0.0), 100.0), Rule(AtMost(2.0), 90.0), Rule(AtMost(5.0), 75.0),
    Rule(AtLeast(6.0), 50.0)
  ], 40.0)

  function InquiriesScore(inquiries: real): (r: real)
    ensures r in {40.0, 50.0, 75.0, 90.0, 100.0}
    ensures r == 100.0 <==> inquiries == 0.0
    ensures r == 40.0 <==> 5.0 < inquiries < 6.0
  {
    InquiriesSteps(inquiries);
    Min(Lookup(Inquiries, inquiries), 100.0)
  }

  /** The table read back as the source's `if / elif` chain. */
  lemma InquiriesSteps(x: real)
    ensures Lookup(Inquiries, x) ==
      if x == 0.0 then 100.0 else if x <= 2.0 then 90.0 else if x <= 5.0 then 75.0
      else if x >= 6.0 then 50.0 else 40.0
  {
    var t := Inquiries;
    LookupStep(t, x);
    LookupStep(t.Rest(), x);
    LookupStep(t.Rest().Rest(), x);
    LookupStep(t.Rest().Rest().Rest(), x);
    assert t.Rest().Rest().Rest().Rest().rules == [];
  }

  /** On whole numbers of inquiries the 40 branch is never reached, and the
      score never increases. */
  lemma WholeInquiries(a: nat, b: nat)
    requires a <= b
    ensures InquiriesScore(a as real) != 40.0
    ensures InquiriesScore(b as real) <= InquiriesScore(a as real)
  {
    InquiriesSteps(a as real);
    InquiriesSteps(b as real);
  }

  /** Between 5 and 6 the score drops to 40, below the 50 of six inquiries:
      on fractional counts the table is not monotone. */
  lemma FractionalInquiries()
    ensures InquiriesScore(5.5) == 40.0 && InquiriesScore(6.0) == 50.0
  {
    InquiriesSteps(5.5);
    InquiriesSteps(6.0);
  }

  // ---------------------------------------------------------------------
  // Composite
  // ---------------------------------------------------------------------

  /** A row of the aggregated data set: field name to number. */
  type Profile = map<string, real>

  /** The five component scores; `None` when `avg_delay` is missing, since
      the scalar branch then compares `None` with a number. */
  function ComponentScores(p: Profile): (r: Option<Components>)
    ensures r.None? <==> "avg_delay" !in p
    ensures r.Some? ==>
      r.value.paymentHistory == PaymentHistoryScore(One(p["avg_delay"]), Get(p, "avg_credit_history", 0.0)).score
    ensures r.Some? ==> r.value.amountsOwed == UtilizationScore(Get(p, "avg_outstanding_debt", 0.0))
    ensures r.Some? ==> r.value.lengthOfHistory == HistoryScore(Get(p, "avg_credit_history", 0.0))
    ensures r.Some? ==> r.value.creditMix == CreditMixScore(Get(p, "avg_credit_mix", 0.0))
    ensures r.Some? ==> r.value.newCredit == InquiriesScore(Get(p, "avg_num_inquires", 0.0))
    ensures r.Some? && -12.0 <= Get(p, "avg_credit_history", 0.0) ==> InRange(r.value)
  {
    if "avg_delay" !in p then None
    else
      var months := Get(p, "avg_credit_history", 0.0);
      var c := Components(
        PaymentHistoryScore(One(p["avg_delay"]), months).score,
        UtilizationScore(Get(p, "avg_outstanding_debt", 0.0)),
        HistoryScore(months),
        CreditMixScore(Get(p, "avg_credit_mix", 0.0)),
        InquiriesScore(Get(p, "avg_num_inquires", 0.0)));
      if -12.0 <= months then InRangeIntro(c); Some(c) else Some(c)
  }

  /** `calculate_fico_score`: the inline weights are the published FICO ones. */
  function FicoScore(p: Profile): (r: Result<ScoreResult>)
    ensures r.Err? <==> "avg_delay" !in p
    ensures r.Err? ==> r.error.TypeError?
    ensures r.Ok? ==> Some(r.value.components) == ComponentScores(p)
    ensures r.Ok? && -12.0 <= Get(p, "avg_credit_history", 0.0) ==> 300 <= r.value.fico <= 850
  {
    match ComponentScores(p)
    case None => Err(TypeError("'<' not supported between instances of 'int' and 'NoneType'"))
    case Some(c) =>
      FicoWeightsValid();
      Ok(Combine(c, FicoWeights))
  }

  /** `calculate_fico_score` on every row, in order. */
  function Scores(rows: seq<Profile>): (r: seq<Result<ScoreResult>>)
    ensures |r| == |rows|
    ensures forall i :: 0 <= i < |rows| ==> r[i] == FicoScore(rows[i])
  {
    if |rows| == 0 then [] else [FicoScore(rows[0])] + Scores(rows[1..])
  }

  /** `run`: one score per customer row, in order. A row without
      `avg_delay` raises, and the exception ends the whole run. */
  function Run(rows: seq<Profile>): (r: Result<seq<ScoreResult>>)
    ensures r.Err? <==> exists i :: 0 <= i < |rows| && "avg_delay" !in rows[i]
    ensures r.Err? ==> r.error.TypeError?
    ensures r.Ok? ==> |r.value| == |rows|
    ensures r.Ok? ==> forall i :: 0 <= i < |rows| ==> FicoScore(rows[i]) == Ok(r.value[i])
  {
    RunFails(rows);
    FirstError(Scores(rows))
  }

  /** The run fails exactly when some row lacks `avg_delay`, and then with
      that row's `TypeError`. */
  lemma RunFails(rows: seq<Profile>)
    ensures var r := FirstError(Scores(rows));
      (r.Err? <==> exists i :: 0 <= i < |rows| && "avg_delay" !in rows[i]) &&
      (r.Err? ==> r.error.TypeError?)
  {
    var scores := Scores(rows);
    forall i | 0 <= i < |rows|
      ensures scores[i].Err? <==> "avg_delay" !in rows[i]
      ensures scores[i].Err? ==> scores[i].error.TypeError?
    {
      RowFails(rows[i]);
    }
    FirstErrorFails(scores);
  }

  /** A row's score fails exactly when `avg_delay` is missing, with a `TypeError`. */
  lemma RowFails(p: Profile)
    ensures FicoScore(p).Err? <==> "avg_delay" !in p
    ensures FicoScore(p).Err? ==> FicoScore(p).error.TypeError?
  {
  }
}
