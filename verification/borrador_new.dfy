/** The batch scorer (`FICOScoreModel` in borrador_New.py): every component
    is computed element-wise over the columns of a data frame, the lookup
    tables are written as chains of `np.where` masks, payment history takes
    a capped deduction for the number of delayed payments instead of the
    short-file scaling, and credit mix is read from a text label. */
module NewDraft {
  import opened Basics
  import opened StepTable
  import Text
  import opened Composite
  import PaymentHistory
  import Traditional
  import TraditionalDraft
  import Advice

  // ---------------------------------------------------------------------
  // Payment history
  // ---------------------------------------------------------------------

  /** The deduction for one delay: 10, 20 or 40 points for a delay in
      (0,30], (30,60] or (60,90] days, nothing otherwise. */
  function DelayDeduction(delay: real): (d: real)
    ensures d in {0.0, 10.0, 20.0, 40.0}
    ensures d == 0.0 <==> delay <= 0.0 || 90.0 < delay
    ensures d == 10.0 <==> 0.0 < delay <= 30.0
    ensures d == 40.0 <==> 60.0 < delay <= 90.0
  {
    var c := PaymentHistory.ScalarCounts(Traditional.LateBuckets, delay);
    Traditional.LateDeduction(c[0], c[1], c[2]);
    assert c == [c[0], c[1], c[2]];
    PaymentHistory.Deduction(Traditional.LateBuckets, c)
  }

  /** `min(n * 5, 30)`: five points per delayed payment, at most 30. */
  function ExtraDeduction(delayedPayments: real): (e: real)
    ensures e <= 30.0
    ensures delayedPayments <= 6.0 ==> e == 5.0 * delayedPayments
    ensures 6.0 <= delayedPayments ==> e == 30.0
  {
    Min(delayedPayments * 5.0, 30.0)
  }

  /** One row's payment score: no short-file scaling in this variant. */
  function PaymentHistoryScore(delay: real, delayedPayments: real): (r: real)
    ensures 0.0 <= r <= 100.0
    ensures var raw := 100.0 - DelayDeduction(delay) - ExtraDeduction(delayedPayments);
      0.0 <= raw <= 100.0 ==> r == raw
    ensures 0.0 <= delayedPayments && (delay <= 0.0 || 90.0 < delay) ==>
      r == 100.0 - ExtraDeduction(delayedPayments)
  {
    Min(Max(0.0, 100.0 - DelayDeduction(delay) - ExtraDeduction(delayedPayments)), 100.0)
  }

  /** Beyond six delayed payments the count no longer matters. */
  lemma ExtraDeductionCapped(delay: real, n1: real, n2: real)
    requires 6.0 <= n1 && 6.0 <= n2
    ensures PaymentHistoryScore(delay, n1) == PaymentHistoryScore(delay, n2)
  {
  }

  /** More delayed payments never raise the score. */
  lemma MoreDelayedPayments(delay: real, n1: real, n2: real)
    requires n1 <= n2
    ensures PaymentHistoryScore(delay, n2) <= PaymentHistoryScore(delay, n1)
  {
  }

  /** With no delayed payments a row scores as the single-delay scorer does
      on a file at least a year old. */
  lemma NoDelayedPayments(delay: real)
    ensures PaymentHistoryScore(delay, 0.0) == TraditionalDraft.PaymentHistoryScore(PaymentHistory.One(delay), 12.0)
  {
    var c := PaymentHistory.ScalarCounts(Traditional.LateBuckets, delay);
    PaymentHistory.ShortHistoryBounds(Max(0.0, 100.0 - PaymentHistory.Deduction(Traditional.LateBuckets, c)), 12.0);
  }

  // ---------------------------------------------------------------------
  // Amounts owed and length of history
  // ---------------------------------------------------------------------

  /** The utilization masks in the order they are applied. */
  const UtilizationMasks: seq<Rule> := [
    Rule(AtMost(0.10), 100.0), Rule(Within(0.10, 0.20), 90.0), Rule(Within(0.20, 0.30), 80.0),
    Rule(Within(0.30, 0.40), 70.0), Rule(Within(0.40, 0.50), 60.0), Rule(Within(0.50, 0.60), 50.0),
    Rule(Within(0.60, 0.70), 40.0), Rule(Within(0.70, 0.80), 30.0), Rule(Within(0.80, 0.90), 20.0),
    Rule(Above(0.90), 10.0)
  ]

  /** The reference utilization chain is an ascending `<=` chain. */
  lemma UtilizationAscending()
    ensures AscendingAtMost(Traditional.Utilization.rules)
  {
    var r := Traditional.Utilization.rules;
    assert AscendingAtMost(r[9..]);
    assert AscendingAtMost(r[8..]) by { assert r[8..][1..] == r[9..]; }
    assert AscendingAtMost(r[7..]) by { assert r[7..][1..] == r[8..]; }
    assert AscendingAtMost(r[6..]) by { assert r[6..][1..] == r[7..]; }
    assert AscendingAtMost(r[5..]) by { assert r[5..][1..] == r[6..]; }
    assert AscendingAtMost(r[4..]) by { assert r[4..][1..] == r[5..]; }
    assert AscendingAtMost(r[3..]) by { assert r[3..][1..] == r[4..]; }
    assert AscendingAtMost(r[2..]) by { assert r[2..][1..] == r[3..]; }
    assert AscendingAtMost(r[1..]) by { assert r[1..][1..] == r[2..]; }
  }

  /** The masks are the bands of the reference `if / elif` chain. */
  lemma UtilizationMasksAreBands()
    ensures Traditional.Utilization.rules != [] && AscendingAtMost(Traditional.Utilization.rules)
    ensures UtilizationMasks == UpperBands(Traditional.Utilization)
  {
    UtilizationAscending();
    var b := UpperBands(Traditional.Utilization);
    assert b[0] == UtilizationMasks[0];
    assert b[1] == UtilizationMasks[1];
    assert b[2] == UtilizationMasks[2];
    assert b[3] == UtilizationMasks[3];
    assert b[4] == UtilizationMasks[4];
    assert b[5] == UtilizationMasks[5];
    assert b[6] == UtilizationMasks[6];
    assert b[7] == UtilizationMasks[7];
    assert b[8] == UtilizationMasks[8];
    assert b[9] == UtilizationMasks[9];
  }

  /** One row's utilization score, starting from 0 and applying every mask. */
  function UtilizationScore(ratio: real): (r: real)
    ensures r == Traditional.UtilizationScore(ratio)
  {
    UtilizationMasksAreBands();
    UpperBandsAgree(Traditional.Utilization, ratio, 0.0);
    Min(Overlay(UtilizationMasks, ratio, 0.0), 100.0)
  }

  /** The history masks in the order they are applied. */
  const HistoryMasks: seq<Rule> := [
    Rule(AtLeast(240.0), 100.0), Rule(Span(180.0, 240.0), 95.0), Rule(Span(120.0, 180.0), 90.0),
    Rule(Span(60.0, 120.0), 80.0), Rule(Span(24.0, 60.0), 65.0), Rule(Span(12.0, 24.0), 50.0),
    Rule(Below(12.0), 30.0)
  ]

  /** The reference history chain is a descending `>=` chain. */
  lemma HistoryDescending()
    ensures DescendingAtLeast(Traditional.History.rules)
  {
    var r := Traditional.History.rules;
    assert DescendingAtLeast(r[6..]);
    assert DescendingAtLeast(r[5..]) by { assert r[5..][1..] == r[6..]; }
    assert DescendingAtLeast(r[4..]) by { assert r[4..][1..] == r[5..]; }
    assert DescendingAtLeast(r[3..]) by { assert r[3..][1..] == r[4..]; }
    assert DescendingAtLeast(r[2..]) by { assert r[2..][1..] == r[3..]; }
    assert DescendingAtLeast(r[1..]) by { assert r[1..][1..] == r[2..]; }
  }

  /** The masks are the bands of the reference `if / elif` chain. */
  lemma HistoryMasksAreBands()
    ensures Traditional.History.rules != [] && DescendingAtLeast(Traditional.History.rules)
    ensures HistoryMasks == LowerBands(Traditional.History)
  {
    HistoryDescending();
    var b := LowerBands(Traditional.History);
    assert b[0] == HistoryMasks[0];
    assert b[1] == HistoryMasks[1];
    assert b[2] == HistoryMasks[2];
    assert b[3] == HistoryMasks[3];
    assert b[4] == HistoryMasks[4];
    assert b[5] == HistoryMasks[5];
    assert b[6] == HistoryMasks[6];
  }

  /** One row's history score, starting from 0 and applying every mask. */
  function HistoryScore(months: real): (r: real)
    ensures r == Traditional.HistoryScore(months)
  {
    HistoryMasksAreBands();
    LowerBandsAgree(Traditional.History, months, 0.0);
    Min(Overlay(HistoryMasks, months, 0.0), 100.0)
  }

  // ---------------------------------------------------------------------
  // Credit mix
  // ---------------------------------------------------------------------

  /** One row's mix score from its label, tested case-insensitively and in
      this order: "good" 100, "std" or "standard" 70, "bad" or "poor" 40,
      anything else 60. */
  function MixScore(tag: string): (r: real)
    ensures r in {40.0, 60.0, 70.0, 100.0}
    ensures var good, std, bad := Text.Contains(Text.Lower(tag), "good"),
      Text.Contains(Text.Lower(tag), "std") || Text.Contains(Text.Lower(tag), "standard"),
      Text.Contains(Text.Lower(tag), "bad") || Text.Contains(Text.Lower(tag), "poor");
      && (r == 100.0 <==> good)
      && (r == 70.0 <==> !good && std)
      && (r == 40.0 <==> !good && !std && bad)
      && (r == 60.0 <==> !good && !std && !bad)
  {
    var v := Text.Lower(tag);
    var score :=
      if Text.Contains(v, "good") then 100.0
      else if Text.Contains(v, "std") || Text.Contains(v, "standard") then 70.0
      else if Text.Contains(v, "bad") || Text.Contains(v, "poor") then 40.0
      else 60.0;
    Min(score, 100.0)
  }

  /** Upper and lower case make no difference. */
  lemma MixIgnoresCase(tag: string)
    ensures MixScore(Text.Lower(tag)) == MixScore(tag)
  {
    Text.LowerIdempotent(tag);
  }

  /** The labels of the data set. */
  lemma MixLabels()
    ensures MixScore("Good") == 100.0
    ensures MixScore("Bad") == 40.0
    ensures MixScore("_") == 60.0
  {
    assert Text.Lower("Good") == "good";
    assert Text.Lower("Bad") == "bad";
    assert Text.Lower("_") == "_";
    assert Text.Contains("bad", "bad");
  }

  // ---------------------------------------------------------------------
  // New credit
  // ---------------------------------------------------------------------

  /** The new-credit masks in the order they are applied. */
  const NewCreditMasks: seq<Rule> := [
    Rule(Exactly(0.0), 100.0), Rule(Exactly(1.0), 90.0), Rule(Exactly(2.0), 75.0),
    Rule(Within(2.0, 4.0), 60.0), Rule(Above(4.0), 40.0)
  ]

  /** One row's new-credit score, starting from 0: values no mask catches
      (negative counts, fractions below 2 other than 1) keep the 0. */
  function NewCreditScore(inquiries: real): (r: real)
    ensures r in {0.0, 40.0, 60.0, 75.0, 90.0, 100.0}
    ensures r == 0.0 <==> inquiries < 2.0 && inquiries != 0.0 && inquiries != 1.0
    ensures r == 100.0 <==> inquiries == 0.0
    ensures r == 40.0 <==> 4.0 < inquiries
  {
    NewCreditSteps(inquiries);
    Min(Overlay(NewCreditMasks, inquiries, 0.0), 100.0)
  }

  /** The masks read back as a case split. */
  lemma NewCreditSteps(x: real)
    ensures Overlay(NewCreditMasks, x, 0.0) ==
      if x == 0.0 then 100.0 else if x == 1.0 then 90.0 else if x == 2.0 then 75.0
      else if 2.0 < x <= 4.0 then 60.0 else if 4.0 < x then 40.0 else 0.0
  {
    var m := NewCreditMasks;
    var k: int :=
      if x == 0.0 then 0 else if x == 1.0 then 1 else if x == 2.0 then 2
      else if 2.0 < x <= 4.0 then 3 else if 4.0 < x then 4 else -1;
    OverlayIsLastHit(m, x, 0.0);
    assert LastHit(m, x) == k by {
      assert forall j :: k < j < |m| ==> !Holds(m[j].cond, x);
    }
  }

  /** On whole numbers the masks agree with the reference chain. */
  lemma NewCreditWholeNumbers(n: nat)
    ensures NewCreditScore(n as real) == Traditional.NewCreditScore(n as real)
  {
    NewCreditSteps(n as real);
    Traditional.NewCreditSteps(n as real);
  }

  /** Off the whole numbers the two disagree: the chain's `<= 4` step catches
      what no mask here does. */
  lemma NewCreditOffGrid()
    ensures NewCreditScore(-1.0) == 0.0 && Traditional.NewCreditScore(-1.0) == 60.0
    ensures NewCreditScore(1.5) == 0.0 && Traditional.NewCreditScore(1.5) == 60.0
  {
    NewCreditSteps(-1.0);
    NewCreditSteps(1.5);
    Traditional.NewCreditSteps(-1.0);
    Traditional.NewCreditSteps(1.5);
  }

  // ---------------------------------------------------------------------
  // Batch scoring
  // ---------------------------------------------------------------------

  /** The columns `calculate_fico_score_batch` reads, one row at a time. */
  datatype Row = Row(
    delayFromDueDate: real,
    numOfDelayedPayment: real,
    creditUtilizationRatio: real,
    creditHistoryAge: real,
    creditMix: string,
    numCreditInquiries: real)

  /** The attributes the initializer sets. */
  datatype Config = Config(weights: Components, minScore: real, maxScore: real)

  const DefaultConfig := Config(FicoWeights, 300.0, 850.0)

  /** A scorer object: the initializer is spelled `_init_`, so constructing
      the object runs no initializer and leaves every attribute unset. */
  datatype Model = Model(config: Option<Config>)

  /** `FICOScoreModel()`. */
  function Construct(): Model {
    Model(None)
  }

  /** An explicit `model._init_()` call sets the attributes. */
  function CallInit(m: Model): Model {
    Model(Some(DefaultConfig))
  }

  /** The per-row output columns. */
  datatype Scored = Scored(components: Components, weighted: Components, base: real, fico: int)

  function RowComponents(row: Row): (c: Components)
    ensures InRange(c)
    ensures c.paymentHistory == PaymentHistoryScore(row.delayFromDueDate, row.numOfDelayedPayment)
    ensures c.amountsOwed == Traditional.UtilizationScore(row.creditUtilizationRatio)
    ensures c.lengthOfHistory == Traditional.HistoryScore(row.creditHistoryAge)
    ensures c.creditMix == MixScore(row.creditMix)
    ensures c.newCredit == NewCreditScore(row.numCreditInquiries)
  {
    var c := Components(
      PaymentHistoryScore(row.delayFromDueDate, row.numOfDelayedPayment),
      UtilizationScore(row.creditUtilizationRatio),
      HistoryScore(row.creditHistoryAge),
      MixScore(row.creditMix),
      NewCreditScore(row.numCreditInquiries));
    InRangeIntro(c);
    c
  }

  /** One row: weighted components, their sum, and the truncated score. */
  function ScoreRow(cfg: Config, row: Row): (r: Scored)
    ensures r.components == RowComponents(row)
    ensures Total(r.weighted.AsSeq()) == r.base
  {
    var c := RowComponents(row);
    var base := Base(c, cfg.weights);
    Scored(c, Weighted(c, cfg.weights), base, Trunc(Rescale(base, cfg.minScore, cfg.maxScore)))
  }

  /** With the initializer's attributes a row scores as the reference
      composite does, hence within 300..850. */
  lemma DefaultRowScore(row: Row)
    ensures ScoreRow(DefaultConfig, row).fico == Combine(RowComponents(row), FicoWeights).fico
    ensures 300 <= ScoreRow(DefaultConfig, row).fico <= 850
  {
    FicoWeightsValid();
  }

  /** Element-wise evaluation over a column: one output per input, in order. */
  method MapRows<A, B>(f: A -> B, xs: seq<A>) returns (ys: seq<B>)
    ensures |ys| == |xs|
    ensures forall i :: 0 <= i < |xs| ==> ys[i] == f(xs[i])
  {
    ys := [];
    var i := 0;
    while i < |xs|
      invariant 0 <= i <= |xs|
      invariant |ys| == i
      invariant forall j :: 0 <= j < i ==> ys[j] == f(xs[j])
    {
      ys := ys + [f(xs[i])];
      i := i + 1;
    }
  }

  /** `calculate_fico_score_batch`: the first attribute it reads is
      `weights`, so an uninitialized model fails there; otherwise every row
      is scored on its own and the row count is kept. */
  method ScoreBatch(m: Model, rows: seq<Row>) returns (r: Result<seq<Scored>>)
    ensures r.Err? <==> m.config.None?
    ensures r.Err? ==> r.error == AttributeError("weights")
    ensures r.Ok? ==> |r.value| == |rows|
    ensures r.Ok? ==> forall i :: 0 <= i < |rows| ==> r.value[i] == ScoreRow(m.config.value, rows[i])
  {
    if m.config.None? {
      return Err(AttributeError("weights"));
    }
    var cfg := m.config.value;
    var out := MapRows(row => ScoreRow(cfg, row), rows);
    return Ok(out);
  }

  /** `get_scores_array`: just the score column. */
  method GetScoresArray(m: Model, rows: seq<Row>) returns (r: Result<seq<int>>)
    ensures r.Err? <==> m.config.None?
    ensures r.Ok? ==> |r.value| == |rows|
    ensures r.Ok? ==> forall i :: 0 <= i < |rows| ==> r.value[i] == ScoreRow(m.config.value, rows[i]).fico
  {
    var batch := ScoreBatch(m, rows);
    if batch.Err? {
      return Err(batch.error);
    }
    var scores := MapRows((s: Scored) => s.fico, batch.value);
    return Ok(scores);
  }

  /** A freshly constructed model cannot score anything. */
  lemma ConstructedModel()
    ensures Construct().config.None?
    ensures CallInit(Construct()).config == Some(DefaultConfig)
  {
  }

  // ---------------------------------------------------------------------
  // Recommendations
  // ---------------------------------------------------------------------

  /** The component keys in the order the checks read them. */
  const ScoreKeys: seq<string> := [
    "payment_history_score", "amounts_owed_score", "new_credit_score",
    "credit_mix_score", "length_of_history_score"]

  predicate HasScoreKeys(scores: map<string, real>) {
    "payment_history_score" in scores && "amounts_owed_score" in scores && "new_credit_score" in scores &&
    "credit_mix_score" in scores && "length_of_history_score" in scores
  }

  /** `analyze_credit_improvement` on a row of `*_score` columns: the first
      key the checks read that is missing raises `KeyError`. */
  function AnalyzeCreditImprovement(scores: map<string, real>): (r: Result<seq<string>>)
    ensures r.Ok? <==> HasScoreKeys(scores)
    ensures r.Err? ==> r.error.KeyError? && r.error.key in ScoreKeys && r.error.key !in scores
    ensures r.Err? ==> exists i :: 0 <= i < |ScoreKeys| && r.error.key == ScoreKeys[i] &&
                                   forall j :: 0 <= j < i ==> ScoreKeys[j] in scores
    ensures r.Ok? ==> r.value == Advice.Recommendations(Components(
      scores["payment_history_score"], scores["amounts_owed_score"], scores["length_of_history_score"],
      scores["credit_mix_score"], scores["new_credit_score"]))
  {
    if "payment_history_score" !in scores then Err(KeyError("payment_history_score"))
    else if "amounts_owed_score" !in scores then Err(KeyError("amounts_owed_score"))
    else if "new_credit_score" !in scores then Err(KeyError("new_credit_score"))
    else if "credit_mix_score" !in scores then Err(KeyError("credit_mix_score"))
    else if "length_of_history_score" !in scores then Err(KeyError("length_of_history_score"))
    else
      Ok(Advice.Recommendations(Components(
        scores["payment_history_score"], scores["amounts_owed_score"], scores["length_of_history_score"],
        scores["credit_mix_score"], scores["new_credit_score"])))
  }

  /** The component columns of a scored row, under their `*_score` names. */
  function ScoreColumns(s: Scored): map<string, real> {
    map["payment_history_score" := s.components.paymentHistory,
        "amounts_owed_score" := s.components.amountsOwed,
        "length_of_history_score" := s.components.lengthOfHistory,
        "credit_mix_score" := s.components.creditMix,
        "new_credit_score" := s.components.newCredit]
  }

  /** On a scored row the advice is the reference scorer's advice for the
      same components. */
  lemma SameAdviceAsReference(s: Scored, fico: int)
    ensures AnalyzeCreditImprovement(ScoreColumns(s))
         == Ok(Traditional.AnalyzeCreditImprovement(ScoreResult(fico, s.components, s.weighted)))
  {
    var m := ScoreColumns(s);
    assert m["payment_history_score"] == s.components.paymentHistory;
    assert m["amounts_owed_score"] == s.components.amountsOwed;
    assert m["length_of_history_score"] == s.components.lengthOfHistory;
    assert m["credit_mix_score"] == s.components.creditMix;
    assert m["new_credit_score"] == s.components.newCredit;
  }
}
