/** The table-driven scorer of `credit_model_traditional.py`: five customer
    averages are each mapped through a fixed `if / else` chain, the five
    sub-scores are weighted 15/35/15/15/20, the 0-100 total is mapped
    linearly (without rounding) onto 300-850, and the result is cut at 590
    into a bad (0) and a good (1) category. */
module CreditModelTraditional {
  import opened Basics
  import opened StepTable
  import opened Composite

  /** One customer row: the averaged columns the scorer reads. */
  datatype Applicant = Applicant(
    creditHistory: real,   // avg_credit_history, months
    delay: real,           // avg_delay, days past due
    inquiries: real,       // avg_num_inquires
    debt: real,            // avg_outstanding_debt
    creditMix: real)       // avg_credit_mix: 0 bad, 1 standard, 2 good

  datatype Subscores = Subscores(history: real, delay: real, inquiries: real, debt: real, mix: real)
  {
    function AsSeq(): (s: seq<real>)
      ensures |s| == 5
    {
      [history, delay, inquiries, debt, mix]
    }
  }

  /** The columns the scorer adds to a row. */
  datatype Scored = Scored(subscores: Subscores, total: real, fico: real, category: Option<nat>)

  /** History 15%, delay 35%, inquiries 15%, debt 15%, mix 20%. */
  const Weights: seq<real> := [0.15, 0.35, 0.15, 0.15, 0.20]

  /** Scores up to this value fall in the bad category. */
  const Cutoff: real := 590.0

  // ---------------------------------------------------------------------
  // The five tables
  // ---------------------------------------------------------------------

  /** `<` steps at 12, 24, 48 and 96 months. */
  const History := Table([
    Rule(Below(12.0), 20.0), Rule(Below(24.0), 40.0), Rule(Below(48.0), 60.0), Rule(Below(96.0), 80.0)
  ], 100.0)

  lemma HistorySteps(x: real)
    ensures Lookup(History, x) ==
      if x < 12.0 then 20.0 else if x < 24.0 then 40.0 else if x < 48.0 then 60.0
      else if x < 96.0 then 80.0 else 100.0
  {
    var t := History;
    LookupStep(t, x);
    LookupStep(t.Rest(), x);
    LookupStep(t.Rest().Rest(), x);
    LookupStep(t.Rest().Rest().Rest(), x);
    assert t.Rest().Rest().Rest().Rest().rules == [];
  }

  function HistoryScore(months: real): (r: real)
    ensures r in {20.0, 40.0, 60.0, 80.0, 100.0}
    ensures r == 20.0 <==> months < 12.0
    ensures r == 100.0 <==> 96.0 <= months
  {
    HistorySteps(months);
    Lookup(History, months)
  }

  /** A longer history never scores worse. */
  lemma HistoryNonDecreasing(x: real, y: real)
    requires x <= y
    ensures HistoryScore(x) <= HistoryScore(y)
  {
    HistorySteps(x);
    HistorySteps(y);
  }

  /** `<= 0`, then `<` steps at 5, 15 and 30 days. */
  const Delay := Table([
    Rule(AtMost(0.0), 100.0), Rule(Below(5.0), 90.0), Rule(Below(15.0), 70.0), Rule(Below(30.0), 40.0)
  ], 10.0)

  lemma DelaySteps(x: real)
    ensures Lookup(Delay, x) ==
      if x <= 0.0 then 100.0 else if x < 5.0 then 90.0 else if x < 15.0 then 70.0
      else if x < 30.0 then 40.0 else 10.0
  {
    var t := Delay;
    LookupStep(t, x);
    LookupStep(t.Rest(), x);
    LookupStep(t.Rest().Rest(), x);
    LookupStep(t.Rest().Rest().Rest(), x);
    assert t.Rest().Rest().Rest().Rest().rules == [];
  }

  function DelayScore(delay: real): (r: real)
    ensures r in {10.0, 40.0, 70.0, 90.0, 100.0}
    ensures r == 100.0 <==> delay <= 0.0
    ensures r == 10.0 <==> 30.0 <= delay
  {
    DelaySteps(delay);
    Lookup(Delay, delay)
  }

  /** Paying later never scores better. */
  lemma DelayNonIncreasing(x: real, y: real)
    requires x <= y
    ensures DelayScore(y) <= DelayScore(x)
  {
    DelaySteps(x);
    DelaySteps(y);
  }

  /** `== 0`, then `<=` steps at 2, 5 and 10 inquiries. */
  const Inquiries := Table([
    Rule(Exactly(0.0), 100.0), Rule(AtMost(2.0), 90.0), Rule(AtMost(5.0), 70.0), Rule(AtMost(10.0), 40.0)
  ], 10.0)

  lemma InquiriesSteps(x: real)
    ensures Lookup(Inquiries, x) ==
      if x == 0.0 then 100.0 else if x <= 2.0 then 90.0 else if x <= 5.0 then 70.0
      else if x <= 10.0 then 40.0 else 10.0
  {
    var t := Inquiries;
    LookupStep(t, x);
    LookupStep(t.Rest(), x);
    LookupStep(t.Rest().Rest(), x);
    LookupStep(t.Rest().Rest().Rest(), x);
    assert t.Rest().Rest().Rest().Rest().rules == [];
  }

  function InquiriesScore(inquiries: real): (r: real)
    ensures r in {10.0, 40.0, 70.0, 90.0, 100.0}
    ensures r == 100.0 <==> inquiries == 0.0
    ensures r == 10.0 <==> 10.0 < inquiries
  {
    InquiriesSteps(inquiries);
    Lookup(Inquiries, inquiries)
  }

  /** More inquiries never score better, among non-negative counts (a
      negative count is not caught by `== 0` and scores 90). */
  lemma InquiriesNonIncreasing(x: real, y: real)
    requires 0.0 <= x <= y
    ensures InquiriesScore(y) <= InquiriesScore(x)
  {
    InquiriesSteps(x);
    InquiriesSteps(y);
  }

  /** `== 0`, then `<` steps at 500, 1500 and 3000. */
  const Debt := Table([
    Rule(Exactly(0.0), 100.0), Rule(Below(500.0), 90.0), Rule(Below(1500.0), 75.0), Rule(Below(3000.0), 50.0)
  ], 20.0)

  lemma DebtSteps(x: real)
    ensures Lookup(Debt, x) ==
      if x == 0.0 then 100.0 else if x < 500.0 then 90.0 else if x < 1500.0 then 75.0
      else if x < 3000.0 then 50.0 else 20.0
  {
    var t := Debt;
    LookupStep(t, x);
    LookupStep(t.Rest(), x);
    LookupStep(t.Rest().Rest(), x);
    LookupStep(t.Rest().Rest().Rest(), x);
    assert t.Rest().Rest().Rest().Rest().rules == [];
  }

  function DebtScore(debt: real): (r: real)
    ensures r in {20.0, 50.0, 75.0, 90.0, 100.0}
    ensures r == 100.0 <==> debt == 0.0
    ensures r == 20.0 <==> 3000.0 <= debt
  {
    DebtSteps(debt);
    Lookup(Debt, debt)
  }

  /** More outstanding debt never scores better, among non-negative amounts. */
  lemma DebtNonIncreasing(x: real, y: real)
    requires 0.0 <= x <= y
    ensures DebtScore(y) <= DebtScore(x)
  {
    DebtSteps(x);
    DebtSteps(y);
  }

  /** `== 0` and `== 1`; any other value, 2 included, is the top score. */
  const Mix := Table([Rule(Exactly(0.0), 30.0), Rule(Exactly(1.0), 65.0)], 100.0)

  lemma MixSteps(x: real)
    ensures Lookup(Mix, x) == if x == 0.0 then 30.0 else if x == 1.0 then 65.0 else 100.0
  {
    var t := Mix;
    LookupStep(t, x);
    LookupStep(t.Rest(), x);
    assert t.Rest().Rest().rules == [];
  }

  function MixScore(mix: real): (r: real)
    ensures r in {30.0, 65.0, 100.0}
    ensures r == 30.0 <==> mix == 0.0
    ensures r == 65.0 <==> mix == 1.0
  {
    MixSteps(mix);
    Lookup(Mix, mix)
  }

  /** A better mix never scores worse, as long as the smaller value is one of
      the encoded labels 0 or at least 1. */
  lemma MixNonDecreasing(x: real, y: real)
    requires x <= y
    requires x == 0.0 || 1.0 <= x
    ensures MixScore(x) <= MixScore(y)
  {
    MixSteps(x);
    MixSteps(y);
  }

  /** Between the labels the table is not monotone: a half-way mix gets the
      top score that the standard label 1 does not. */
  lemma MixBetweenLabels()
    ensures MixScore(0.5) == 100.0 && MixScore(1.0) == 65.0
  {
    MixSteps(0.5);
    MixSteps(1.0);
  }

  // ---------------------------------------------------------------------
  // Total, FICO scale and category
  // ---------------------------------------------------------------------

  lemma WeightsValid()
    ensures ValidWeights(Weights)
  {
  }

  function Subscore(a: Applicant): (s: Subscores)
    ensures 20.0 <= s.history <= 100.0 && 10.0 <= s.delay <= 100.0
    ensures 10.0 <= s.inquiries <= 100.0 && 20.0 <= s.debt <= 100.0
    ensures 30.0 <= s.mix <= 100.0
  {
    Subscores(HistoryScore(a.creditHistory), DelayScore(a.delay), InquiriesScore(a.inquiries),
              DebtScore(a.debt), MixScore(a.creditMix))
  }

  /** The weighted total, spelled out per component. */
  lemma TotalOfSubscores(s: Subscores)
    ensures Dot(s.AsSeq(), Weights) ==
      s.history * 0.15 + s.delay * 0.35 + s.inquiries * 0.15 + s.debt * 0.15 + s.mix * 0.20
  {
    DotOfFive(s.AsSeq(), Weights);
  }

  /** `calculate_traditional_credit_score_binary` on one row. The lowest
      sub-score of every table still contributes, so no customer scores
      below 393.5, and the category is never missing. */
  function ScoreApplicant(a: Applicant): (r: Scored)
    ensures r.subscores == Subscore(a)
    ensures 17.0 <= r.total <= 100.0
    ensures 393.5 <= r.fico <= MaxScore
    ensures r.fico == MaxScore <==> r.total == 100.0
    ensures r.category == Some(0) <==> r.fico <= Cutoff
    ensures r.category == Some(1) <==> Cutoff < r.fico
  {
    var s := Subscore(a);
    var total := Dot(s.AsSeq(), Weights);
    TotalOfSubscores(s);
    var fico := Rescale(total, MinScore, MaxScore);
    Scored(s, total, fico, Category(fico, Cutoff))
  }

  /** A perfect score needs every table at its top row. */
  lemma TopScore(a: Applicant)
    ensures ScoreApplicant(a).fico == MaxScore <==>
      96.0 <= a.creditHistory && a.delay <= 0.0 && a.inquiries == 0.0 && a.debt == 0.0 &&
      a.creditMix != 0.0 && a.creditMix != 1.0
  {
    TotalOfSubscores(Subscore(a));
  }

  /** Customer `b` is at least as good as `a` on every column, within the
      ranges where each table is monotone. */
  predicate NoWorse(a: Applicant, b: Applicant) {
    a.creditHistory <= b.creditHistory && b.delay <= a.delay &&
    0.0 <= b.inquiries <= a.inquiries && 0.0 <= b.debt <= a.debt &&
    a.creditMix <= b.creditMix && (a.creditMix == 0.0 || 1.0 <= a.creditMix)
  }

  /** Improving any column never lowers the score or the category. */
  lemma ScoreMonotone(a: Applicant, b: Applicant)
    requires NoWorse(a, b)
    ensures ScoreApplicant(a).fico <= ScoreApplicant(b).fico
    ensures ScoreApplicant(a).category == Some(1) ==> ScoreApplicant(b).category == Some(1)
  {
    HistoryNonDecreasing(a.creditHistory, b.creditHistory);
    DelayNonIncreasing(b.delay, a.delay);
    InquiriesNonIncreasing(b.inquiries, a.inquiries);
    DebtNonIncreasing(b.debt, a.debt);
    MixNonDecreasing(a.creditMix, b.creditMix);
    TotalOfSubscores(Subscore(a));
    TotalOfSubscores(Subscore(b));
  }

  /** A clean record with a two-to-four-year history and a bad mix totals
      80 and lands at 740, in the good category; the worst row of every
      table totals 17 and lands at 393.5, in the bad one. */
  lemma CategoryExamples()
    ensures ScoreApplicant(Applicant(30.0, 0.0, 0.0, 0.0, 0.0)).category == Some(1)
    ensures ScoreApplicant(Applicant(0.0, 30.0, 20.0, 5000.0, 0.0)).fico == 393.5
    ensures ScoreApplicant(Applicant(0.0, 30.0, 20.0, 5000.0, 0.0)).category == Some(0)
  {
    TotalOfSubscores(Subscore(Applicant(30.0, 0.0, 0.0, 0.0, 0.0)));
    TotalOfSubscores(Subscore(Applicant(0.0, 30.0, 20.0, 5000.0, 0.0)));
  }
}
