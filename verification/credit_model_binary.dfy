/** The six-column variant in `credit_model_binary.py`: the five tables of
    the traditional table-driven scorer, unchanged, plus an in-hand income
    table; the weights become 10/30/10/15/20/15 and the bad/good cut-off
    moves to 580. */
module CreditModelBinary {
  import opened Basics
  import opened StepTable
  import opened Composite
  import T = CreditModelTraditional

  /** A customer row: the five traditional columns and `avg_inhand_income`. */
  datatype Applicant = Applicant(base: T.Applicant, income: real)

  datatype Subscores = Subscores(five: T.Subscores, income: real)
  {
    function AsSeq(): (s: seq<real>)
      ensures |s| == 6
    {
      five.AsSeq() + [income]
    }
  }

  datatype Scored = Scored(subscores: Subscores, total: real, fico: real, category: Option<nat>)

  /** History 10%, delay 30%, inquiries 10%, debt 15%, mix 20%, income 15%.
      These are the factors the code multiplies by; its comments give debt
      20% and mix 15%. */
  const Weights: seq<real> := [0.10, 0.30, 0.10, 0.15, 0.20, 0.15]

  const Cutoff: real := 580.0

  /** `<` steps at 1000, 2000, 4000 and 10000. */
  const Income := Table([
    Rule(Below(1000.0), 20.0), Rule(Below(2000.0), 40.0), Rule(Below(4000.0), 60.0), Rule(Below(10000.0), 80.0)
  ], 100.0)

  lemma IncomeSteps(x: real)
    ensures Lookup(Income, x) ==
      if x < 1000.0 then 20.0 else if x < 2000.0 then 40.0 else if x < 4000.0 then 60.0
      else if x < 10000.0 then 80.0 else 100.0
  {
    var t := Income;
    LookupStep(t, x);
    LookupStep(t.Rest(), x);
    LookupStep(t.Rest().Rest(), x);
    LookupStep(t.Rest().Rest().Rest(), x);
    assert t.Rest().Rest().Rest().Rest().rules == [];
  }

  function IncomeScore(income: real): (r: real)
    ensures r in {20.0, 40.0, 60.0, 80.0, 100.0}
    ensures r == 20.0 <==> income < 1000.0
    ensures r == 100.0 <==> 10000.0 <= income
  {
    IncomeSteps(income);
    Lookup(Income, income)
  }

  /** More income never scores worse. */
  lemma IncomeNonDecreasing(x: real, y: real)
    requires x <= y
    ensures IncomeScore(x) <= IncomeScore(y)
  {
    IncomeSteps(x);
    IncomeSteps(y);
  }

  lemma WeightsValid()
    ensures ValidWeights(Weights)
  {
    assert Weights[1..] == [0.30, 0.10, 0.15, 0.20, 0.15];
  }

  /** The weighted total, spelled out per component. */
  lemma TotalOfSubscores(s: Subscores)
    ensures Dot(s.AsSeq(), Weights) ==
      s.five.history * 0.10 + s.five.delay * 0.30 + s.five.inquiries * 0.10 +
      s.five.debt * 0.15 + s.five.mix * 0.20 + s.income * 0.15
  {
    var v := s.AsSeq();
    var w := Weights;
    assert Dot(v[5..], w[5..]) == v[5] * w[5] + Dot(v[6..], w[6..]);
    assert Dot(v[4..], w[4..]) == v[4] * w[4] + Dot(v[5..], w[5..]);
    assert Dot(v[3..], w[3..]) == v[3] * w[3] + Dot(v[4..], w[4..]);
    assert Dot(v[2..], w[2..]) == v[2] * w[2] + Dot(v[3..], w[3..]);
    assert Dot(v[1..], w[1..]) == v[1] * w[1] + Dot(v[2..], w[2..]);
  }

  function Subscore(a: Applicant): (s: Subscores)
    ensures s.five == T.Subscore(a.base)
    ensures 20.0 <= s.income <= 100.0
  {
    Subscores(T.Subscore(a.base), IncomeScore(a.income))
  }

  /** `calculate_traditional_credit_score_binary` on one row: never below
      399, the weighted worst of every table, and never uncategorised. */
  function ScoreApplicant(a: Applicant): (r: Scored)
    ensures r.subscores == Subscore(a)
    ensures 18.0 <= r.total <= 100.0
    ensures 399.0 <= r.fico <= MaxScore
    ensures r.fico == MaxScore <==> r.total == 100.0
    ensures r.category == Some(0) <==> r.fico <= Cutoff
    ensures r.category == Some(1) <==> Cutoff < r.fico
  {
    var s := Subscore(a);
    var total := Dot(s.AsSeq(), Weights);
    TotalOfSubscores(s);
    var fico := Rescale(total, MinScore, MaxScore);
    Scored(s, total, fico, Category(fico, Cutoff))
  }

  /** A perfect score needs every table, income included, at its top row. */
  lemma TopScore(a: Applicant)
    ensures ScoreApplicant(a).fico == MaxScore <==>
      T.ScoreApplicant(a.base).fico == MaxScore && 10000.0 <= a.income
  {
    TotalOfSubscores(Subscore(a));
    T.TotalOfSubscores(T.Subscore(a.base));
  }

  /** Improving any column, income included, never lowers the score or the
      category. */
  lemma ScoreMonotone(a: Applicant, b: Applicant)
    requires T.NoWorse(a.base, b.base) && a.income <= b.income
    ensures ScoreApplicant(a).fico <= ScoreApplicant(b).fico
    ensures ScoreApplicant(a).category == Some(1) ==> ScoreApplicant(b).category == Some(1)
  {
    T.HistoryNonDecreasing(a.base.creditHistory, b.base.creditHistory);
    T.DelayNonIncreasing(b.base.delay, a.base.delay);
    T.InquiriesNonIncreasing(b.base.inquiries, a.base.inquiries);
    T.DebtNonIncreasing(b.base.debt, a.base.debt);
    T.MixNonDecreasing(a.base.creditMix, b.base.creditMix);
    IncomeNonDecreasing(a.income, b.income);
    TotalOfSubscores(Subscore(a));
    TotalOfSubscores(Subscore(b));
  }

  /** A customer with an eight-year history, payments ten days late, eight
      inquiries, heavy debt and a bad mix. */
  const Example := T.Applicant(96.0, 10.0, 8.0, 5000.0, 0.0)

  /** The example's tables give 100, 70, 40, 20 and 30. */
  lemma ExampleSubscores()
    ensures T.Subscore(Example) == T.Subscores(100.0, 70.0, 40.0, 20.0, 30.0)
  {
    T.DelaySteps(10.0);
    T.InquiriesSteps(8.0);
    T.DebtSteps(5000.0);
  }

  /** Under the five-column model it totals 54.5 and scores 599.75: good. */
  lemma ExampleGoodThere()
    ensures T.ScoreApplicant(Example).fico == 599.75
    ensures T.ScoreApplicant(Example).category == Some(1)
  {
    ExampleSubscores();
    T.TotalOfSubscores(T.Subscores(100.0, 70.0, 40.0, 20.0, 30.0));
  }

  /** With no income the six tables give 100, 70, 40, 20, 30 and 20 ... */
  lemma ExampleBinarySubscores()
    ensures Subscore(Applicant(Example, 0.0)) == Subscores(T.Subscores(100.0, 70.0, 40.0, 20.0, 30.0), 20.0)
  {
    ExampleSubscores();
    IncomeSteps(0.0);
  }

  /** ... which total 47 here and score 558.5: bad. */
  lemma ExampleBadHere()
    ensures ScoreApplicant(Applicant(Example, 0.0)).fico == 558.5
    ensures ScoreApplicant(Applicant(Example, 0.0)).category == Some(0)
  {
    ExampleBinarySubscores();
    var s := Subscores(T.Subscores(100.0, 70.0, 40.0, 20.0, 30.0), 20.0);
    TotalOfSubscores(s);
    assert Rescale(47.0, MinScore, MaxScore) == 558.5;
  }

  /** The two models can disagree on the same five columns. */
  lemma ModelsDisagree()
    ensures T.ScoreApplicant(Example).category == Some(1)
    ensures ScoreApplicant(Applicant(Example, 0.0)).category == Some(0)
  {
    ExampleGoodThere();
    ExampleBadHere();
  }
}
