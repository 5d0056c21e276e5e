/** The reference scorer (`FICOScoreModel` in Traditional.py): five
    components computed from a dictionary profile, combined with the
    35/30/15/10/10 weights and mapped onto 300-850 with `int()`. */
module Traditional {
  import opened Basics
  import opened StepTable
  import opened PaymentHistory
  import opened Composite
  import Advice

  // ---------------------------------------------------------------------
  // Payment history
  // ---------------------------------------------------------------------

  /** 10, 20 and 40 points per payment late by up to 30, 60 and 90 days. */
  const LateBuckets: seq<Bucket> := [
    Bucket(Within(0.0, 30.0), 10.0),
    Bucket(Within(30.0, 60.0), 20.0),
    Bucket(Within(60.0, 90.0), 40.0)
  ]

  /** `calculate_payment_history_score` on the three late-payment counts. */
  function PaymentHistoryScore(late30: real, late60: real, late90: real, months: real): (r: real)
    ensures r <= 100.0
    ensures -12.0 <= months ==> 0.0 <= r
    ensures var d := 10.0 * late30 + 20.0 * late60 + 40.0 * late90;
      12.0 <= months && 0.0 <= d <= 100.0 ==> r == 100.0 - d
    ensures var d := 10.0 * late30 + 20.0 * late60 + 40.0 * late90;
      months < 12.0 && 0.0 <= d <= 100.0 ==> r == (100.0 - d) * (0.5 + months / 24.0)
    ensures 12.0 <= months && late30 == late60 == late90 == 0.0 ==> r == 100.0
  {
    LateDeduction(late30, late60, late90);
    Score(Deduction(LateBuckets, [late30, late60, late90]), months)
  }

  /** The bucket deduction is the source's `10·c30 + 20·c60 + 40·c90`. */
  lemma LateDeduction(late30: real, late60: real, late90: real)
    ensures Deduction(LateBuckets, [late30, late60, late90]) == 10.0 * late30 + 20.0 * late60 + 40.0 * late90
  {
    var b, c := LateBuckets, [late30, late60, late90];
    assert Deduction(b[3..], c[3..]) == 0.0;
    assert Deduction(b[2..], c[2..]) == 40.0 * late90 by {
      assert b[2..][1..] == b[3..] && c[2..][1..] == c[3..];
    }
    assert Deduction(b[1..], c[1..]) == 20.0 * late60 + 40.0 * late90 by {
      assert b[1..][1..] == b[2..] && c[1..][1..] == c[2..];
    }
  }

  /** More late payments of any severity never raise the payment score,
      for a file no more than a year short of twelve months. */
  lemma PaymentHistoryNonIncreasing(a30: real, a60: real, a90: real, b30: real, b60: real, b90: real, months: real)
    requires a30 <= b30 && a60 <= b60 && a90 <= b90 && -12.0 <= months
    ensures PaymentHistoryScore(b30, b60, b90, months) <= PaymentHistoryScore(a30, a60, a90, months)
  {
    LateDeduction(a30, a60, a90);
    LateDeduction(b30, b60, b90);
    ScoreNonIncreasing(Deduction(LateBuckets, [a30, a60, a90]), Deduction(LateBuckets, [b30, b60, b90]), months);
  }

  // ---------------------------------------------------------------------
  // Amounts owed
  // ---------------------------------------------------------------------

  /** Right-closed steps of 0.10: 100 at or below 10%, down to 20 at or
      below 90%, 10 above. */
  const Utilization := Table([
    Rule(AtMost(0.10), 100.0), Rule(AtMost(0.20), 90.0), Rule(AtMost(0.30), 80.0),
    Rule(AtMost(0.40), 70.0), Rule(AtMost(0.50), 60.0), Rule(AtMost(0.60), 50.0),
    Rule(AtMost(0.70), 40.0), Rule(AtMost(0.80), 30.0), Rule(AtMost(0.90), 20.0)
  ], 10.0)

  function UtilizationScore(ratio: real): (r: real)
    ensures r in {10.0, 20.0, 30.0, 40.0, 50.0, 60.0, 70.0, 80.0, 90.0, 100.0}
    ensures ratio <= 0.10 <==> r == 100.0
    ensures 0.90 < ratio <==> r == 10.0
  {
    UtilizationSteps(ratio);
    Min(Lookup(Utilization, ratio), 100.0)
  }

  /** The table read back as the source's `if / elif` chain. */
  lemma UtilizationSteps(x: real)
    ensures Lookup(Utilization, x) ==
      if x <= 0.10 then 100.0 else if x <= 0.20 then 90.0 else if x <= 0.30 then 80.0
      else if x <= 0.40 then 70.0 else if x <= 0.50 then 60.0 else if x <= 0.60 then 50.0
      else if x <= 0.70 then 40.0 else if x <= 0.80 then 30.0 else if x <= 0.90 then 20.0
      else 10.0
  {
    var t0 := Utilization;
    LookupStep(t0, x);
    var t1 := t0.Rest();
    LookupStep(t1, x);
    var t2 := t1.Rest();
    LookupStep(t2, x);
    var t3 := t2.Rest();
    LookupStep(t3, x);
    var t4 := t3.Rest();
    LookupStep(t4, x);
    var t5 := t4.Rest();
    LookupStep(t5, x);
    var t6 := t5.Rest();
    LookupStep(t6, x);
    var t7 := t6.Rest();
    LookupStep(t7, x);
    var t8 := t7.Rest();
    LookupStep(t8, x);
    assert t8.Rest().rules == [];
  }

  /** A higher utilization ratio never scores better. */
  lemma UtilizationNonIncreasing(x: real, y: real)
    requires x <= y
    ensures UtilizationScore(y) <= UtilizationScore(x)
  {
    UtilizationSteps(x);
    UtilizationSteps(y);
  }

  // ---------------------------------------------------------------------
  // Length of history
  // ---------------------------------------------------------------------

  /** `>=` steps at 240, 180, 120, 60, 24 and 12 months. */
  const History := Table([
    Rule(AtLeast(240.0), 100.0), Rule(AtLeast(180.0), 95.0), Rule(AtLeast(120.0), 90.0),
    Rule(AtLeast(60.0), 80.0), Rule(AtLeast(24.0), 65.0), Rule(AtLeast(12.0), 50.0)
  ], 30.0)

  function HistoryScore(months: real): (r: real)
    ensures 30.0 <= r <= 100.0
    ensures r in {30.0, 50.0, 65.0, 80.0, 90.0, 95.0, 100.0}
    ensures 240.0 <= months <==> r == 100.0
    ensures months < 12.0 <==> r == 30.0
  {
    HistorySteps(months);
    Min(Lookup(History, months), 100.0)
  }

  /** The table read back as the source's `if / elif` chain. */
  lemma HistorySteps(x: real)
    ensures Lookup(History, x) ==
      if x >= 240.0 then 100.0 else if x >= 180.0 then 95.0 else if x >= 120.0 then 90.0
      else if x >= 60.0 then 80.0 else if x >= 24.0 then 65.0 else if x >= 12.0 then 50.0
      else 30.0
  {
    var t0 := History;
    LookupStep(t0, x);
    var t1 := t0.Rest();
    LookupStep(t1, x);
    var t2 := t1.Rest();
    LookupStep(t2, x);
    var t3 := t2.Rest();
    LookupStep(t3, x);
    var t4 := t3.Rest();
    LookupStep(t4, x);
    var t5 := t4.Rest();
    LookupStep(t5, x);
    assert t5.Rest().rules == [];
  }

  /** A longer history never scores worse. */
  lemma HistoryNonDecreasing(x: real, y: real)
    requires x <= y
    ensures HistoryScore(x) <= HistoryScore(y)
  {
    HistorySteps(x);
    HistorySteps(y);
  }

  // ---------------------------------------------------------------------
  // Credit mix
  // ---------------------------------------------------------------------

  /** Diversity ratio steps: three or four of four types 100, two 80, one 60. */
  const Diversity := Table([
    Rule(AtLeast(0.75), 100.0), Rule(AtLeast(0.50), 80.0), Rule(AtLeast(0.25), 60.0)
  ], 40.0)

  function B(b: bool): nat { if b then 1 else 0 }

  /** How many of the four account kinds have a positive count. */
  function TypeCount(cards: real, retail: real, installment: real, mortgage: real): (n: nat)
    ensures n <= 4
    ensures n == 0 <==> cards <= 0.0 && retail <= 0.0 && installment <= 0.0 && mortgage <= 0.0
    ensures n == 4 <==> 0.0 < cards && 0.0 < retail && 0.0 < installment && 0.0 < mortgage
  {
    B(cards > 0.0) + B(retail > 0.0) + B(installment > 0.0) + B(mortgage > 0.0)
  }

  /** The diversity score of a number of account kinds out of four. */
  function DiversityScore(types: nat): (r: real)
    ensures types == 0 ==> r == 40.0
    ensures types == 1 ==> r == 60.0
    ensures types == 2 ==> r == 80.0
    ensures 3 <= types ==> r == 100.0
  {
    var ratio := types as real / 4.0;
    var k: nat := if ratio >= 0.75 then 0 else if ratio >= 0.50 then 1 else if ratio >= 0.25 then 2 else 3;
    LowerBandLookup(Diversity, ratio, k);
    Lookup(Diversity, ratio)
  }

  /** At least one revolving and at least one installment-type account. */
  predicate GoodMix(cards: real, retail: real, installment: real, mortgage: real) {
    (cards >= 1.0 || retail >= 1.0) && (installment >= 1.0 || mortgage >= 1.0)
  }

  /** The blended mix score in closed form: from 52, every account kind up
      to three and a good mix each add 12 points. */
  function MixPoints(types: nat, good: bool): real {
    52.0 + 12.0 * ((if types >= 3 then 3 else types) as real + (if good then 1.0 else 0.0))
  }

  /** `min(0.6 * diversity + 0.4 * (100 if good mix else 70), 100)` for a
      number of distinct account kinds. */
  function Blend(types: nat, good: bool): (r: real)
    ensures r == MixPoints(types, good)
    ensures r in {52.0, 64.0, 76.0, 88.0, 100.0}
    ensures r == 100.0 <==> good && 3 <= types
    ensures good && 1 <= types ==> 76.0 <= r
    ensures good && 2 <= types ==> 88.0 <= r
    ensures !good ==> r <= 88.0
  {
    var raw := DiversityScore(types) * 0.60 + (if good then 100.0 else 70.0) * 0.40;
    assert raw in {52.0, 64.0, 76.0, 88.0, 100.0} by {
      if types == 0 {} else if types == 1 {} else if types == 2 {} else {}
    }
    Min(raw, 100.0)
  }

  /** The mix score: 30 with no accounts, otherwise one of five blended values. */
  function CreditMixScore(cards: real, retail: real, installment: real, mortgage: real, total: real): (r: real)
    ensures total == 0.0 ==> r == 30.0
    ensures total != 0.0 ==>
      r == MixPoints(TypeCount(cards, retail, installment, mortgage), GoodMix(cards, retail, installment, mortgage))
    ensures r in {30.0, 52.0, 64.0, 76.0, 88.0, 100.0}
    ensures total != 0.0 ==> 52.0 <= r <= 100.0
    ensures total != 0.0 && GoodMix(cards, retail, installment, mortgage) ==> 88.0 <= r
    ensures total != 0.0 && !GoodMix(cards, retail, installment, mortgage) ==> r <= 88.0
    ensures (total != 0.0 && GoodMix(cards, retail, installment, mortgage) &&
             3 <= TypeCount(cards, retail, installment, mortgage)) <==> r == 100.0
  {
    if total == 0.0 then 30.0
    else
      GoodMixHasTwoTypes(cards, retail, installment, mortgage);
      Blend(TypeCount(cards, retail, installment, mortgage), GoodMix(cards, retail, installment, mortgage))
  }

  /** A good mix needs two different account kinds. */
  lemma GoodMixHasTwoTypes(cards: real, retail: real, installment: real, mortgage: real)
    ensures GoodMix(cards, retail, installment, mortgage) ==> 2 <= TypeCount(cards, retail, installment, mortgage)
  {
  }

  /** Counts between 0 and 1 make a kind count towards diversity but not
      towards a good mix. */
  lemma FractionalKinds()
    ensures TypeCount(0.5, 0.0, 0.5, 0.0) == 2
    ensures !GoodMix(0.5, 0.0, 0.5, 0.0)
    ensures CreditMixScore(0.5, 0.0, 0.5, 0.0, 1.0) == 76.0
  {
  }

  // ---------------------------------------------------------------------
  // New credit
  // ---------------------------------------------------------------------

  /** 0, 1 and 2 inquiries score 100, 90 and 75; up to 4 scores 60; more 40. */
  const NewCredit := Table([
    Rule(Exactly(0.0), 100.0), Rule(Exactly(1.0), 90.0), Rule(Exactly(2.0), 75.0),
    Rule(AtMost(4.0), 60.0)
  ], 40.0)

  function NewCreditScore(inquiries: real): (r: real)
    ensures r in {40.0, 60.0, 75.0, 90.0, 100.0}
    ensures inquiries == 0.0 <==> r == 100.0
    ensures 4.0 < inquiries <==> r == 40.0
  {
    NewCreditSteps(inquiries);
    Min(Lookup(NewCredit, inquiries), 100.0)
  }

  /** The table read back as the source's `if / elif` chain. */
  lemma NewCreditSteps(x: real)
    ensures Lookup(NewCredit, x) ==
      if x == 0.0 then 100.0 else if x == 1.0 then 90.0 else if x == 2.0 then 75.0
      else if x <= 4.0 then 60.0 else 40.0
  {
    var t := NewCredit;
    LookupStep(t, x);
    LookupStep(t.Rest(), x);
    LookupStep(t.Rest().Rest(), x);
    LookupStep(t.Rest().Rest().Rest(), x);
    assert t.Rest().Rest().Rest().Rest().rules == [];
  }

  /** On whole numbers of inquiries: 0, 1, 2 score 100, 90, 75, three or
      four 60, five or more 40, so the score never increases. */
  lemma NewCreditNonIncreasing(a: nat, b: nat)
    requires a <= b
    ensures NewCreditScore(b as real) <= NewCreditScore(a as real)
  {
  }

  /** A negative count, or a fractional count up to 4, falls through the
      equality tests to the `<= 4` step; a fractional count above 4 gets
      the final 40. */
  lemma NewCreditOffGrid()
    ensures NewCreditScore(0.5) == 60.0
    ensures NewCreditScore(-1.0) == 60.0
    ensures NewCreditScore(4.5) == 40.0
  {
  }

  // ---------------------------------------------------------------------
  // Composite
  // ---------------------------------------------------------------------

  /** A credit profile: a dictionary from field name to number. */
  type Profile = map<string, real>

  function ComponentScores(p: Profile): (c: Composite.Components)
    ensures c.paymentHistory == PaymentHistoryScore(
      Get(p, "late_payments_30_days", 0.0), Get(p, "late_payments_60_days", 0.0),
      Get(p, "late_payments_90_days", 0.0), Get(p, "months_on_file", 0.0))
    ensures c.amountsOwed == UtilizationScore(Get(p, "credit_utilization_ratio", 0.0))
    ensures c.lengthOfHistory == HistoryScore(Get(p, "credit_history_age_month", 0.0))
    ensures c.creditMix == CreditMixScore(
      Get(p, "num_credit_cards", 0.0), Get(p, "num_retail_accounts", 0.0),
      Get(p, "num_installment_loans", 0.0), Get(p, "num_mortgage_loans", 0.0),
      Get(p, "total_accounts", 0.0))
    ensures c.newCredit == NewCreditScore(Get(p, "inquiries_last_12_months", 0.0))
    ensures -12.0 <= Get(p, "months_on_file", 0.0) ==> InRange(c)
  {
    var months := Get(p, "months_on_file", 0.0);
    var c := Composite.Components(
      PaymentHistoryScore(
        Get(p, "late_payments_30_days", 0.0), Get(p, "late_payments_60_days", 0.0),
        Get(p, "late_payments_90_days", 0.0), months),
      UtilizationScore(Get(p, "credit_utilization_ratio", 0.0)),
      HistoryScore(Get(p, "credit_history_age_month", 0.0)),
      CreditMixScore(
        Get(p, "num_credit_cards", 0.0), Get(p, "num_retail_accounts", 0.0),
        Get(p, "num_installment_loans", 0.0), Get(p, "num_mortgage_loans", 0.0),
        Get(p, "total_accounts", 0.0)),
      NewCreditScore(Get(p, "inquiries_last_12_months", 0.0)));
    if -12.0 <= months then InRangeIntro(c); c else c
  }

  /** `calculate_fico_score`. */
  function FicoScore(p: Profile): (r: ScoreResult)
    ensures r.components == ComponentScores(p)
    ensures -12.0 <= Get(p, "months_on_file", 0.0) ==> 300 <= r.fico <= 850
  {
    FicoWeightsValid();
    Combine(ComponentScores(p), FicoWeights)
  }

  /** A clean file: no late payments on at least a year of file, at most 10%
      utilization, twenty years of history, a good mix of at least three
      kinds and no recent inquiries. */
  predicate CleanFile(p: Profile) {
    && Get(p, "late_payments_30_days", 0.0) == 0.0
    && Get(p, "late_payments_60_days", 0.0) == 0.0
    && Get(p, "late_payments_90_days", 0.0) == 0.0
    && 12.0 <= Get(p, "months_on_file", 0.0)
    && Get(p, "credit_utilization_ratio", 0.0) <= 0.10
    && 240.0 <= Get(p, "credit_history_age_month", 0.0)
    && 1.0 <= Get(p, "num_credit_cards", 0.0)
    && 1.0 <= Get(p, "num_installment_loans", 0.0)
    && 1.0 <= Get(p, "num_mortgage_loans", 0.0)
    && Get(p, "total_accounts", 0.0) != 0.0
    && Get(p, "inquiries_last_12_months", 0.0) == 0.0
  }

  /** A clean file puts every component at 100. */
  lemma CleanComponents(p: Profile)
    requires CleanFile(p)
    ensures ComponentScores(p) == Composite.Components(100.0, 100.0, 100.0, 100.0, 100.0)
  {
    var ph := PaymentHistoryScore(0.0, 0.0, 0.0, Get(p, "months_on_file", 0.0));
    assert ph == 100.0;
    var mix := CreditMixScore(
      Get(p, "num_credit_cards", 0.0), Get(p, "num_retail_accounts", 0.0),
      Get(p, "num_installment_loans", 0.0), Get(p, "num_mortgage_loans", 0.0),
      Get(p, "total_accounts", 0.0));
    assert mix == 100.0;
  }

  /** ... and so scores 850. */
  lemma PerfectProfile(p: Profile)
    requires CleanFile(p)
    ensures FicoScore(p).fico == 850
  {
    CleanComponents(p);
    ScoreOfPerfect();
  }

  /** The empty profile: half-scaled payment history, no history, no accounts. */
  lemma EmptyComponents()
    ensures ComponentScores(map[]) == Composite.Components(50.0, 100.0, 30.0, 30.0, 100.0)
  {
    LateDeduction(0.0, 0.0, 0.0);
  }

  lemma EmptyProfile()
    ensures FicoScore(map[]).fico == 657
  {
    EmptyComponents();
    ScoreOfEmpty();
  }

  /** The profile of the source's example block. */
  const SampleProfile: Profile := map[
    "late_payments_30_days" := 0.0, "late_payments_60_days" := 0.0,
    "late_payments_90_days" := 0.0, "months_on_file" := 120.0,
    "credit_utilization_ratio" := 0.10, "credit_history_age_month" := 60.0,
    "num_credit_cards" := 2.0, "num_retail_accounts" := 1.0,
    "num_installment_loans" := 1.0, "num_mortgage_loans" := 1.0,
    "total_accounts" := 5.0, "inquiries_last_12_months" := 2.0]

  lemma SampleFields()
    ensures Get(SampleProfile, "late_payments_30_days", 0.0) == 0.0
    ensures Get(SampleProfile, "late_payments_60_days", 0.0) == 0.0
    ensures Get(SampleProfile, "late_payments_90_days", 0.0) == 0.0
    ensures Get(SampleProfile, "months_on_file", 0.0) == 120.0
    ensures Get(SampleProfile, "credit_utilization_ratio", 0.0) == 0.10
    ensures Get(SampleProfile, "credit_history_age_month", 0.0) == 60.0
    ensures Get(SampleProfile, "num_credit_cards", 0.0) == 2.0
    ensures Get(SampleProfile, "num_retail_accounts", 0.0) == 1.0
    ensures Get(SampleProfile, "num_installment_loans", 0.0) == 1.0
    ensures Get(SampleProfile, "num_mortgage_loans", 0.0) == 1.0
    ensures Get(SampleProfile, "total_accounts", 0.0) == 5.0
    ensures Get(SampleProfile, "inquiries_last_12_months", 0.0) == 2.0
  {
  }

  lemma SampleComponents()
    ensures ComponentScores(SampleProfile) == Composite.Components(100.0, 100.0, 80.0, 100.0, 75.0)
  {
    SampleFields();
    LateDeduction(0.0, 0.0, 0.0);
    assert PaymentHistoryScore(0.0, 0.0, 0.0, 120.0) == 100.0;
    assert UtilizationScore(0.10) == 100.0;
    assert HistoryScore(60.0) == 80.0 by { HistorySteps(60.0); }
    assert CreditMixScore(2.0, 1.0, 1.0, 1.0, 5.0) == 100.0;
    assert NewCreditScore(2.0) == 75.0 by { NewCreditSteps(2.0); }
  }

  /** The sample's components have base score 94.5 and FICO score 819. */
  lemma SampleCombine()
    ensures Combine(Composite.Components(100.0, 100.0, 80.0, 100.0, 75.0), FicoWeights).fico == 819
  {
    var c := Composite.Components(100.0, 100.0, 80.0, 100.0, 75.0);
    DotOfFive(c.AsSeq(), FicoWeights.AsSeq());
    assert Rescale(94.5, MinScore, MaxScore) == 819.75;
    assert Trunc(819.75) == 819;
    CombineAt(c, FicoWeights, 94.5, 819);
  }

  lemma SampleScore()
    ensures FicoScore(SampleProfile).fico == 819
  {
    SampleComponents();
    SampleCombine();
  }

  /** `analyze_credit_improvement` on a score result. */
  function AnalyzeCreditImprovement(result: ScoreResult): (r: seq<string>)
    ensures |r| == |Advice.Recommend(result.components)| <= 6
    ensures forall i :: 0 <= i < |r| ==> r[i] == Advice.Message(Advice.Recommend(result.components)[i])
    ensures r == [] <==>
      (90.0 <= result.components.paymentHistory && 90.0 <= result.components.amountsOwed &&
       90.0 <= result.components.newCredit && 80.0 <= result.components.creditMix &&
       80.0 <= result.components.lengthOfHistory)
  {
    Advice.Recommendations(result.components)
  }
}
