/** The draft scorer (`FICOScoreModel` in traditional_borrador.py): the same
    tables as the reference scorer, but payment history is counted from the
    raw payment delays, credit mix from the list of loan types, and the
    profile uses the field names of the loan data set. */
module TraditionalDraft {
  import opened Basics
  import opened Text
  import opened PaymentHistory
  import opened Composite
  import Traditional

  // ---------------------------------------------------------------------
  // Payment history
  // ---------------------------------------------------------------------

  /** `calculate_payment_history_score` on a delay argument: the delays are
      counted into the (0,30], (30,60] and (60,90] buckets and the counts
      scored exactly as the reference scorer scores its three counts. */
  function PaymentHistoryScore(delays: Delays, months: real): (r: real)
    ensures r <= 100.0
    ensures -12.0 <= months ==> 0.0 <= r
    ensures var c := Tally(Traditional.LateBuckets, delays);
      r == Traditional.PaymentHistoryScore(c[0], c[1], c[2], months)
  {
    var c := Tally(Traditional.LateBuckets, delays);
    assert c == [c[0], c[1], c[2]];
    BucketScore(Traditional.LateBuckets, delays, months)
  }

  /** A single delay scores as the one-element list holding it. */
  lemma ScalarAsList(d: real, months: real)
    ensures PaymentHistoryScore(One(d), months) == PaymentHistoryScore(Many([d]), months)
  {
    ScalarIsSingleton(Traditional.LateBuckets, d);
  }

  /** The order of the delays does not matter. */
  lemma DelayOrderIrrelevant(ds: seq<real>, es: seq<real>, months: real)
    requires multiset(ds) == multiset(es)
    ensures PaymentHistoryScore(Many(ds), months) == PaymentHistoryScore(Many(es), months)
  {
    CountsPermutation(Traditional.LateBuckets, ds, es, months);
  }

  /** A payment on time (delay at most 0) or more than 90 days late falls in
      no bucket and leaves the score unchanged. */
  lemma UncountedDelay(ds: seq<real>, d: real, months: real)
    requires d <= 0.0 || 90.0 < d
    ensures PaymentHistoryScore(Many(ds + [d]), months) == PaymentHistoryScore(Many(ds), months)
  {
    MissAddsNothing(Traditional.LateBuckets, ds, d);
  }

  /** One more recorded payment never raises the score. */
  lemma ExtraDelay(ds: seq<real>, d: real, months: real)
    requires -12.0 <= months
    ensures PaymentHistoryScore(Many(ds + [d]), months) <= PaymentHistoryScore(Many(ds), months)
  {
    ExtraDelayNeverHelps(Traditional.LateBuckets, ds, d, months);
  }

  /** The bucket edges: each bucket is closed on the right. */
  lemma BucketEdges()
    ensures Tally(Traditional.LateBuckets, One(30.0)) == [1.0, 0.0, 0.0]
    ensures Tally(Traditional.LateBuckets, One(30.5)) == [0.0, 1.0, 0.0]
    ensures Tally(Traditional.LateBuckets, One(90.0)) == [0.0, 0.0, 1.0]
    ensures Tally(Traditional.LateBuckets, One(91.0)) == [0.0, 0.0, 0.0]
    ensures Tally(Traditional.LateBuckets, One(0.0)) == [0.0, 0.0, 0.0]
  {
  }

  // ---------------------------------------------------------------------
  // Credit mix
  // ---------------------------------------------------------------------

  /** The `type_of_loan` value: a comma-separated string, a list, or anything
      else (missing, `None`, a float `NaN`). */
  datatype LoanTypes = Joined(text: string) | Items(items: seq<string>) | Other

  /** `t.strip().lower()`. */
  function Normalize(t: string): string {
    Lower(Strip(t))
  }

  /** The raw pieces before normalization. */
  function Pieces(lt: LoanTypes): seq<string> {
    match lt
    case Joined(s) => Split(s, ',')
    case Items(xs) => xs
    case Other => []
  }

  /** The set of normalized pieces. */
  function NormalizedSet(xs: seq<string>): (r: set<string>)
    ensures |r| <= |xs|
  {
    if |xs| == 0 then {} else {Normalize(xs[0])} + NormalizedSet(xs[1..])
  }

  /** A name is in the set exactly when some piece normalizes to it. */
  lemma {:induction false} NormalizedSetMembers(xs: seq<string>, t: string)
    ensures t in NormalizedSet(xs) <==> exists i :: 0 <= i < |xs| && Normalize(xs[i]) == t
  {
    if |xs| > 0 {
      NormalizedSetMembers(xs[1..], t);
      if t in NormalizedSet(xs[1..]) {
        var j :| 0 <= j < |xs[1..]| && Normalize(xs[1..][j]) == t;
        assert Normalize(xs[j + 1]) == t;
      }
      if exists i :: 0 <= i < |xs| && Normalize(xs[i]) == t {
        var i :| 0 <= i < |xs| && Normalize(xs[i]) == t;
        if i > 0 {
          assert Normalize(xs[1..][i - 1]) == t;
        }
      }
    }
  }

  /** `set(types)`: the distinct normalized loan types. */
  function TypeSet(lt: LoanTypes): set<string> {
    NormalizedSet(Pieces(lt))
  }

  predicate Revolving(t: string) {
    Contains(t, "card") || Contains(t, "retail")
  }

  predicate InstallmentLike(t: string) {
    Contains(t, "installment") || Contains(t, "mortgage")
  }

  /** Some type names a revolving kind and some type an installment kind. */
  predicate GoodMix(types: set<string>) {
    (exists t :: t in types && Revolving(t)) && (exists t :: t in types && InstallmentLike(t))
  }

  /** `calculate_credit_mix_score(num_of_loan, type_of_loan)`. */
  function CreditMixScore(numOfLoan: real, lt: LoanTypes): (r: real)
    ensures numOfLoan == 0.0 ==> r == 30.0
    ensures numOfLoan != 0.0 ==> r == Traditional.MixPoints(|TypeSet(lt)|, GoodMix(TypeSet(lt)))
    ensures numOfLoan != 0.0 ==> r in {52.0, 64.0, 76.0, 88.0, 100.0}
    ensures r == 100.0 <==> numOfLoan != 0.0 && GoodMix(TypeSet(lt)) && 3 <= |TypeSet(lt)|
    ensures numOfLoan != 0.0 && lt.Other? ==> r == 52.0
    ensures numOfLoan != 0.0 && GoodMix(TypeSet(lt)) && 2 <= |TypeSet(lt)| ==> 88.0 <= r
    ensures numOfLoan != 0.0 && !GoodMix(TypeSet(lt)) ==> r <= 88.0
  {
    if numOfLoan == 0.0 then 30.0
    else
      var types := TypeSet(lt);
      Traditional.Blend(|types|, GoodMix(types))
  }

  /** "card mortgage" mentions a revolving and an installment keyword. */
  lemma CardMortgageKeywords()
    ensures Revolving("card mortgage") && InstallmentLike("card mortgage")
  {
    var t := "card " + "mortgage";
    assert t == "card mortgage";
    assert t[0..4] == "card";
    assert t[5..13] == "mortgage";
    assert OccursAt(t, "card", 0);
    assert OccursAt(t, "mortgage", 5);
    ContainsIffOccurs(t, "card");
    ContainsIffOccurs(t, "mortgage");
  }

  /** A type name without surrounding whitespace or capitals is already
      normalized. */
  lemma NormalizeFixed(t: string)
    requires |t| == 0 || (!IsSpace(t[0]) && !IsSpace(t[|t| - 1]))
    requires Text.NoUpper(t)
    ensures Normalize(t) == t
  {
    Text.StripOfTrimmed(t);
    Text.LowerOfNoUpper(t);
  }

  lemma CardMortgageNormal()
    ensures Normalize("card mortgage") == "card mortgage"
  {
    NormalizeFixed("card mortgage");
  }

  /** One type name can carry both kinds of keyword: a single such type
      is already a good mix, and scores 76. */
  lemma OneTypeGoodMix()
    ensures TypeSet(Items(["card mortgage"])) == {"card mortgage"}
    ensures GoodMix({"card mortgage"})
    ensures CreditMixScore(1.0, Items(["card mortgage"])) == 76.0
  {
    CardMortgageKeywords();
    CardMortgageNormal();
    assert NormalizedSet(["card mortgage"]) == {"card mortgage"} by {
      assert ["card mortgage"][1..] == [];
    }
  }

  /** Normalizing a concatenation unites the two sets. */
  lemma {:induction false} NormalizedSetAppend(xs: seq<string>, ys: seq<string>)
    ensures NormalizedSet(xs + ys) == NormalizedSet(xs) + NormalizedSet(ys)
  {
    if |xs| == 0 {
      assert xs + ys == ys;
    } else {
      assert (xs + ys)[1..] == xs[1..] + ys;
      NormalizedSetAppend(xs[1..], ys);
    }
  }

  /** A type listed twice counts once. */
  lemma RepeatedType(numOfLoan: real, xs: seq<string>, k: nat)
    requires k < |xs|
    ensures CreditMixScore(numOfLoan, Items(xs + [xs[k]])) == CreditMixScore(numOfLoan, Items(xs))
  {
    NormalizedSetAppend(xs, [xs[k]]);
    assert NormalizedSet([xs[k]]) == {Normalize(xs[k])};
    NormalizedSetMembers(xs, Normalize(xs[k]));
    assert NormalizedSet(xs + [xs[k]]) == NormalizedSet(xs);
  }

  /** A comma-separated string scores as the list of its pieces, and a list
      of comma-free names scores as the string that joins them. */
  lemma JoinedAsItems(numOfLoan: real, xs: seq<string>)
    requires |xs| > 0
    requires forall i :: 0 <= i < |xs| ==> ',' !in xs[i]
    ensures CreditMixScore(numOfLoan, Joined(Join(xs, ','))) == CreditMixScore(numOfLoan, Items(xs))
  {
    SplitJoin(xs, ',');
  }

  /** Repeating the whole list of types changes nothing. */
  lemma RepeatedText(numOfLoan: real, s: string)
    ensures CreditMixScore(numOfLoan, Joined(s + "," + s)) == CreditMixScore(numOfLoan, Joined(s))
  {
    SplitAppend(s, s, ',');
    var p := Split(s, ',');
    NormalizedSetAppend(p, p);
    assert s + "," + s == s + [','] + s;
  }

  /** The empty string still splits into one (empty) type. */
  lemma EmptyText()
    ensures TypeSet(Joined("")) == {""}
    ensures CreditMixScore(1.0, Joined("")) == 64.0
  {
    assert Split("", ',') == [""];
    assert Normalize("") == "";
  }

  // ---------------------------------------------------------------------
  // Composite
  // ---------------------------------------------------------------------

  /** The fields `calculate_fico_score` reads; `None` is a missing key. */
  datatype Profile = Profile(
    delayFromDueDate: Option<Delays>,
    creditHistoryAge: Option<real>,
    creditUtilizationRatio: Option<real>,
    numOfLoan: Option<real>,
    typeOfLoan: Option<LoanTypes>,
    numCreditInquiries: Option<real>)

  /** The five component scores, with the source's defaults for missing keys:
      no delays, age 0, utilization 0, no loans, no types, no inquiries. */
  function ComponentScores(p: Profile): (c: Components)
    ensures c.paymentHistory == PaymentHistoryScore(p.delayFromDueDate.GetOr(Many([])), p.creditHistoryAge.GetOr(0.0))
    ensures c.amountsOwed == Traditional.UtilizationScore(p.creditUtilizationRatio.GetOr(0.0))
    ensures c.lengthOfHistory == Traditional.HistoryScore(p.creditHistoryAge.GetOr(0.0))
    ensures c.creditMix == CreditMixScore(p.numOfLoan.GetOr(0.0), p.typeOfLoan.GetOr(Other))
    ensures c.newCredit == Traditional.NewCreditScore(p.numCreditInquiries.GetOr(0.0))
    ensures -12.0 <= p.creditHistoryAge.GetOr(0.0) ==> InRange(c)
  {
    var age := p.creditHistoryAge.GetOr(0.0);
    var pay := PaymentHistoryScore(p.delayFromDueDate.GetOr(Many([])), age);
    var owed := Traditional.UtilizationScore(p.creditUtilizationRatio.GetOr(0.0));
    var history := Traditional.HistoryScore(age);
    var mix := CreditMixScore(p.numOfLoan.GetOr(0.0), p.typeOfLoan.GetOr(Other));
    var inquiries := Traditional.NewCreditScore(p.numCreditInquiries.GetOr(0.0));
    var c := Components(pay, owed, history, mix, inquiries);
    if -12.0 <= age then InRangeIntro(c); c else c
  }

  /** `calculate_fico_score`. */
  function FicoScore(p: Profile): (r: ScoreResult)
    ensures r.components == ComponentScores(p)
    ensures -12.0 <= p.creditHistoryAge.GetOr(0.0) ==> 300 <= r.fico <= 850
  {
    FicoWeightsValid();
    Combine(ComponentScores(p), FicoWeights)
  }

  /** The credit age feeds both the short-file scaling and the history
      table, so an older file never scores worse, everything else equal. */
  lemma OlderFileNeverWorse(p: Profile, a1: real, a2: real)
    requires a1 <= a2
    ensures FicoScore(p.(creditHistoryAge := Some(a1))).fico <= FicoScore(p.(creditHistoryAge := Some(a2))).fico
  {
    var p1, p2 := p.(creditHistoryAge := Some(a1)), p.(creditHistoryAge := Some(a2));
    var delays := p.delayFromDueDate.GetOr(Many([]));
    var d := Deduction(Traditional.LateBuckets, Tally(Traditional.LateBuckets, delays));
    ScoreNonDecreasingInMonths(d, a1, a2);
    assert PaymentHistoryScore(delays, a1) <= PaymentHistoryScore(delays, a2);
    Traditional.HistoryNonDecreasing(a1, a2);
    var c1, c2 := ComponentScores(p1), ComponentScores(p2);
    PointwiseIntro(c1, c2);
    CombineMonotone(c1, c2, FicoWeights);
  }

  /** An empty profile: half-scaled perfect payment history, no history, no loans. */
  lemma EmptyComponents()
    ensures ComponentScores(Profile(None, None, None, None, None, None))
         == Components(50.0, 100.0, 30.0, 30.0, 100.0)
  {
    assert PaymentHistoryScore(Many([]), 0.0) == 50.0 by {
      assert Tally(Traditional.LateBuckets, Many([])) == [0.0, 0.0, 0.0];
      Traditional.LateDeduction(0.0, 0.0, 0.0);
    }
    assert Traditional.HistoryScore(0.0) == 30.0;
    assert CreditMixScore(0.0, Other) == 30.0;
  }

  lemma EmptyProfile()
    ensures FicoScore(Profile(None, None, None, None, None, None)).fico == 657
  {
    EmptyComponents();
    ScoreOfEmpty();
  }
}
