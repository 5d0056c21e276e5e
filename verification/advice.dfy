/** `analyze_credit_improvement`: which improvement messages a set of
    component scores earns, and in which order. */
module Advice {
  import opened Composite

  datatype Tip =
    | PayOnTime
    | ReduceBalances
    | PayDownDebt
    | LimitApplications
    | Diversify
    | KeepOldAccounts

  /** The message text the source appends for each tip. */
  function Message(t: Tip): string {
    match t
    case PayOnTime => "Focus on making all payments on time. This is the most important factor."
    case ReduceBalances => "Work on reducing credit card balances to below 10% of your credit limits."
    case PayDownDebt => "Pay down existing debt, particularly revolving credit balances."
    case LimitApplications => "Limit applications for new credit in the next 6-12 months."
    case Diversify => "Consider diversifying your credit portfolio with different types of credit."
    case KeepOldAccounts => "Keep older accounts open to maintain a longer credit history."
  }

  /** Position of a tip in the output: the order in which the checks run. */
  function Rank(t: Tip): nat {
    match t
    case PayOnTime => 0
    case ReduceBalances => 1
    case PayDownDebt => 2
    case LimitApplications => 3
    case Diversify => 4
    case KeepOldAccounts => 5
  }

  /** The threshold each tip answers to: below 90 for payment history,
      amounts owed and new credit, below 80 for credit mix and history. */
  predicate Triggered(t: Tip, c: Components) {
    match t
    case PayOnTime => c.paymentHistory < 90.0
    case ReduceBalances => c.amountsOwed < 90.0
    case PayDownDebt => c.amountsOwed < 90.0
    case LimitApplications => c.newCredit < 90.0
    case Diversify => c.creditMix < 80.0
    case KeepOldAccounts => c.lengthOfHistory < 80.0
  }

  predicate StrictlyRanked(ts: seq<Tip>) {
    forall i, j :: 0 <= i < j < |ts| ==> Rank(ts[i]) < Rank(ts[j])
  }

  /** Two ranked runs, all of the first ranked below `k` and all of the
      second at or above it, stay ranked when joined. */
  lemma RankedAppend(a: seq<Tip>, b: seq<Tip>, k: nat)
    requires StrictlyRanked(a) && StrictlyRanked(b)
    requires forall i :: 0 <= i < |a| ==> Rank(a[i]) < k
    requires forall i :: 0 <= i < |b| ==> k <= Rank(b[i])
    ensures StrictlyRanked(a + b)
  {
    forall i, j | 0 <= i < j < |a + b|
      ensures Rank((a + b)[i]) < Rank((a + b)[j])
    {
      if j < |a| {
      } else if i < |a| {
        assert (a + b)[j] == b[j - |a|];
      } else {
        assert (a + b)[i] == b[i - |a|] && (a + b)[j] == b[j - |a|];
      }
    }
  }

  /** The tips each check appends, in the order the checks run. */
  function Checks(c: Components): seq<seq<Tip>> {
    [if c.paymentHistory < 90.0 then [PayOnTime] else [],
     if c.amountsOwed < 90.0 then [ReduceBalances, PayDownDebt] else [],
     if c.newCredit < 90.0 then [LimitApplications] else [],
     if c.creditMix < 80.0 then [Diversify] else [],
     if c.lengthOfHistory < 80.0 then [KeepOldAccounts] else []]
  }

  /** Everything the checks append, in order. */
  function Appended(c: Components): seq<Tip> {
    var p := Checks(c);
    p[0] + p[1] + p[2] + p[3] + p[4]
  }

  /** A tip is appended exactly when its threshold is crossed. */
  lemma AppendedMember(c: Components, t: Tip)
    ensures t in Appended(c) <==> Triggered(t, c)
  {
    var p := Checks(c);
    assert t in Appended(c) <==> t in p[0] || t in p[1] || t in p[2] || t in p[3] || t in p[4];
  }

  lemma AppendedMembers(c: Components)
    ensures forall t :: t in Appended(c) <==> Triggered(t, c)
  {
    forall t
      ensures t in Appended(c) <==> Triggered(t, c)
    {
      AppendedMember(c, t);
    }
  }

  /** Nothing is appended exactly when every threshold is met. */
  lemma AppendedEmpty(c: Components)
    ensures |Appended(c)| == 0 <==>
      (90.0 <= c.paymentHistory && 90.0 <= c.amountsOwed && 90.0 <= c.newCredit &&
       80.0 <= c.creditMix && 80.0 <= c.lengthOfHistory)
  {
    var p := Checks(c);
    assert |Appended(c)| == |p[0]| + |p[1]| + |p[2]| + |p[3]| + |p[4]|;
  }

  /** The appended tips come out in check order. */
  lemma AppendedRanked(c: Components)
    ensures StrictlyRanked(Appended(c))
  {
    var p := Checks(c);
    RankedAppend(p[0], p[1], 1);
    RankedAppend(p[0] + p[1], p[2], 3);
    RankedAppend(p[0] + p[1] + p[2], p[3], 4);
    RankedAppend(p[0] + p[1] + p[2] + p[3], p[4], 5);
  }

  /** The checks in the order the source runs them. */
  function Recommend(c: Components): (r: seq<Tip>)
    ensures forall t :: t in r <==> Triggered(t, c)
    ensures StrictlyRanked(r)
    ensures |r| == 0 <==>
      (90.0 <= c.paymentHistory && 90.0 <= c.amountsOwed && 90.0 <= c.newCredit &&
       80.0 <= c.creditMix && 80.0 <= c.lengthOfHistory)
  {
    AppendedMembers(c);
    AppendedRanked(c);
    AppendedEmpty(c);
    Appended(c)
  }

  /** The recommendations as the list of strings the source returns. */
  function Recommendations(c: Components): (r: seq<string>)
    ensures |r| == |Recommend(c)|
    ensures forall i :: 0 <= i < |r| ==> r[i] == Message(Recommend(c)[i])
  {
    var tips := Recommend(c);
    seq(|tips|, i requires 0 <= i < |tips| => Message(tips[i]))
  }

  /** A perfect profile earns no advice, and a component just below its
      threshold earns exactly its own tips. */
  lemma RecommendExamples()
    ensures Recommend(Components(100.0, 100.0, 100.0, 100.0, 100.0)) == []
    ensures Recommend(Components(100.0, 89.0, 100.0, 100.0, 100.0)) == [ReduceBalances, PayDownDebt]
    ensures Recommend(Components(50.0, 100.0, 75.0, 52.0, 40.0))
         == [PayOnTime, LimitApplications, Diversify, KeepOldAccounts]
  {
  }
}
