/** Step tables: the shape shared by every per-factor scorer.

    A scorer written as an `if / elif / else` chain is a `Table`: the first
    rule whose condition holds gives the score, and `otherwise` is the final
    `else`.  A scorer written as a sequence of `np.where(mask, value, acc)`
    updates is an `Overlay`: every mask is applied in turn, so the LAST rule
    whose condition holds wins, and the initial array value survives where no
    mask holds. */
module StepTable {

  /** A condition on one numeric field, in the forms the scorers use. */
  datatype Cond =
    | AtMost(bound: real)          // x <= bound
    | Below(bound: real)           // x <  bound
    | AtLeast(bound: real)         // x >= bound
    | Above(bound: real)           // x >  bound
    | Exactly(bound: real)         // x == bound
    | Within(lo: real, hi: real)   // lo <  x <= hi
    | Span(lo: real, hi: real)     // lo <= x <  hi

  predicate Holds(c: Cond, x: real) {
    match c
    case AtMost(b) => x <= b
    case Below(b) => x < b
    case AtLeast(b) => x >= b
    case Above(b) => x > b
    case Exactly(b) => x == b
    case Within(lo, hi) => lo < x <= hi
    case Span(lo, hi) => lo <= x < hi
  }

  /** Conditions that, once true, stay true for every smaller value. */
  predicate IsUpper(c: Cond) {
    c.AtMost? || c.Below?
  }

  /** Conditions that, once true, stay true for every larger value. */
  predicate IsLower(c: Cond) {
    c.AtLeast? || c.Above?
  }

  datatype Rule = Rule(cond: Cond, score: real)

  datatype Table = Table(rules: seq<Rule>, otherwise: real) {
    function Rest(): Table
      requires |rules| > 0
    {
      Table(rules[1..], otherwise)
    }
  }

  // ---------------------------------------------------------------------
  // First-match lookup (if / elif / else)
  // ---------------------------------------------------------------------

  /** Index of the first rule whose condition holds, or `|rules|` if none does. */
  function FirstHit(rules: seq<Rule>, x: real): (i: nat)
    ensures i <= |rules|
    ensures i < |rules| ==> Holds(rules[i].cond, x)
    ensures forall j :: 0 <= j < i ==> !Holds(rules[j].cond, x)
  {
    if |rules| == 0 then 0
    else if Holds(rules[0].cond, x) then 0
    else 1 + FirstHit(rules[1..], x)
  }

  /** The score in position `i`, the `else` score standing after the last rule. */
  function ScoreAt(t: Table, i: nat): real
    requires i <= |t.rules|
  {
    if i < |t.rules| then t.rules[i].score else t.otherwise
  }

  /** Every score the table can produce. */
  function Scores(t: Table): set<real>
    decreases |t.rules|
  {
    if |t.rules| == 0 then {t.otherwise}
    else {t.rules[0].score} + Scores(t.Rest())
  }

  lemma {:induction false} ScoreAtIsListed(t: Table, i: nat)
    requires i <= |t.rules|
    ensures ScoreAt(t, i) in Scores(t)
    decreases |t.rules|
  {
    if 0 < i {
      ScoreAtIsListed(t.Rest(), i - 1);
    }
  }

  /** The value of an `if / elif / else` chain at `x`. */
  function Lookup(t: Table, x: real): (r: real)
    ensures r in Scores(t)
    ensures forall i :: (0 <= i < |t.rules| && Holds(t.rules[i].cond, x) &&
                         (forall j :: 0 <= j < i ==> !Holds(t.rules[j].cond, x)))
                        ==> r == t.rules[i].score
    ensures (forall j :: 0 <= j < |t.rules| ==> !Holds(t.rules[j].cond, x)) ==> r == t.otherwise
  {
    var i := FirstHit(t.rules, x);
    ScoreAtIsListed(t, i);
    ScoreAt(t, i)
  }

  /** The first rule that holds gives the value: the chain is read one rule
      at a time. */
  lemma LookupStep(t: Table, x: real)
    requires |t.rules| > 0
    ensures Lookup(t, x) == if Holds(t.rules[0].cond, x) then t.rules[0].score else Lookup(t.Rest(), x)
  {
    if !Holds(t.rules[0].cond, x) {
      var i := FirstHit(t.rules[1..], x);
      assert FirstHit(t.rules, x) == 1 + i;
    }
  }

  // ---------------------------------------------------------------------
  // Monotonicity of first-match tables
  // ---------------------------------------------------------------------

  /** Every rule is an upper bound (`<=` or `<`). */
  predicate Upper(rules: seq<Rule>) {
    |rules| == 0 || (IsUpper(rules[0].cond) && Upper(rules[1..]))
  }

  /** Every rule is a lower bound (`>=` or `>`). */
  predicate Lower(rules: seq<Rule>) {
    |rules| == 0 || (IsLower(rules[0].cond) && Lower(rules[1..]))
  }

  /** Scores never increase from one position to the next (the `else` last). */
  predicate Descends(t: Table)
    decreases |t.rules|
  {
    |t.rules| == 0 || (ScoreAt(t, 1) <= t.rules[0].score && Descends(t.Rest()))
  }

  /** Scores never decrease from one position to the next (the `else` last). */
  predicate Ascends(t: Table)
    decreases |t.rules|
  {
    |t.rules| == 0 || (t.rules[0].score <= ScoreAt(t, 1) && Ascends(t.Rest()))
  }

  /** With upper-bound rules a larger value is caught no earlier. */
  lemma {:induction false} FirstHitUpper(rules: seq<Rule>, x: real, y: real)
    requires Upper(rules) && x <= y
    ensures FirstHit(rules, x) <= FirstHit(rules, y)
  {
    if |rules| > 0 && !Holds(rules[0].cond, x) {
      assert !Holds(rules[0].cond, y);
      FirstHitUpper(rules[1..], x, y);
    }
  }

  /** With lower-bound rules a larger value is caught no later. */
  lemma {:induction false} FirstHitLower(rules: seq<Rule>, x: real, y: real)
    requires Lower(rules) && x <= y
    ensures FirstHit(rules, y) <= FirstHit(rules, x)
  {
    if |rules| > 0 && !Holds(rules[0].cond, y) {
      assert !Holds(rules[0].cond, x);
      FirstHitLower(rules[1..], x, y);
    }
  }

  lemma {:induction false} DescendsPairwise(t: Table, i: nat, j: nat)
    requires Descends(t) && i <= j <= |t.rules|
    ensures ScoreAt(t, j) <= ScoreAt(t, i)
    decreases |t.rules|
  {
    if i < j {
      if i == 0 {
        DescendsPairwise(t.Rest(), 0, j - 1);
      } else {
        DescendsPairwise(t.Rest(), i - 1, j - 1);
      }
    }
  }

  lemma {:induction false} AscendsPairwise(t: Table, i: nat, j: nat)
    requires Ascends(t) && i <= j <= |t.rules|
    ensures ScoreAt(t, i) <= ScoreAt(t, j)
    decreases |t.rules|
  {
    if i < j {
      if i == 0 {
        AscendsPairwise(t.Rest(), 0, j - 1);
      } else {
        AscendsPairwise(t.Rest(), i - 1, j - 1);
      }
    }
  }

  /** A table of upper bounds with falling scores, or of lower bounds with
      rising scores, never rewards a larger value. */
  lemma LookupNonIncreasing(t: Table, x: real, y: real)
    requires x <= y
    requires (Upper(t.rules) && Descends(t)) || (Lower(t.rules) && Ascends(t))
    ensures Lookup(t, y) <= Lookup(t, x)
  {
    if Upper(t.rules) && Descends(t) {
      FirstHitUpper(t.rules, x, y);
      DescendsPairwise(t, FirstHit(t.rules, x), FirstHit(t.rules, y));
    } else {
      FirstHitLower(t.rules, x, y);
      AscendsPairwise(t, FirstHit(t.rules, y), FirstHit(t.rules, x));
    }
  }

  /** A table of upper bounds with rising scores, or of lower bounds with
      falling scores, never penalises a larger value. */
  lemma LookupNonDecreasing(t: Table, x: real, y: real)
    requires x <= y
    requires (Upper(t.rules) && Ascends(t)) || (Lower(t.rules) && Descends(t))
    ensures Lookup(t, x) <= Lookup(t, y)
  {
    if Upper(t.rules) && Ascends(t) {
      FirstHitUpper(t.rules, x, y);
      AscendsPairwise(t, FirstHit(t.rules, x), FirstHit(t.rules, y));
    } else {
      FirstHitLower(t.rules, x, y);
      DescendsPairwise(t, FirstHit(t.rules, y), FirstHit(t.rules, x));
    }
  }

  // ---------------------------------------------------------------------
  // Sequential masks (np.where chains)
  // ---------------------------------------------------------------------

  /** Applies `acc = np.where(cond, score, acc)` for every rule in order. */
  function Overlay(rules: seq<Rule>, x: real, acc: real): real
  {
    if |rules| == 0 then acc
    else Overlay(rules[1..], x, if Holds(rules[0].cond, x) then rules[0].score else acc)
  }

  /** Index of the last rule whose condition holds, or -1 if none does. */
  function LastHit(rules: seq<Rule>, x: real): (i: int)
    ensures -1 <= i < |rules|
    ensures 0 <= i ==> Holds(rules[i].cond, x)
    ensures forall j :: i < j < |rules| ==> !Holds(rules[j].cond, x)
  {
    if |rules| == 0 then -1
    else
      var k := LastHit(rules[1..], x);
      if 0 <= k then k + 1
      else if Holds(rules[0].cond, x) then 0
      else -1
  }

  /** Applying the masks in order leaves the score of the last mask that
      holds, or the initial value where none holds. */
  lemma {:induction false} OverlayIsLastHit(rules: seq<Rule>, x: real, acc: real)
    ensures var i := LastHit(rules, x);
            Overlay(rules, x, acc) == if 0 <= i then rules[i].score else acc
  {
    if |rules| > 0 {
      var acc' := if Holds(rules[0].cond, x) then rules[0].score else acc;
      OverlayIsLastHit(rules[1..], x, acc');
    }
  }

  /** If rule `k` holds and no later rule does, the chain yields rule `k`'s score. */
  lemma OverlayPicks(rules: seq<Rule>, x: real, acc: real, k: nat)
    requires k < |rules| && Holds(rules[k].cond, x)
    requires forall j :: k < j < |rules| ==> !Holds(rules[j].cond, x)
    ensures Overlay(rules, x, acc) == rules[k].score
  {
    OverlayIsLastHit(rules, x, acc);
  }

  // ---------------------------------------------------------------------
  // From if-chains to disjoint masks
  // ---------------------------------------------------------------------

  /** Every rule is `x <= b`, and the bounds never decrease. */
  predicate AscendingAtMost(rules: seq<Rule>) {
    |rules| == 0 ||
    (rules[0].cond.AtMost? &&
     (|rules| == 1 || (rules[1].cond.AtMost? && rules[0].cond.bound <= rules[1].cond.bound)) &&
     AscendingAtMost(rules[1..]))
  }

  /** Every rule is `x >= b`, and the bounds never increase. */
  predicate DescendingAtLeast(rules: seq<Rule>) {
    |rules| == 0 ||
    (rules[0].cond.AtLeast? &&
     (|rules| == 1 || (rules[1].cond.AtLeast? && rules[1].cond.bound <= rules[0].cond.bound)) &&
     DescendingAtLeast(rules[1..]))
  }

  lemma {:induction false} AscendingAtMostAt(rules: seq<Rule>, i: nat, j: nat)
    requires AscendingAtMost(rules) && i <= j < |rules|
    ensures rules[i].cond.AtMost? && rules[j].cond.AtMost?
    ensures rules[i].cond.bound <= rules[j].cond.bound
  {
    if 0 < i {
      AscendingAtMostAt(rules[1..], i - 1, j - 1);
    } else if 0 < j {
      AscendingAtMostAt(rules[1..], 0, j - 1);
    }
  }

  lemma {:induction false} DescendingAtLeastAt(rules: seq<Rule>, i: nat, j: nat)
    requires DescendingAtLeast(rules) && i <= j < |rules|
    ensures rules[i].cond.AtLeast? && rules[j].cond.AtLeast?
    ensures rules[j].cond.bound <= rules[i].cond.bound
  {
    if 0 < i {
      DescendingAtLeastAt(rules[1..], i - 1, j - 1);
    } else if 0 < j {
      DescendingAtLeastAt(rules[1..], 0, j - 1);
    }
  }

  /** In an ascending `<=` chain, a value caught by rule `k` but not by
      rule `k - 1` gets rule `k`'s score; `k = |rules|` is the `else`. */
  lemma UpperBandLookup(t: Table, x: real, k: nat)
    requires AscendingAtMost(t.rules) && k <= |t.rules|
    requires k < |t.rules| ==> Holds(t.rules[k].cond, x)
    requires 0 < k ==> !Holds(t.rules[k - 1].cond, x)
    ensures Lookup(t, x) == ScoreAt(t, k)
  {
    forall j | 0 <= j < k
      ensures !Holds(t.rules[j].cond, x)
    {
      AscendingAtMostAt(t.rules, j, k - 1);
    }
    var i := FirstHit(t.rules, x);
    assert i == k;
  }

  /** In a descending `>=` chain, a value caught by rule `k` but not by
      rule `k - 1` gets rule `k`'s score; `k = |rules|` is the `else`. */
  lemma LowerBandLookup(t: Table, x: real, k: nat)
    requires DescendingAtLeast(t.rules) && k <= |t.rules|
    requires k < |t.rules| ==> Holds(t.rules[k].cond, x)
    requires 0 < k ==> !Holds(t.rules[k - 1].cond, x)
    ensures Lookup(t, x) == ScoreAt(t, k)
  {
    forall j | 0 <= j < k
      ensures !Holds(t.rules[j].cond, x)
    {
      DescendingAtLeastAt(t.rules, j, k - 1);
    }
    var i := FirstHit(t.rules, x);
    assert i == k;
  }

  /** The masks `x <= b0`, `b0 < x <= b1`, ..., `x > b(n-1)` of an ascending
      `<=` chain, each carrying the chain's score for that band. */
  function UpperBands(t: Table): seq<Rule>
    requires |t.rules| > 0 && AscendingAtMost(t.rules)
  {
    var n := |t.rules|;
    AscendingAtMostAt(t.rules, 0, 0);
    seq(n + 1, k requires 0 <= k <= n =>
      if k == 0 then t.rules[0]
      else if k < n then
        AscendingAtMostAt(t.rules, k - 1, k);
        Rule(Within(t.rules[k - 1].cond.bound, t.rules[k].cond.bound), t.rules[k].score)
      else
        AscendingAtMostAt(t.rules, n - 1, n - 1);
        Rule(Above(t.rules[n - 1].cond.bound), t.otherwise))
  }

  /** The masks `x >= b0`, `b1 <= x < b0`, ..., `x < b(n-1)` of a descending
      `>=` chain, each carrying the chain's score for that band. */
  function LowerBands(t: Table): seq<Rule>
    requires |t.rules| > 0 && DescendingAtLeast(t.rules)
  {
    var n := |t.rules|;
    DescendingAtLeastAt(t.rules, 0, 0);
    seq(n + 1, k requires 0 <= k <= n =>
      if k == 0 then t.rules[0]
      else if k < n then
        DescendingAtLeastAt(t.rules, k - 1, k);
        Rule(Span(t.rules[k].cond.bound, t.rules[k - 1].cond.bound), t.rules[k].score)
      else
        DescendingAtLeastAt(t.rules, n - 1, n - 1);
        Rule(Below(t.rules[n - 1].cond.bound), t.otherwise))
  }

  /** Rewriting an ascending `<=` chain as disjoint masks changes no score. */
  lemma UpperBandsAgree(t: Table, x: real, acc: real)
    requires |t.rules| > 0 && AscendingAtMost(t.rules)
    ensures Overlay(UpperBands(t), x, acc) == Lookup(t, x)
  {
    var n := |t.rules|;
    var bands := UpperBands(t);
    var k := FirstHit(t.rules, x);
    if k == 0 {
      assert Holds(bands[0].cond, x);
    } else if k < n {
      AscendingAtMostAt(t.rules, k - 1, k);
      assert !Holds(t.rules[k - 1].cond, x);
      assert Holds(bands[k].cond, x);
    } else {
      AscendingAtMostAt(t.rules, n - 1, n - 1);
      assert !Holds(t.rules[n - 1].cond, x);
      assert Holds(bands[n].cond, x);
    }
    forall j | k < j <= n
      ensures !Holds(bands[j].cond, x)
    {
      AscendingAtMostAt(t.rules, k, j - 1);
      if j < n {
        AscendingAtMostAt(t.rules, j - 1, j);
      }
    }
    OverlayPicks(bands, x, acc, k);
  }

  /** Rewriting a descending `>=` chain as disjoint masks changes no score. */
  lemma LowerBandsAgree(t: Table, x: real, acc: real)
    requires |t.rules| > 0 && DescendingAtLeast(t.rules)
    ensures Overlay(LowerBands(t), x, acc) == Lookup(t, x)
  {
    var n := |t.rules|;
    var bands := LowerBands(t);
    var k := FirstHit(t.rules, x);
    if k == 0 {
      assert Holds(bands[0].cond, x);
    } else if k < n {
      DescendingAtLeastAt(t.rules, k - 1, k);
      assert !Holds(t.rules[k - 1].cond, x);
      assert Holds(bands[k].cond, x);
    } else {
      DescendingAtLeastAt(t.rules, n - 1, n - 1);
      assert !Holds(t.rules[n - 1].cond, x);
      assert Holds(bands[n].cond, x);
    }
    forall j | k < j <= n
      ensures !Holds(bands[j].cond, x)
    {
      DescendingAtLeastAt(t.rules, k, j - 1);
      if j < n {
        DescendingAtLeastAt(t.rules, j - 1, j);
      }
    }
    OverlayPicks(bands, x, acc, k);
  }
}
