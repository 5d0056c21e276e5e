/** The Python string operations the credit-mix scorers rely on:
    `str.strip()`, `str.lower()`, `str.split(',')` and the `in` substring test.
    Only ASCII case and whitespace are modelled. */
module Text {

  /** Python's `str.isspace()` on ASCII characters. */
  predicate IsSpace(c: char) {
    c == ' ' || c == '\t' || c == '\n' || c == '\r' || c == '\U{0B}' || c == '\U{0C}' ||
    ('\U{1C}' <= c <= '\U{1F}')
  }

  /** Number of leading whitespace characters. */
  function LeadingSpaces(s: string): (k: nat)
    ensures k <= |s|
    ensures forall i :: 0 <= i < k ==> IsSpace(s[i])
    ensures k == |s| || !IsSpace(s[k])
  {
    if |s| > 0 && IsSpace(s[0]) then 1 + LeadingSpaces(s[1..]) else 0
  }

  /** Position where the trailing whitespace begins. */
  function TrailingStart(s: string): (k: nat)
    ensures k <= |s|
    ensures forall i :: k <= i < |s| ==> IsSpace(s[i])
    ensures k == 0 || !IsSpace(s[k - 1])
  {
    if |s| > 0 && IsSpace(s[|s| - 1]) then TrailingStart(s[..|s| - 1]) else |s|
  }

  /** `s.strip()`: the text between the leading and the trailing whitespace. */
  function Strip(s: string): (r: string)
    ensures r == [] || (!IsSpace(r[0]) && !IsSpace(r[|r| - 1]))
    ensures exists i, j :: 0 <= i <= j <= |s| && r == s[i..j]
  {
    var t := s[LeadingSpaces(s)..];
    var r := t[..TrailingStart(t)];
    assert r == s[LeadingSpaces(s)..LeadingSpaces(s) + TrailingStart(t)];
    r
  }

  /** Text that neither starts nor ends with whitespace strips to itself. */
  lemma StripOfTrimmed(s: string)
    requires |s| == 0 || (!IsSpace(s[0]) && !IsSpace(s[|s| - 1]))
    ensures Strip(s) == s
  {
    assert LeadingSpaces(s) == 0;
    assert s[0..] == s;
    assert TrailingStart(s) == |s|;
    assert s[..|s|] == s;
  }

  function LowerChar(c: char): char {
    if 'A' <= c <= 'Z' then (c as int - 'A' as int + 'a' as int) as char else c
  }

  /** `s.lower()` on ASCII letters. */
  function Lower(s: string): (r: string)
    ensures |r| == |s|
    ensures forall i :: 0 <= i < |s| ==> r[i] == LowerChar(s[i])
  {
    if |s| == 0 then [] else [LowerChar(s[0])] + Lower(s[1..])
  }

  /** Lower-casing an already lower-cased string changes nothing. */
  lemma LowerIdempotent(s: string)
    ensures Lower(Lower(s)) == Lower(s)
  {
    assert forall i :: 0 <= i < |s| ==> LowerChar(LowerChar(s[i])) == LowerChar(s[i]);
  }

  /** No character of the text is an ASCII upper-case letter. */
  predicate NoUpper(s: string) {
    forall c :: c in s ==> !('A' <= c <= 'Z')
  }

  /** Lower-casing a string without upper-case letters changes nothing. */
  lemma LowerOfNoUpper(s: string)
    requires NoUpper(s)
    ensures Lower(s) == s
  {
    forall i | 0 <= i < |s|
      ensures Lower(s)[i] == s[i]
    {
      assert s[i] in s;
    }
  }

  /** Python's `p in s` for strings: `p` occurs as a contiguous piece of `s`. */
  predicate Contains(s: string, p: string)
    decreases |s|
  {
    |p| <= |s| && (s[..|p|] == p || Contains(s[1..], p))
  }

  /** `p` occurs in `s` starting at position `i`. */
  predicate OccursAt(s: string, p: string, i: int) {
    0 <= i && i + |p| <= |s| && s[i..i + |p|] == p
  }

  /** The recursive test agrees with the positional definition of a substring. */
  lemma {:induction false} ContainsIffOccurs(s: string, p: string)
    ensures Contains(s, p) <==> exists i :: OccursAt(s, p, i)
    decreases |s|
  {
    if |p| <= |s| {
      if s[..|p|] == p {
        assert OccursAt(s, p, 0);
      } else {
        ContainsIffOccurs(s[1..], p);
        if exists i :: OccursAt(s, p, i) {
          var i :| OccursAt(s, p, i);
          assert s[0..0 + |p|] == s[..|p|];
          assert i != 0;
          assert s[1..][i - 1..i - 1 + |p|] == s[i..i + |p|];
          assert OccursAt(s[1..], p, i - 1);
        }
        if Contains(s[1..], p) {
          var i :| OccursAt(s[1..], p, i);
          assert s[1..][i..i + |p|] == s[i + 1..i + 1 + |p|];
          assert OccursAt(s, p, i + 1);
        }
      }
    }
  }

  /** `s.split(sep)`: the pieces between consecutive separators. */
  function Split(s: string, sep: char): (r: seq<string>)
    ensures |r| > 0
    ensures forall i :: 0 <= i < |r| ==> sep !in r[i]
    decreases |s|
  {
    if sep in s then
      var k := IndexOf(s, sep);
      [s[..k]] + Split(s[k + 1..], sep)
    else [s]
  }

  /** Position of the first occurrence of `c`. */
  function IndexOf(s: string, c: char): (k: nat)
    requires c in s
    ensures k < |s| && s[k] == c && c !in s[..k]
  {
    if s[0] == c then 0 else 1 + IndexOf(s[1..], c)
  }

  /** `sep.join(pieces)`. */
  function Join(pieces: seq<string>, sep: char): string
    requires |pieces| > 0
  {
    if |pieces| == 1 then pieces[0] else pieces[0] + [sep] + Join(pieces[1..], sep)
  }

  /** Splitting and joining again gives back the original string. */
  lemma {:induction false} JoinSplit(s: string, sep: char)
    ensures Join(Split(s, sep), sep) == s
    decreases |s|
  {
    if sep in s {
      var k := IndexOf(s, sep);
      JoinSplit(s[k + 1..], sep);
      assert s == s[..k] + [sep] + s[k + 1..];
    }
  }

  /** The first separator of `a + sep + b` is the one after `a`, when `a`
      has none. */
  lemma IndexAfterPrefix(a: string, sep: char, b: string)
    requires sep !in a
    ensures sep in a + [sep] + b
    ensures IndexOf(a + [sep] + b, sep) == |a|
  {
    var s := a + [sep] + b;
    assert s[|a|] == sep;
    assert s[..|a|] == a;
  }

  /** Joining separator-free pieces and splitting again gives back the pieces. */
  lemma {:induction false} SplitJoin(pieces: seq<string>, sep: char)
    requires |pieces| > 0
    requires forall i :: 0 <= i < |pieces| ==> sep !in pieces[i]
    ensures Split(Join(pieces, sep), sep) == pieces
  {
    if |pieces| > 1 {
      var first, rest := pieces[0], Join(pieces[1..], sep);
      var s := first + [sep] + rest;
      assert Join(pieces, sep) == s;
      IndexAfterPrefix(first, sep, rest);
      assert s[..|first|] == first;
      assert s[|first| + 1..] == rest;
      assert Split(s, sep) == [first] + Split(rest, sep);
      SplitJoin(pieces[1..], sep);
      assert pieces == [first] + pieces[1..];
    }
  }

  /** Splitting a string built as `a + sep + b` splits `a` and `b` separately. */
  lemma SplitAppend(a: string, b: string, sep: char)
    ensures Split(a + [sep] + b, sep) == Split(a, sep) + Split(b, sep)
  {
    var pa := Split(a, sep);
    var pb := Split(b, sep);
    JoinSplit(a, sep);
    JoinSplit(b, sep);
    JoinConcat(pa, pb, sep);
    SplitJoin(pa + pb, sep);
  }

  lemma {:induction false} JoinConcat(xs: seq<string>, ys: seq<string>, sep: char)
    requires |xs| > 0 && |ys| > 0
    ensures Join(xs + ys, sep) == Join(xs, sep) + [sep] + Join(ys, sep)
  {
    if |xs| > 1 {
      assert (xs + ys)[1..] == xs[1..] + ys;
      JoinConcat(xs[1..], ys, sep);
    } else {
      assert (xs + ys)[1..] == ys;
    }
  }
}
