/** Small shared vocabulary: optional values, the errors Python raises in the
    scorers, `dict.get` with a default, and Python's `int()` on a float. */
module Basics {

  datatype Option<+T> = None | Some(value: T) {
    function GetOr(default: T): T {
      match this
      case Some(v) => v
      case None => default
    }
  }

  /** The exceptions the modelled code can raise on some input. */
  datatype PyError =
    | TypeError(detail: string)       // an ordering comparison against None
    | AttributeError(name: string)    // an attribute that was never assigned
    | KeyError(key: string)           // a dictionary key that is not present

  datatype Result<+T> = Ok(value: T) | Err(error: PyError)

  /** A loop over results that stops at the first exception: every value
      when nothing fails, otherwise the first error. */
  function FirstError<T>(rs: seq<Result<T>>): (r: Result<seq<T>>)
    ensures r.Ok? <==> forall i :: 0 <= i < |rs| ==> rs[i].Ok?
    ensures r.Ok? ==> |r.value| == |rs| && forall i :: 0 <= i < |rs| ==> rs[i] == Ok(r.value[i])
    ensures r.Err? ==> exists i :: 0 <= i < |rs| && rs[i] == Err(r.error) &&
                                   forall j :: 0 <= j < i ==> rs[j].Ok?
  {
    if |rs| == 0 then Ok([])
    else
      assert forall i :: 1 <= i < |rs| ==> rs[1..][i - 1] == rs[i];
      match rs[0]
      case Err(e) => Err(e)
      case Ok(v) =>
        var rest := FirstError(rs[1..]);
        if rest.Err? then
          var k :| 0 <= k < |rs[1..]| && rs[1..][k] == Err(rest.error) && forall j :: 0 <= j < k ==> rs[1..][j].Ok?;
          assert rs[k + 1] == Err(rest.error);
          rest
        else
          Ok([v] + rest.value)
  }

  /** The loop fails exactly when some element is an error, and then with
      one of the elements' errors. */
  lemma FirstErrorFails<T>(rs: seq<Result<T>>)
    ensures FirstError(rs).Err? <==> exists i :: 0 <= i < |rs| && rs[i].Err?
    ensures FirstError(rs).Err? ==> exists i :: 0 <= i < |rs| && rs[i] == Err(FirstError(rs).error)
  {
  }

  /** `d.get(key, default)` on a dictionary of numbers. */
  function Get(d: map<string, real>, key: string, default: real): (r: real)
    ensures key in d ==> r == d[key]
    ensures key !in d ==> r == default
  {
    if key in d then d[key] else default
  }

  function Min(a: real, b: real): (r: real)
    ensures r <= a && r <= b
    ensures r == a || r == b
  {
    if a <= b then a else b
  }

  function Max(a: real, b: real): (r: real)
    ensures a <= r && b <= r
    ensures r == a || r == b
  {
    if a >= b then a else b
  }

  /** Python's `int(x)` (and numpy's `astype(int)`) on a float: truncation
      toward zero, which differs from `Floor` on negative values. */
  function Trunc(x: real): (r: int)
    ensures 0.0 <= x ==> 0 <= r && r as real <= x < r as real + 1.0
    ensures x < 0.0 ==> r <= 0 && r as real - 1.0 < x <= r as real
  {
    if x >= 0.0 then x.Floor else -((-x).Floor)
  }

  /** Truncation keeps the order of its arguments. */
  lemma TruncMonotone(x: real, y: real)
    requires x <= y
    ensures Trunc(x) <= Trunc(y)
  {
    if x < 0.0 && 0.0 <= y {
    } else if 0.0 <= x {
      assert x.Floor <= y.Floor;
    } else {
      assert (-y).Floor <= (-x).Floor;
    }
  }

  /** An integral value survives truncation unchanged. */
  lemma TruncOfInt(n: int)
    ensures Trunc(n as real) == n
  {
  }

  /** Multiplying both sides by a non-negative factor keeps their order. */
  lemma MulLe(a: real, b: real, w: real)
    requires a <= b && 0.0 <= w
    ensures a * w <= b * w
  {
  }
}
