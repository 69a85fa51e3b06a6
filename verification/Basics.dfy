/** Small shared vocabulary: optional values, fallible results, decimal rounding and
    counting. */
module Basics {
  datatype Option<+T> = None | Some(value: T)

  datatype Result<+T, +E> = Ok(value: T) | Err(error: E)

  /** Index of the first element that satisfies p, as in `next((x for x in s if p(x)), None)`. */
  function First<T>(s: seq<T>, p: T -> bool): (r: Option<nat>)
    ensures r.Some? ==> r.value < |s| && p(s[r.value]) && forall j :: 0 <= j < r.value ==> !p(s[j])
    ensures r.None? ==> forall j :: 0 <= j < |s| ==> !p(s[j])
  {
    if s == [] then None
    else
      var earlier := First(s[..|s| - 1], p);
      if earlier.Some? then earlier
      else if p(s[|s| - 1]) then Some(|s| - 1) else None
  }

  /** Decimal digits of a natural number, as in an f-string. */
  function Decimal(n: nat): string {
    var digit := ['0' + (n % 10) as char];
    if n < 10 then digit else Decimal(n / 10) + digit
  }

  /** Python's round(x, 3), with ties to the even thousandth. */
  function Round3(x: real): real {
    var scaled := x * 1000.0;
    var down := scaled.Floor;
    var part := scaled - down as real;
    var up := part > 0.5 || (part == 0.5 && down % 2 != 0);
    (if up then down + 1 else down) as real / 1000.0
  }

  lemma Round3Error(x: real)
    ensures -0.0005 <= Round3(x) - x <= 0.0005
  {}

  lemma Round3Thousandths(m: int)
    ensures Round3(m as real / 1000.0) == m as real / 1000.0
  {}

  lemma Round3Idempotent(x: real)
    ensures Round3(Round3(x)) == Round3(x)
  {}

  lemma Round3NonNegative(x: real)
    requires 0.0 <= x
    ensures 0.0 <= Round3(x)
  {}

  lemma Round3Monotone(x: real, y: real)
    requires x <= y
    ensures Round3(x) <= Round3(y)
  {
    var p, q := x * 1000.0, y * 1000.0;
    assert p.Floor <= q.Floor;
  }

  /** Number of elements of s that satisfy p. */
  function Count<T>(s: seq<T>, p: T -> bool): nat {
    if s == [] then 0 else (if p(s[0]) then 1 else 0) + Count(s[1..], p)
  }

  lemma {:induction false} CountAppend<T>(s: seq<T>, t: seq<T>, p: T -> bool)
    ensures Count(s + t, p) == Count(s, p) + Count(t, p)
  {
    if s == [] {
      assert s + t == t;
    } else {
      assert (s + t)[1..] == s[1..] + t;
      CountAppend(s[1..], t, p);
    }
  }

  /** Two sequences that agree with p index by index have the same count. */
  lemma {:induction false} CountPointwise<T>(s: seq<T>, t: seq<T>, p: T -> bool)
    requires |s| == |t|
    requires forall i :: 0 <= i < |s| ==> p(s[i]) == p(t[i])
    ensures Count(s, p) == Count(t, p)
  {
    if s == [] {
    } else {
      assert forall i :: 0 <= i < |s[1..]| ==> s[1..][i] == s[i + 1] && t[1..][i] == t[i + 1];
      CountPointwise(s[1..], t[1..], p);
    }
  }

  lemma CountUpdate<T>(s: seq<T>, i: nat, x: T, p: T -> bool)
    requires i < |s|
    ensures Count(s[i := x], p) == Count(s, p) - (if p(s[i]) then 1 else 0) + (if p(x) then 1 else 0)
  {
    assert s == s[..i] + [s[i]] + s[i + 1..];
    assert s[i := x] == s[..i] + [x] + s[i + 1..];
    CountAppend(s[..i] + [s[i]], s[i + 1..], p);
    CountAppend(s[..i], [s[i]], p);
    CountAppend(s[..i] + [x], s[i + 1..], p);
    CountAppend(s[..i], [x], p);
  }
}
