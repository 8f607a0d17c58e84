/** Values shared by every part of the ordering application: optional JSON
    fields, the two JavaScript fallback operators, results with an error
    side, sums over sequences and the timestamp conventions. */
module Common {

  /** A JSON field that may be missing (JavaScript `undefined` or `null`). */
  datatype Option<+T> = None | Some(value: T) {
    function GetOr(default: T): T {
      match this
      case Some(v) => v
      case None => default
    }
  }

  /** The outcome of an operation that may fail with an error value. */
  datatype Result<+T, +E> = Ok(value: T) | Err(error: E)

  /** Why a document fails the schema validation run by `save`. */
  datatype SchemaError = Required(field: string) | NotInEnum(field: string)

  /** A number is falsy in JavaScript when it is missing or 0 (NaN is not modelled). */
  predicate FalsyNum(x: Option<int>) {
    x.None? || x.value == 0
  }

  /** A string is falsy in JavaScript when it is missing or empty. */
  predicate FalsyStr(s: Option<string>) {
    s.None? || s.value == ""
  }

  /** JavaScript `x || d` on a number. */
  function OrNum(x: Option<int>, d: int): (r: int)
    ensures FalsyNum(x) ==> r == d
    ensures !FalsyNum(x) ==> r == x.value
  {
    if FalsyNum(x) then d else x.value
  }

  /** JavaScript `x ?? d` on a number: only a missing value is replaced, 0 is kept. */
  function Coalesce(x: Option<int>, d: int): (r: int)
    ensures x.None? ==> r == d
    ensures x.Some? ==> r == x.value
  {
    if x.None? then d else x.value
  }

  /** JavaScript `s || d` on a string. */
  function OrStr(s: Option<string>, d: string): (r: string)
    ensures FalsyStr(s) ==> r == d
    ensures !FalsyStr(s) ==> r == s.value
  {
    if FalsyStr(s) then d else s.value
  }

  /** Sum of `f` over `s`, folded from the left as `Array.prototype.reduce` does. */
  function SumOf<T>(s: seq<T>, f: T -> int): int
  {
    if s == [] then 0 else SumOf(s[..|s| - 1], f) + f(s[|s| - 1])
  }

  lemma SumOfSnoc<T>(s: seq<T>, x: T, f: T -> int)
    ensures SumOf(s + [x], f) == SumOf(s, f) + f(x)
  {
    assert (s + [x])[..|s + [x]| - 1] == s;
  }

  /** One more step of a running sum over a prefix. */
  lemma SumOfStep<T>(s: seq<T>, j: int, f: T -> int)
    requires 0 <= j < |s|
    ensures SumOf(s[..j + 1], f) == SumOf(s[..j], f) + f(s[j])
  {
    assert s[..j + 1][..j] == s[..j];
  }

  lemma {:induction false} SumOfAppend<T>(s: seq<T>, t: seq<T>, f: T -> int)
    ensures SumOf(s + t, f) == SumOf(s, f) + SumOf(t, f)
    decreases |t|
  {
    if t == [] {
      assert s + t == s;
    } else {
      var t' := t[..|t| - 1];
      assert s + t == (s + t') + [t[|t| - 1]];
      assert t == t' + [t[|t| - 1]];
      SumOfSnoc(s + t', t[|t| - 1], f);
      SumOfSnoc(t', t[|t| - 1], f);
      SumOfAppend(s, t', f);
    }
  }

  /** Sum over a sequence whose terms are all zero. */
  lemma {:induction false} SumOfZero<T>(s: seq<T>, f: T -> int)
    requires forall i | 0 <= i < |s| :: f(s[i]) == 0
    ensures SumOf(s, f) == 0
  {
    if s != [] {
      SumOfZero(s[..|s| - 1], f);
    }
  }

  /** Two term functions that agree on every element give the same sum. */
  lemma {:induction false} SumOfCongruent<T>(s: seq<T>, f: T -> int, g: T -> int)
    requires forall i | 0 <= i < |s| :: f(s[i]) == g(s[i])
    ensures SumOf(s, f) == SumOf(s, g)
  {
    if s != [] {
      SumOfCongruent(s[..|s| - 1], f, g);
    }
  }

  /** Two sequences whose terms agree pairwise have the same sum. */
  lemma {:induction false} SumOfPointwise<T>(a: seq<T>, b: seq<T>, f: T -> int)
    requires |a| == |b| && forall i | 0 <= i < |a| :: f(a[i]) == f(b[i])
    ensures SumOf(a, f) == SumOf(b, f)
  {
    if a != [] {
      var n := |a| - 1;
      SumOfPointwise(a[..n], b[..n], f);
    }
  }

  /** Replacing one term changes the sum by the difference of the two terms. */
  lemma {:induction false} SumOfUpdate<T>(s: seq<T>, k: int, x: T, f: T -> int)
    requires 0 <= k < |s|
    ensures SumOf(s[k := x], f) == SumOf(s, f) - f(s[k]) + f(x)
  {
    var n := |s| - 1;
    if k == n {
      assert s[k := x][..n] == s[..n];
    } else {
      SumOfUpdate(s[..n], k, x, f);
      assert s[k := x][..n] == s[..n][k := x];
    }
  }

  /** Milliseconds in one day. Timestamps are milliseconds since the epoch. */
  const DayMillis: int := 86_400_000

  /** The last millisecond of the day that starts at `d` (`setHours(23, 59, 59, 999)`). */
  function EndOfDay(d: int): (r: int)
    ensures d < r < d + DayMillis
  {
    d + DayMillis - 1
  }

  /** The start of the last second of the day that starts at `d` (a date suffixed with "T23:59:59"). */
  function LastSecondOfDay(d: int): (r: int)
    ensures d < r < EndOfDay(d)
  {
    d + DayMillis - 1000
  }

  function Min(a: int, b: int): int {
    if a <= b then a else b
  }
}
