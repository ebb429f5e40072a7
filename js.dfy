/** The JavaScript array and string primitives the console's components rely on,
    written out with the semantics the browser gives them. */
module Js {

  /** A value that may be `null` or `undefined`. */
  datatype Option<T> = None | Some(value: T)

  /** A string prop placed in a template literal: a missing one reads "undefined". */
  function Interpolate(p: Option<string>): string
  {
    if p.None? then "undefined" else p.value
  }

  function Min(a: int, b: int): int { if a <= b then a else b }

  function Max(a: int, b: int): int { if a >= b then a else b }

  /** How `Array.prototype.slice` resolves one of its bounds against a length `n`:
      a negative bound counts from the end, and the result is clamped to `[0, n]`. */
  function RelativeIndex(n: nat, k: int): (r: nat)
    ensures r <= n
    ensures k < 0 ==> r == Max(n + k, 0)
    ensures 0 <= k ==> r == Min(k, n)
  {
    if k < 0 then Max(n + k, 0) else Min(k, n)
  }

  /** `s.slice(begin, end)`: the elements from the resolved `begin` up to the resolved
      `end`, or nothing when the bounds cross. */
  function Slice<T>(s: seq<T>, begin: int, end: int): (r: seq<T>)
    ensures |r| == Max(RelativeIndex(|s|, end) - RelativeIndex(|s|, begin), 0)
    ensures forall i :: 0 <= i < |r| ==> r[i] == s[RelativeIndex(|s|, begin) + i]
  {
    var from, to := RelativeIndex(|s|, begin), RelativeIndex(|s|, end);
    if from < to then s[from..to] else []
  }

  /** `s.slice(begin)`: always a suffix of `s`; a negative `begin` keeps the last
      `-begin` elements (all of them when there are fewer). */
  function SliceFrom<T>(s: seq<T>, begin: int): (r: seq<T>)
    ensures |r| <= |s| && r == s[|s| - |r|..]
    ensures begin < 0 ==> |r| == Min(-begin, |s|)
    ensures 0 <= begin ==> |r| == Max(|s| - begin, 0)
  {
    s[RelativeIndex(|s|, begin)..]
  }

  /** `s.indexOf(x)`: the first position holding `x`, or -1 when there is none. */
  function IndexOf<T(==)>(s: seq<T>, x: T): (r: int)
    ensures -1 <= r < |s|
    ensures r == -1 <==> x !in s
    ensures 0 <= r ==> s[r] == x && x !in s[..r]
  {
    if |s| == 0 then -1
    else if s[0] == x then 0
    else
      var k := IndexOf(s[1..], x);
      if k == -1 then -1 else k + 1
  }

  /** No value occurs twice. */
  ghost predicate Distinct<T>(s: seq<T>)
  {
    forall i, j :: 0 <= i < j < |s| ==> s[i] != s[j]
  }

  /** Without repeats, `indexOf` finds every element at its own position. */
  lemma IndexOfDistinct<T>(s: seq<T>, i: int)
    requires Distinct(s) && 0 <= i < |s|
    ensures IndexOf(s, s[i]) == i
  {
  }

  /** `s.split(sep)` for a one-character separator. */
  function Split(s: string, sep: char): (r: seq<string>)
    ensures |r| >= 1
  {
    if |s| == 0 then [""]
    else
      var rest := Split(s[1..], sep);
      if s[0] == sep then [""] + rest
      else [[s[0]] + rest[0]] + rest[1..]
  }

  /** A piece without the separator is not cut. */
  lemma {:induction false} SplitNoSeparator(s: string, sep: char)
    requires sep !in s
    ensures Split(s, sep) == [s]
  {
    if |s| > 0 {
      SplitNoSeparator(s[1..], sep);
      assert [s[0]] + s[1..] == s;
    }
  }

  /** Splitting `a + sep + b` where `a` holds no separator yields `a` and then the pieces of `b`. */
  lemma {:induction false} SplitJoined(a: string, sep: char, b: string)
    requires sep !in a
    ensures Split(a + [sep] + b, sep) == [a] + Split(b, sep)
  {
    if |a| == 0 {
      assert a + [sep] + b == [sep] + b;
      assert ([sep] + b)[1..] == b;
    } else {
      assert (a + [sep] + b)[1..] == a[1..] + [sep] + b;
      SplitJoined(a[1..], sep, b);
      assert [a[0]] + a[1..] == a;
    }
  }
}
