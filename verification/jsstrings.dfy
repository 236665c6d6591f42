/** The JavaScript string operations the reporter relies on: `Array.join`,
    `String.prototype.substring` and `substr`, and a splitter used as the
    inverse of `join`. */
module JsStrings {

  function Min(a: int, b: int): int { if a <= b then a else b }

  function Max(a: int, b: int): int { if a <= b then b else a }

  function Abs(a: int): nat { if a < 0 then -a else a }

  function Clamp(x: int, lo: int, hi: int): (r: int)
    requires lo <= hi
    ensures lo <= r <= hi
    ensures lo <= x <= hi ==> r == x
  {
    if x < lo then lo else if x > hi then hi else x
  }

  /** `parts.join(sep)`. */
  function Join(parts: seq<string>, sep: string): string
    decreases |parts|
  {
    if |parts| == 0 then ""
    else if |parts| == 1 then parts[0]
    else parts[0] + sep + Join(parts[1..], sep)
  }

  lemma JoinPair(a: string, b: string, sep: string)
    ensures Join([a, b], sep) == a + sep + b
  {
    assert [a, b][1..] == [b];
  }

  /** Equal texts with a common start are equal after it. */
  lemma CancelPrefix(p: string, x: string, y: string)
    requires p + x == p + y
    ensures x == y
  {
    assert x == (p + x)[|p|..];
    assert y == (p + y)[|p|..];
  }

  /** `s.substring(start, end)`: both bounds clamped to `[0, |s|]`, swapped when
      `start > end`. */
  function Substring(s: string, start: int, end: int): (r: string)
    ensures |r| <= Abs(end - start) && |r| <= |s|
    ensures var lo := Clamp(Min(start, end), 0, |s|);
            lo + |r| <= |s| && r == s[lo..lo + |r|]
  {
    var a := Clamp(start, 0, |s|);
    var b := Clamp(end, 0, |s|);
    if a <= b then s[a..b] else s[b..a]
  }

  /** `s.substr(start, length)`: a negative `start` counts from the end, and at
      most `length` characters are taken. */
  function Substr(s: string, start: int, length: int): (r: string)
    ensures |r| <= Max(length, 0) && |r| <= |s|
    ensures var lo := if start < 0 then Max(|s| + start, 0) else Min(start, |s|);
            lo + |r| <= |s| && r == s[lo..lo + |r|]
  {
    var a := if start < 0 then Max(|s| + start, 0) else Min(start, |s|);
    var n := Min(Max(length, 0), |s| - a);
    s[a..a + n]
  }

  /** The position of the first `c` in `s`. */
  function IndexOf(s: string, c: char): (i: nat)
    requires c in s
    ensures i < |s| && s[i] == c && c !in s[..i]
  {
    if s[0] == c then 0 else 1 + IndexOf(s[1..], c)
  }

  /** `s.split(sep)` for a one-character separator. */
  function Split(s: string, sep: char): (parts: seq<string>)
    ensures |parts| >= 1
    decreases |s|
  {
    if sep !in s then [s]
    else
      var i := IndexOf(s, sep);
      [s[..i]] + Split(s[i + 1..], sep)
  }

  lemma IndexOfAfterPrefix(a: string, c: char, b: string)
    requires c !in a
    ensures IndexOf(a + [c] + b, c) == |a|
  {
    var s := a + [c] + b;
    assert s[..|a|] == a;
    assert s[|a|] == c;
  }

  /** Splitting a join recovers the parts when no part holds the separator. */
  lemma {:induction false} SplitJoin(parts: seq<string>, sep: char)
    requires |parts| >= 1
    requires forall i :: 0 <= i < |parts| ==> sep !in parts[i]
    ensures Split(Join(parts, [sep]), sep) == parts
    decreases |parts|
  {
    if |parts| > 1 {
      var rest := Join(parts[1..], [sep]);
      var s := Join(parts, [sep]);
      assert s == parts[0] + [sep] + rest;
      IndexOfAfterPrefix(parts[0], sep, rest);
      assert s[..|parts[0]|] == parts[0];
      assert s[|parts[0]| + 1..] == rest;
      SplitJoin(parts[1..], sep);
    }
  }

  /** The two ways the reporter copies cut the random suffix of a test id:
      `substring(2, 9)` keeps at most seven characters, `substr(2, 9)` at most
      nine, and the former is always a prefix of the latter. */
  lemma RandomSuffixCuts(random: string)
    ensures |Substring(random, 2, 9)| <= 7
    ensures |Substr(random, 2, 9)| <= 9
    ensures Substring(random, 2, 9) <= Substr(random, 2, 9)
    ensures |random| >= 2 ==> Substring(random, 2, 9) <= random[2..] && Substr(random, 2, 9) <= random[2..]
    ensures |random| >= 11 ==> |Substring(random, 2, 9)| == 7 && |Substr(random, 2, 9)| == 9
  {
  }
}
