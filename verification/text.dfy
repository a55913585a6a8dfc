/**
 * String helpers with the semantics of the Python built-ins the scripts use:
 * `str.strip()`, `str.split(sep)`, `sep.join(parts)` and `c * n`.
 */
module Text {

  /** The characters Python's `str.isspace()` accepts, i.e. the ones `str.strip()` removes. */
  predicate IsSpace(c: char) {
    var n := c as int;
    || n == 0x20 || 0x09 <= n <= 0x0d || 0x1c <= n <= 0x1f
    || n == 0x85 || n == 0xa0 || n == 0x1680 || 0x2000 <= n <= 0x200a
    || n == 0x2028 || n == 0x2029 || n == 0x202f || n == 0x205f || n == 0x3000
  }

  predicate AllSpace(s: string) {
    forall i :: 0 <= i < |s| ==> IsSpace(s[i])
  }

  /** A string `str.strip()` leaves unchanged: empty, or not starting or ending with whitespace. */
  predicate IsStripped(s: string) {
    s == [] || (!IsSpace(s[0]) && !IsSpace(s[|s| - 1]))
  }

  /** `r` is `s` with some whitespace removed from both ends. */
  ghost predicate PaddedBy(s: string, r: string) {
    exists i :: 0 <= i <= |s| - |r| && s[i..i + |r|] == r && AllSpace(s[..i]) && AllSpace(s[i + |r|..])
  }

  /** Index of the first non-whitespace character of `s`, or `|s|` when there is none. */
  function StripStart(s: string): (i: nat)
    ensures i <= |s|
    ensures AllSpace(s[..i])
    ensures i < |s| ==> !IsSpace(s[i])
    decreases |s|
  {
    if |s| == 0 || !IsSpace(s[0]) then 0
    else
      var j := StripStart(s[1..]);
      assert s[..1 + j] == [s[0]] + s[1..][..j];
      1 + j
  }

  /** Length of `s` once trailing whitespace is removed. */
  function StripEnd(s: string): (j: nat)
    ensures j <= |s|
    ensures AllSpace(s[j..])
    ensures 0 < j ==> !IsSpace(s[j - 1])
    ensures j == 0 ==> AllSpace(s)
    decreases |s|
  {
    if |s| == 0 || !IsSpace(s[|s| - 1]) then |s|
    else
      var j := StripEnd(s[..|s| - 1]);
      assert s[j..] == s[..|s| - 1][j..] + [s[|s| - 1]];
      j
  }

  /** Python's `s.strip()`. */
  function Strip(s: string): (r: string)
    ensures IsStripped(r)
    ensures PaddedBy(s, r)
  {
    var i := StripStart(s);
    var j := StripEnd(s[i..]);
    StripBounds(s, i, j);
    s[i..i + j]
  }

  /** The kept middle starts and ends with non-whitespace and is surrounded by whitespace only. */
  lemma StripBounds(s: string, i: nat, j: nat)
    requires i == StripStart(s) && j == StripEnd(s[i..])
    ensures i + j <= |s|
    ensures j == 0 ==> i == |s|
    ensures IsStripped(s[i..i + j])
    ensures AllSpace(s[..i]) && AllSpace(s[i + j..])
  {
    MiddleStripped(s, i, j);
    SpaceAfter(s, i, j);
  }

  /** A middle whose first and last characters are not whitespace is stripped; an empty one only arises at the end. */
  lemma MiddleStripped(s: string, i: nat, j: nat)
    requires i <= |s| && j <= |s| - i
    requires i < |s| ==> !IsSpace(s[i..][0])
    requires 0 < j ==> !IsSpace(s[i..][j - 1])
    requires j == 0 ==> AllSpace(s[i..])
    ensures j == 0 ==> i == |s|
    ensures IsStripped(s[i..i + j])
  {
    if i < |s| {
      assert !IsSpace(s[i..][0]);
    }
    if j > 0 {
      assert s[i..i + j][0] == s[i..][0];
      assert s[i..i + j][j - 1] == s[i..][j - 1];
    }
  }

  /** Dropping `i` and then `j` characters leaves the same whitespace as dropping `i + j`. */
  lemma SpaceAfter(s: string, i: nat, j: nat)
    requires i <= |s| && j <= |s| - i && AllSpace(s[i..][j..])
    ensures AllSpace(s[i + j..])
  {
    var u := s[i + j..];
    forall k | 0 <= k < |u|
      ensures IsSpace(u[k])
    {
      assert u[k] == s[i..][j..][k];
    }
  }

  /** Number of occurrences of `c` in `s`. */
  function Count(s: string, c: char): nat {
    if |s| == 0 then 0 else (if s[0] == c then 1 else 0) + Count(s[1..], c)
  }

  /** Python's `sep.join(parts)` for a one-character separator. */
  function Join(parts: seq<string>, sep: char): string {
    if |parts| == 0 then ""
    else if |parts| == 1 then parts[0]
    else parts[0] + [sep] + Join(parts[1..], sep)
  }

  /** Python's `s.split(sep)` for a one-character separator. */
  function Split(s: string, sep: char): (parts: seq<string>)
    ensures |parts| == Count(s, sep) + 1
    ensures forall i :: 0 <= i < |parts| ==> sep !in parts[i]
    ensures Join(parts, sep) == s
    decreases |s|
  {
    if |s| == 0 then [""]
    else
      var rest := Split(s[1..], sep);
      if s[0] == sep then
        assert Join([""] + rest, sep) == [sep] + Join(rest, sep);
        [""] + rest
      else
        var parts := [[s[0]] + rest[0]] + rest[1..];
        assert Join(parts, sep) == [s[0]] + Join(rest, sep) by {
          if |rest| > 1 {
            assert parts[1..] == rest[1..];
          }
        }
        assert s == [s[0]] + s[1..];
        parts
  }

  /** Splitting distributes over a separator: the pieces of `a` come first, then those of `b`. */
  lemma {:induction false} SplitAround(a: string, b: string, sep: char)
    ensures Split(a + [sep] + b, sep) == Split(a, sep) + Split(b, sep)
    decreases |a|
  {
    var s := a + [sep] + b;
    if |a| == 0 {
      assert s[1..] == b;
    } else {
      assert s[1..] == a[1..] + [sep] + b;
      SplitAround(a[1..], b, sep);
    }
  }

  /** Splitting the join of separator-free parts gives the parts back. */
  lemma {:induction false} SplitJoin(parts: seq<string>, sep: char)
    requires |parts| >= 1
    requires forall i :: 0 <= i < |parts| ==> sep !in parts[i]
    ensures Split(Join(parts, sep), sep) == parts
    decreases |parts|
  {
    SplitNoSep(parts[0], sep);
    if |parts| > 1 {
      SplitAround(parts[0], Join(parts[1..], sep), sep);
      SplitJoin(parts[1..], sep);
      assert parts == [parts[0]] + parts[1..];
    }
  }

  /** A string with no separator splits into itself alone. */
  lemma {:induction false} SplitNoSep(s: string, sep: char)
    requires sep !in s
    ensures Split(s, sep) == [s]
    decreases |s|
  {
    if |s| > 0 {
      assert sep !in s[1..];
      SplitNoSep(s[1..], sep);
      assert s == [s[0]] + s[1..];
    }
  }

  /** `c * n` in Python: `n` copies of `c`. */
  function Rule(c: char, n: nat): (r: string)
    ensures |r| == n
    ensures forall i :: 0 <= i < n ==> r[i] == c
  {
    seq(n, _ => c)
  }

  /** Concatenation of a sequence of strings, in order. */
  function Concat(xs: seq<string>): string {
    if |xs| == 0 then "" else xs[0] + Concat(xs[1..])
  }

  lemma {:induction false} ConcatAppend(xs: seq<string>, ys: seq<string>)
    ensures Concat(xs + ys) == Concat(xs) + Concat(ys)
    decreases |xs|
  {
    if |xs| > 0 {
      assert (xs + ys)[1..] == xs[1..] + ys;
      ConcatAppend(xs[1..], ys);
    } else {
      assert xs + ys == ys;
    }
  }

  predicate IsPrefix(p: string, s: string) {
    |p| <= |s| && s[..|p|] == p
  }

  predicate IsSuffix(p: string, s: string) {
    |p| <= |s| && s[|s| - |p|..] == p
  }
}
