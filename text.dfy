/**
 * The string operations the Python source relies on (`str.strip`, `str.lower`,
 * `in`, `startswith`, `endswith`, `split`, `isalnum`, `str(int)`), written out on
 * `seq<char>` with the properties the rest of the model uses.
 */
module Text {
  import opened Wrappers

  /** Python's `str.isspace()`, which is also what `\s` matches in a `str` regex. */
  predicate IsSpace(c: char) {
    var n := c as int;
    (9 <= n <= 13) || (28 <= n <= 32) || n == 0x85 || n == 0xA0 || n == 0x1680
    || (0x2000 <= n <= 0x200A) || n == 0x2028 || n == 0x2029 || n == 0x202F
    || n == 0x205F || n == 0x3000
  }

  predicate IsAsciiUpper(c: char) { 'A' <= c <= 'Z' }

  predicate IsAsciiLower(c: char) { 'a' <= c <= 'z' }

  predicate IsDigit(c: char) { '0' <= c <= '9' }

  /** `str.lower()` on one character (ASCII letters only). */
  function LowerChar(c: char): (r: char)
    ensures !IsAsciiUpper(r)
    ensures IsAsciiUpper(c) || r == c
  {
    if IsAsciiUpper(c) then (c as int - 'A' as int + 'a' as int) as char else c
  }

  /** `str.lower()`: position-wise lower-casing. */
  function Lower(s: string): (r: string)
    ensures |r| == |s|
    ensures forall i :: 0 <= i < |s| ==> r[i] == LowerChar(s[i])
  {
    seq(|s|, i requires 0 <= i < |s| => LowerChar(s[i]))
  }

  lemma LowerIdempotent(s: string)
    ensures Lower(Lower(s)) == Lower(s)
  {
  }

  /** A string with no ASCII capitals. */
  predicate NoCapitals(s: string) {
    forall k :: 0 <= k < |s| ==> !IsAsciiUpper(s[k])
  }

  /** Lower-casing leaves such a string as it is. */
  lemma LowerOfNoCapitals(s: string)
    requires NoCapitals(s)
    ensures Lower(s) == s
  {
  }

  lemma LowerAppend(a: string, b: string)
    ensures Lower(a + b) == Lower(a) + Lower(b)
  {
  }

  /** `pat in s`: `pat` occurs as a contiguous piece of `s`. */
  predicate OccursAt(s: string, pat: string, i: int) {
    0 <= i && i + |pat| <= |s| && s[i..i + |pat|] == pat
  }

  predicate Contains(s: string, pat: string) {
    exists i | 0 <= i <= |s| - |pat| :: OccursAt(s, pat, i)
  }

  lemma ContainsAt(s: string, pat: string, i: int)
    requires OccursAt(s, pat, i)
    ensures Contains(s, pat)
  {
  }

  /** An occurrence inside a part is an occurrence inside the whole. */
  lemma ContainsInWhole(a: string, b: string, c: string, pat: string)
    requires Contains(b, pat)
    ensures Contains(a + b + c, pat)
  {
    var i :| 0 <= i <= |b| - |pat| && OccursAt(b, pat, i);
    assert (a + b + c)[|a| + i..|a| + i + |pat|] == b[i..i + |pat|];
    ContainsAt(a + b + c, pat, |a| + i);
  }

  predicate StartsWith(s: string, prefix: string) {
    |prefix| <= |s| && s[..|prefix|] == prefix
  }

  predicate EndsWith(s: string, suffix: string) {
    |suffix| <= |s| && s[|s| - |suffix|..] == suffix
  }

  /** The first index at or after `from` where `pat` occurs, if any (`str.find`). */
  function FindFrom(s: string, pat: string, from: nat): (r: Option<nat>)
    ensures r.Some? ==> from <= r.value && OccursAt(s, pat, r.value)
    ensures r.Some? ==> forall j :: from <= j < r.value ==> !OccursAt(s, pat, j)
    ensures r.None? ==> forall j :: from <= j ==> !OccursAt(s, pat, j)
    decreases |s| - from
  {
    if from + |pat| > |s| then None
    else if s[from..from + |pat|] == pat then Some(from)
    else FindFrom(s, pat, from + 1)
  }

  /** The first index at or after `from` holding `c`, if any (`str.find` of one character). */
  function IndexOfFrom(s: string, c: char, from: nat): (r: Option<nat>)
    ensures r.Some? ==> from <= r.value < |s| && s[r.value] == c
    ensures r.Some? ==> forall k :: from <= k < r.value ==> s[k] != c
    ensures r.None? ==> forall k :: from <= k < |s| ==> s[k] != c
    decreases |s| - from
  {
    if from >= |s| then None
    else if s[from] == c then Some(from)
    else IndexOfFrom(s, c, from + 1)
  }

  /** Removes leading whitespace (`str.lstrip()`). */
  function StripLeft(s: string): (r: string)
    ensures |r| <= |s| && r == s[|s| - |r|..]
    ensures forall i :: 0 <= i < |s| - |r| ==> IsSpace(s[i])
    ensures r == [] || !IsSpace(r[0])
  {
    if |s| > 0 && IsSpace(s[0]) then StripLeft(s[1..]) else s
  }

  /** Removes trailing whitespace (`str.rstrip()`). */
  function StripRight(s: string): (r: string)
    ensures |r| <= |s| && r == s[..|r|]
    ensures forall i :: |r| <= i < |s| ==> IsSpace(s[i])
    ensures r == [] || !IsSpace(r[|r| - 1])
  {
    if |s| > 0 && IsSpace(s[|s| - 1]) then StripRight(s[..|s| - 1]) else s
  }

  /** `str.strip()`: what is left has no whitespace at either end, and only whitespace went. */
  function Strip(s: string): (r: string)
    ensures |r| <= |s|
    ensures r == [] || (!IsSpace(r[0]) && !IsSpace(r[|r| - 1]))
  {
    StripRight(StripLeft(s))
  }

  lemma StripKeepsInterior(s: string)
    ensures var lead := |s| - |StripLeft(s)|;
            Strip(s) == s[lead..lead + |Strip(s)|]
            && (forall i :: 0 <= i < lead ==> IsSpace(s[i]))
            && (forall i :: lead + |Strip(s)| <= i < |s| ==> IsSpace(s[i]))
  {
    var l := StripLeft(s);
    var lead := |s| - |l|;
    var r := StripRight(l);
    assert r == Strip(s);
    assert l == s[lead..];
    assert r == l[..|r|];
    assert r == s[lead..lead + |r|];
    forall i | lead + |r| <= i < |s| ensures IsSpace(s[i]) {
      assert s[i] == l[i - lead];
    }
  }

  lemma StripNoSpaceIdentity(s: string)
    requires s == [] || (!IsSpace(s[0]) && !IsSpace(s[|s| - 1]))
    ensures Strip(s) == s
  {
  }

  /** No two whitespace characters stand next to each other. */
  predicate NoDoubleSpace(s: string) {
    forall i :: 0 <= i < |s| - 1 ==> !(IsSpace(s[i]) && IsSpace(s[i + 1]))
  }

  lemma NoDoubleSpaceInfix(s: string, i: nat, j: nat)
    requires i <= j <= |s|
    requires NoDoubleSpace(s)
    ensures NoDoubleSpace(s[i..j])
  {
    forall k | 0 <= k < j - i - 1
      ensures !(IsSpace(s[i..j][k]) && IsSpace(s[i..j][k + 1]))
    {
      assert s[i..j][k] == s[i + k] && s[i..j][k + 1] == s[i + k + 1];
    }
  }

  lemma StripKeepsNoDoubleSpace(s: string)
    requires NoDoubleSpace(s)
    ensures NoDoubleSpace(Strip(s))
  {
    var l := StripLeft(s);
    NoDoubleSpaceInfix(s, |s| - |l|, |s|);
    NoDoubleSpaceInfix(l, 0, |StripRight(l)|);
  }

  /** `s.split(sep)[-1]`: what follows the last `sep`, or all of `s` when there is none. */
  function AfterLast(s: string, sep: char): (r: string)
    ensures |r| <= |s| && r == s[|s| - |r|..]
    ensures sep !in r
    ensures |r| < |s| ==> s[|s| - |r| - 1] == sep
  {
    if |s| == 0 then s
    else if s[|s| - 1] == sep then []
    else AfterLast(s[..|s| - 1], sep) + [s[|s| - 1]]
  }

  /** `s.split(sep)`: the pieces between separators, in order. */
  function Split(s: string, sep: char): (r: seq<string>)
    ensures |r| >= 1
    ensures forall k :: 0 <= k < |r| ==> sep !in r[k]
    decreases |s|
  {
    match FindFrom(s, [sep], 0)
    case None =>
      assert forall i :: 0 <= i < |s| ==> !OccursAt(s, [sep], i);
      assert forall i :: 0 <= i < |s| ==> s[i] != sep by {
        forall i | 0 <= i < |s| ensures s[i] != sep {
          assert !OccursAt(s, [sep], i);
          assert s[i..i + 1] == [s[i]];
        }
      }
      [s]
    case Some(i) =>
      assert sep !in s[..i] by {
        forall j | 0 <= j < i ensures s[j] != sep {
          assert s[j..j + 1] == [s[j]];
          assert !OccursAt(s, [sep], j);
        }
      }
      [s[..i]] + Split(s[i + 1..], sep)
  }

  /** `sep.join(parts)`. */
  function Join(parts: seq<string>, sep: char): string
  {
    if |parts| == 0 then ""
    else if |parts| == 1 then parts[0]
    else parts[0] + [sep] + Join(parts[1..], sep)
  }

  /** Splitting and joining on the same separator gives the string back. */
  lemma {:induction false} JoinSplit(s: string, sep: char)
    ensures Join(Split(s, sep), sep) == s
    decreases |s|
  {
    match FindFrom(s, [sep], 0)
    case None =>
    case Some(i) =>
      assert s[i..i + 1] == [sep];
      JoinSplit(s[i + 1..], sep);
      assert s == s[..i] + [sep] + s[i + 1..];
  }

  /** Joining pieces without separators and splitting again gives the pieces back. */
  lemma {:induction false} SplitJoin(parts: seq<string>, sep: char)
    requires |parts| >= 1
    requires forall k :: 0 <= k < |parts| ==> sep !in parts[k]
    ensures Split(Join(parts, sep), sep) == parts
    decreases |parts|
  {
    var s := Join(parts, sep);
    var p := parts[0];
    if |parts| == 1 {
      forall j | 0 <= j < |s| ensures !OccursAt(s, [sep], j) {
        assert s[j..j + 1] == [s[j]];
      }
    } else {
      var rest := Join(parts[1..], sep);
      assert s == p + [sep] + rest;
      assert OccursAt(s, [sep], |p|) by {
        assert s[|p|..|p| + 1] == [sep];
      }
      forall j | 0 <= j < |p| ensures !OccursAt(s, [sep], j) {
        assert s[j] == p[j];
        assert s[j..j + 1] == [s[j]];
      }
      assert FindFrom(s, [sep], 0) == Some(|p|);
      assert s[..|p|] == p;
      assert s[|p| + 1..] == rest;
      SplitJoin(parts[1..], sep);
      assert parts == [p] + parts[1..];
    }
  }

  /** `str.isalnum()` over ASCII letters and digits (true only for a non-empty string). */
  predicate IsAlnum(s: string) {
    |s| > 0 && forall i :: 0 <= i < |s| ==> IsAsciiUpper(s[i]) || IsAsciiLower(s[i]) || IsDigit(s[i])
  }

  function DigitChar(d: nat): (c: char)
    requires d < 10
    ensures IsDigit(c)
  {
    ('0' as int + d) as char
  }

  /** `str(n)` for a non-negative integer: its decimal digits, most significant first. */
  function NatToString(n: nat): (r: string)
    ensures |r| >= 1
    ensures forall i :: 0 <= i < |r| ==> IsDigit(r[i])
    ensures n < 10 <==> |r| == 1
  {
    if n < 10 then [DigitChar(n)] else NatToString(n / 10) + [DigitChar(n % 10)]
  }

  /** `str(n)` for any integer. */
  function IntText(n: int): (s: string)
    ensures |s| > 0 && !IsSpace(s[0]) && !IsSpace(s[|s| - 1])
  {
    if n < 0 then "-" + NatToString(-n) else NatToString(n)
  }

  /** The decimal value of a string of digits: the inverse of `NatToString`. */
  function DigitsValue(s: string): nat
    requires forall i :: 0 <= i < |s| ==> IsDigit(s[i])
  {
    if |s| == 0 then 0
    else
      assert IsDigit(s[|s| - 1]);
      10 * DigitsValue(s[..|s| - 1]) + (s[|s| - 1] as int - '0' as int)
  }

  lemma {:induction false} NatToStringRoundTrip(n: nat)
    ensures DigitsValue(NatToString(n)) == n
  {
    if n >= 10 {
      NatToStringRoundTrip(n / 10);
      var s := NatToString(n);
      assert s[..|s| - 1] == NatToString(n / 10);
    }
  }

  /** Different numbers print differently, so a timestamp in a key is recoverable. */
  lemma NatToStringInjective(m: nat, n: nat)
    requires NatToString(m) == NatToString(n)
    ensures m == n
  {
    NatToStringRoundTrip(m);
    NatToStringRoundTrip(n);
  }

  /**
   * Lexicographic order on code points: the order of a string sort key in the
   * store (UTF-8 byte order, which is code-point order).
   */
  predicate LexLe(a: string, b: string) {
    |a| == 0 || (|b| > 0 && (a[0] < b[0] || (a[0] == b[0] && LexLe(a[1..], b[1..]))))
  }

  lemma {:induction false} LexLeReflexive(a: string)
    ensures LexLe(a, a)
  {
    if |a| > 0 {
      LexLeReflexive(a[1..]);
    }
  }

  lemma {:induction false} LexLeTotal(a: string, b: string)
    ensures LexLe(a, b) || LexLe(b, a)
  {
    if |a| > 0 && |b| > 0 && a[0] == b[0] {
      LexLeTotal(a[1..], b[1..]);
    }
  }

  lemma {:induction false} LexLeTransitive(a: string, b: string, c: string)
    requires LexLe(a, b) && LexLe(b, c)
    ensures LexLe(a, c)
  {
    if |a| > 0 && |b| > 0 && |c| > 0 && a[0] == b[0] == c[0] {
      LexLeTransitive(a[1..], b[1..], c[1..]);
    }
  }

  lemma {:induction false} LexLeAntisymmetric(a: string, b: string)
    requires LexLe(a, b) && LexLe(b, a)
    ensures a == b
  {
    if |a| > 0 && |b| > 0 {
      LexLeAntisymmetric(a[1..], b[1..]);
      assert a == [a[0]] + a[1..] && b == [b[0]] + b[1..];
    }
  }
}
