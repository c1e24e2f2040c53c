/** Python `str` operations used by the engine, over `seq<char>`.
    Case mapping, digit tests and `\d` are ASCII-only. */
module Strings {

  predicate StartsWith(s: string, p: string) {
    |p| <= |s| && s[..|p|] == p
  }

  predicate EndsWith(s: string, p: string) {
    |p| <= |s| && s[|s| - |p|..] == p
  }

  /** `sub` occurs in `s` starting at index `i`. */
  predicate OccursAt(s: string, sub: string, i: int) {
    0 <= i <= |s| - |sub| && s[i..i + |sub|] == sub
  }

  /** Python `sub in s`. */
  predicate Contains(s: string, sub: string) {
    exists i | 0 <= i <= |s| - |sub| :: OccursAt(s, sub, i)
  }

  lemma StartsWithContains(s: string, p: string)
    requires StartsWith(s, p)
    ensures Contains(s, p)
  {
    assert OccursAt(s, p, 0);
  }

  /** An occurrence in the tail of `s` is an occurrence in `s`. */
  lemma ContainsTail(s: string, sub: string, k: nat)
    requires k <= |s|
    ensures Contains(s[k..], sub) ==> Contains(s, sub)
  {
    if Contains(s[k..], sub) {
      var i :| 0 <= i <= |s[k..]| - |sub| && OccursAt(s[k..], sub, i);
      assert s[k..][i..i + |sub|] == s[k + i..k + i + |sub|];
      assert OccursAt(s, sub, k + i);
    }
  }

  /** A one-character needle occurs exactly when the character does. */
  lemma ContainsChar(s: string, c: char)
    ensures Contains(s, [c]) <==> c in s
  {
    if c in s {
      var i :| 0 <= i < |s| && s[i] == c;
      assert OccursAt(s, [c], i);
    }
    if Contains(s, [c]) {
      var i :| 0 <= i <= |s| - |[c]| && OccursAt(s, [c], i);
      assert s[i] == s[i..i + 1][0];
    }
  }

  /** A needle holding a character the string lacks does not occur in it. */
  lemma MissingChar(s: string, sub: string, c: char)
    requires c in sub && c !in s
    ensures !Contains(s, sub)
  {
    var j :| 0 <= j < |sub| && sub[j] == c;
    forall i | 0 <= i <= |s| - |sub| ensures !OccursAt(s, sub, i) {
      assert s[i + j] != c;
      assert s[i..i + |sub|][j] == s[i + j];
    }
  }

  /** Python `s.split(sep)`: left-to-right, non-overlapping. */
  function Split(s: string, sep: string): (r: seq<string>)
    requires |sep| > 0
    ensures |r| >= 1
    decreases |s|
  {
    if |s| < |sep| then [s]
    else if s[..|sep|] == sep then [""] + Split(s[|sep|..], sep)
    else
      var rest := Split(s[1..], sep);
      [[s[0]] + rest[0]] + rest[1..]
  }

  /** Python `sep.join(parts)`. */
  function Join(parts: seq<string>, sep: string): string {
    if |parts| == 0 then ""
    else if |parts| == 1 then parts[0]
    else parts[0] + sep + Join(parts[1..], sep)
  }

  function Last<T>(xs: seq<T>): T
    requires |xs| > 0
  {
    xs[|xs| - 1]
  }

  /** Splitting and joining again gives back the string. */
  lemma {:induction false} JoinSplit(s: string, sep: string)
    requires |sep| > 0
    ensures Join(Split(s, sep), sep) == s
    decreases |s|
  {
    if |s| < |sep| {
    } else if s[..|sep|] == sep {
      var rest := Split(s[|sep|..], sep);
      JoinSplit(s[|sep|..], sep);
      assert s == sep + s[|sep|..];
    } else {
      var rest := Split(s[1..], sep);
      JoinSplit(s[1..], sep);
      assert s == [s[0]] + s[1..];
      if |rest| == 1 {
      } else {
        assert ([[s[0]] + rest[0]] + rest[1..])[1..] == rest[1..];
      }
    }
  }

  /** No piece of a split contains the separator. */
  lemma {:induction false} SplitPiecesFree(s: string, sep: string, k: int)
    requires |sep| > 0 && 0 <= k < |Split(s, sep)|
    ensures !Contains(Split(s, sep)[k], sep)
    decreases |s|
  {
    if |s| < |sep| {
    } else if s[..|sep|] == sep {
      if k > 0 {
        SplitPiecesFree(s[|sep|..], sep, k - 1);
      }
    } else {
      var rest := Split(s[1..], sep);
      if k > 0 {
        SplitPiecesFree(s[1..], sep, k);
      } else {
        SplitPiecesFree(s[1..], sep, 0);
        SplitPrefix(s[1..], sep);
        var p := [s[0]] + rest[0];
        ContainsCons(s[0], rest[0], sep);
        if |p| >= |sep| {
          assert p[..|sep|] == s[..|sep|];
        }
      }
    }
  }

  /** An occurrence in `[c] + t` is at its start or inside `t`. */
  lemma ContainsCons(c: char, t: string, sub: string)
    ensures Contains([c] + t, sub) <==> OccursAt([c] + t, sub, 0) || Contains(t, sub)
  {
    var p := [c] + t;
    assert t == p[1..];
    ContainsTail(p, sub, 1);
    if Contains(p, sub) && !OccursAt(p, sub, 0) {
      var i :| 0 <= i <= |p| - |sub| && OccursAt(p, sub, i);
      assert t[i - 1..i - 1 + |sub|] == p[i..i + |sub|];
      assert OccursAt(t, sub, i - 1);
    }
    if OccursAt(p, sub, 0) {
      assert OccursAt(p, sub, 0);
    }
  }

  /** The first piece is a prefix of the string. */
  lemma {:induction false} SplitPrefix(s: string, sep: string)
    requires |sep| > 0
    ensures StartsWith(s, Split(s, sep)[0])
    decreases |s|
  {
    if |s| < |sep| {
    } else if s[..|sep|] == sep {
    } else {
      SplitPrefix(s[1..], sep);
    }
  }

  /** A string without the separator splits into itself. */
  lemma {:induction false} SplitNoSep(s: string, sep: string)
    requires |sep| > 0 && !Contains(s, sep)
    ensures Split(s, sep) == [s]
    decreases |s|
  {
    if |s| >= |sep| {
      if s[..|sep|] == sep {
        assert OccursAt(s, sep, 0);
      }
      ContainsTail(s, sep, 1);
      SplitNoSep(s[1..], sep);
      assert [s[0]] + s[1..] == s;
    }
  }

  /** When the separator occurs there are at least two pieces. */
  lemma {:induction false} SplitHasSep(s: string, sep: string)
    requires |sep| > 0 && Contains(s, sep)
    ensures |Split(s, sep)| >= 2
    decreases |s|
  {
    if s[..|sep|] != sep {
      var i :| 0 <= i <= |s| - |sep| && OccursAt(s, sep, i);
      assert i != 0;
      assert s[1..][i - 1..i - 1 + |sep|] == s[i..i + |sep|];
      assert OccursAt(s[1..], sep, i - 1);
      SplitHasSep(s[1..], sep);
    }
  }

  /** With a one-character separator, a string is split into exactly the
      pieces it was joined from, as long as no piece holds the separator. */
  lemma {:induction false} SplitJoinSingle(parts: seq<string>, c: char)
    requires |parts| >= 1
    requires forall k | 0 <= k < |parts| :: c !in parts[k]
    ensures Split(Join(parts, [c]), [c]) == parts
    decreases |parts|
  {
    if |parts| == 1 {
      ContainsChar(parts[0], c);
      SplitNoSep(parts[0], [c]);
    } else {
      SplitJoinSingle(parts[1..], c);
      SplitAfterFree(parts[0], Join(parts[1..], [c]), c);
    }
  }

  lemma {:induction false} SplitAfterFree(p: string, rest: string, c: char)
    requires c !in p
    ensures Split(p + [c] + rest, [c]) == [p] + Split(rest, [c])
    decreases |p|
  {
    var s := p + [c] + rest;
    if |p| == 0 {
      assert s[..1] == [c];
      assert s[1..] == rest;
    } else {
      assert s[..1] == [p[0]];
      assert s[1..] == p[1..] + [c] + rest;
      SplitAfterFree(p[1..], rest, c);
      assert [p[0]] + p[1..] == p;
    }
  }

  /** The text before the first occurrence of `sep` (Python `s.split(sep)[0]`). */
  function Before(s: string, sep: string): string
    requires |sep| > 0
  {
    Split(s, sep)[0]
  }

  /** The text after the first occurrence of `sep` (Python `s.split(sep, 1)[1]`). */
  function After(s: string, sep: string): string
    requires |sep| > 0
  {
    var parts := Split(s, sep);
    if |parts| < 2 then "" else Join(parts[1..], sep)
  }

  /** Everything after the first one-character separator, further
      separators included. */
  lemma AfterFirst(p: string, rest: string, c: char)
    requires c !in p
    ensures After(p + [c] + rest, [c]) == rest
  {
    SplitAfterFree(p, rest, c);
    JoinSplit(rest, [c]);
    assert Split(p + [c] + rest, [c])[1..] == Split(rest, [c]);
  }

  /** `Before` and `After` cut the string at its first separator. */
  lemma BeforeAfter(s: string, sep: string)
    requires |sep| > 0 && Contains(s, sep)
    ensures s == Before(s, sep) + sep + After(s, sep)
    ensures !Contains(Before(s, sep), sep)
  {
    SplitHasSep(s, sep);
    JoinSplit(s, sep);
    SplitPiecesFree(s, sep, 0);
  }

  /** Python `s[:n]`. */
  function Take(s: string, n: nat): (r: string)
    ensures |r| <= n && StartsWith(s, r)
    ensures |s| <= n ==> r == s
    ensures |s| > n ==> |r| == n
  {
    if |s| <= n then s else s[..n]
  }

  predicate IsDigit(c: char) {
    '0' <= c <= '9'
  }

  /** Python `s.isdigit()` over ASCII digits: false for the empty string. */
  predicate IsDigits(s: string) {
    |s| > 0 && forall i | 0 <= i < |s| :: IsDigit(s[i])
  }

  predicate IsLowerLetter(c: char) {
    'a' <= c <= 'z'
  }

  predicate IsUpperLetter(c: char) {
    'A' <= c <= 'Z'
  }

  function LowerChar(c: char): char {
    if IsUpperLetter(c) then (c as int + 32) as char else c
  }

  function UpperChar(c: char): char {
    if IsLowerLetter(c) then (c as int - 32) as char else c
  }

  /** Python `s.lower()`. */
  function Lower(s: string): (r: string)
    ensures |r| == |s|
  {
    seq(|s|, i requires 0 <= i < |s| => LowerChar(s[i]))
  }

  /** Lower-casing works character by character. */
  lemma LowerAppend(a: string, b: string)
    ensures Lower(a + b) == Lower(a) + Lower(b)
  {
    assert forall i | 0 <= i < |a + b| :: Lower(a + b)[i] == (Lower(a) + Lower(b))[i];
  }

  /** Python `s.upper()`. */
  function Upper(s: string): (r: string)
    ensures |r| == |s|
  {
    seq(|s|, i requires 0 <= i < |s| => UpperChar(s[i]))
  }

  /** Python `s.title()`: a letter is upper-cased when the character before
      it is not a letter, and lower-cased otherwise. */
  function Title(s: string): (r: string)
    ensures |r| == |s|
  {
    seq(|s|, i requires 0 <= i < |s| =>
      if i > 0 && (IsLowerLetter(s[i - 1]) || IsUpperLetter(s[i - 1])) then LowerChar(s[i]) else UpperChar(s[i]))
  }

  /** Python `str.isspace()` for one character. */
  predicate IsSpace(c: char) {
    var n := c as int;
    (9 <= n <= 13) || (28 <= n <= 32) || n == 0x85 || n == 0xA0 || n == 0x1680
    || (0x2000 <= n <= 0x200A) || n == 0x2028 || n == 0x2029 || n == 0x202F
    || n == 0x205F || n == 0x3000
  }

  function LStrip(s: string): (r: string)
    ensures |r| <= |s| && EndsWith(s, r)
    ensures |r| > 0 ==> !IsSpace(r[0])
  {
    if |s| > 0 && IsSpace(s[0]) then LStrip(s[1..]) else s
  }

  function RStripWhere(s: string, strip: char -> bool): (r: string)
    ensures |r| <= |s| && StartsWith(s, r)
    ensures |r| > 0 ==> !strip(r[|r| - 1])
  {
    if |s| > 0 && strip(s[|s| - 1]) then RStripWhere(s[..|s| - 1], strip) else s
  }

  /** Python `s.strip()`. */
  function Strip(s: string): (r: string)
    ensures |r| > 0 ==> !IsSpace(r[0]) && !IsSpace(r[|r| - 1])
  {
    var l := LStrip(s);
    var r := RStripWhere(l, IsSpace);
    assert |r| > 0 ==> r[0] == l[0];
    r
  }

  /** A string with no whitespace at either end strips to itself. */
  lemma StripUnpadded(s: string)
    requires |s| > 0 && !IsSpace(s[0]) && !IsSpace(s[|s| - 1])
    ensures Strip(s) == s
  {
    assert LStrip(s) == s;
    assert RStripWhere(s, IsSpace) == s;
  }

  /** Python `s.rstrip(c)` for one character. */
  function RStrip(s: string, c: char): (r: string)
    ensures StartsWith(s, r)
    ensures |r| > 0 ==> r[|r| - 1] != c
  {
    RStripWhere(s, x => x == c)
  }

  /** Python `str(n)` for an integer. */
  function IntToString(i: int): (r: string)
    ensures |r| > 0
  {
    if i < 0 then "-" + NatToString(-i) else NatToString(i)
  }

  function NatToString(n: nat): (r: string)
    ensures IsDigits(r)
  {
    var d := ['0' + (n % 10) as char];
    if n < 10 then d else NatToString(n / 10) + d
  }

  /** Python's `value[:n] + "..." if len(value) > n else value`. */
  function Truncate(s: string, n: nat): (r: string)
    ensures |s| <= n ==> r == s
    ensures |s| > n ==> |r| == n + 3 && StartsWith(r, s[..n]) && EndsWith(r, "...")
  {
    if |s| > n then s[..n] + "..." else s
  }

  predicate IsHexDigit(c: char) {
    IsDigit(c) || 'a' <= c <= 'f' || 'A' <= c <= 'F'
  }

  function HexValue(c: char): nat
    requires IsHexDigit(c)
  {
    if IsDigit(c) then c as nat - '0' as nat
    else if 'a' <= c <= 'f' then c as nat - 'a' as nat + 10
    else c as nat - 'A' as nat + 10
  }

  /** `urllib.parse.unquote` for escapes of ASCII characters; a `%XX` escape of a
      byte of 0x80 or more is kept as it is (the UTF-8 decoding step is not modelled). */
  function Unquote(s: string): string
    decreases |s|
  {
    if |s| >= 3 && s[0] == '%' && IsHexDigit(s[1]) && IsHexDigit(s[2])
       && HexValue(s[1]) * 16 + HexValue(s[2]) < 128
    then [(HexValue(s[1]) * 16 + HexValue(s[2])) as char] + Unquote(s[3..])
    else if |s| == 0 then ""
    else [s[0]] + Unquote(s[1..])
  }

  /** Text without a `%` is left unchanged by `Unquote`. */
  lemma {:induction false} UnquotePlain(s: string)
    requires '%' !in s
    ensures Unquote(s) == s
    decreases |s|
  {
    if |s| > 0 {
      assert '%' !in s[1..];
      UnquotePlain(s[1..]);
    }
  }
}
