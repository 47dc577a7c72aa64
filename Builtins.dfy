/** The JavaScript String and Array primitives the app relies on, stated over
    `string` (a `seq<char>`) and `seq`: `indexOf`, `replace` with a string pattern,
    `split`, `join`, `trim`, `toLowerCase` and number-to-string conversion. */
module Builtins {

  /** `pat` occurs in `s` starting at position `i`. */
  predicate OccursAt(s: string, pat: string, i: nat)
  {
    i + |pat| <= |s| && s[i..i + |pat|] == pat
  }

  /** `s.indexOf(pat, from)`: the first position at or after `from` where `pat`
      occurs, or -1 when there is none. */
  function IndexFrom(s: string, pat: string, from: nat): (r: int)
    ensures r == -1 || (from <= r && OccursAt(s, pat, r))
    ensures forall i: nat :: from <= i && (r == -1 || i < r) ==> !OccursAt(s, pat, i)
    decreases |s| - from
  {
    if from + |pat| > |s| then -1
    else if s[from..from + |pat|] == pat then from
    else IndexFrom(s, pat, from + 1)
  }

  /** `s.indexOf(pat)`. */
  function IndexOf(s: string, pat: string): int
  {
    IndexFrom(s, pat, 0)
  }

  /** `s.indexOf(pat) > -1`: `pat` is a substring of `s`. */
  predicate Contains(s: string, pat: string)
  {
    IndexOf(s, pat) >= 0
  }

  /** `s.replace(pat, rep)` with a string pattern: only the FIRST occurrence of
      `pat` is replaced (the replacement strings used by the app hold no `$`). */
  function ReplaceFirst(s: string, pat: string, rep: string): string
  {
    var i := IndexOf(s, pat);
    if i < 0 then s else s[..i] + rep + s[i + |pat|..]
  }

  /** Replacement happens at the first occurrence and nowhere else. */
  lemma ReplaceFirstAt(s: string, pat: string, rep: string, i: nat)
    requires OccursAt(s, pat, i)
    requires forall j: nat :: j < i ==> !OccursAt(s, pat, j)
    ensures ReplaceFirst(s, pat, rep) == s[..i] + rep + s[i + |pat|..]
  {
  }

  /** A string without the pattern is left as it is. */
  lemma ReplaceFirstAbsent(s: string, pat: string, rep: string)
    requires forall j: nat :: !OccursAt(s, pat, j)
    ensures ReplaceFirst(s, pat, rep) == s
  {
  }

  /** Position of the first `c` in `s`. */
  function FirstChar(s: string, c: char): (i: nat)
    requires c in s
    ensures i < |s| && s[i] == c && c !in s[..i]
  {
    if s[0] == c then 0
    else
      var k := FirstChar(s[1..], c);
      assert s[..k + 1] == [s[0]] + s[1..][..k];
      k + 1
  }

  /** The first `c` in `a + [c] + b` is the one after `a` when `a` holds none. */
  lemma FirstCharAfter(a: string, c: char, b: string)
    requires c !in a
    ensures c in a + [c] + b && FirstChar(a + [c] + b, c) == |a|
  {
    var s := a + [c] + b;
    assert s[|a|] == c;
    assert s[..|a|] == a;
  }

  /** For a one-character pattern, `indexOf` finds the first occurrence of that character. */
  lemma CharIndexOf(s: string, c: char)
    ensures IndexOf(s, [c]) >= 0 <==> c in s
    ensures c in s ==> IndexOf(s, [c]) == FirstChar(s, c)
  {
    forall j: nat | OccursAt(s, [c], j)
      ensures s[j] == c
    {
      assert s[j..j + 1][0] == s[j];
    }
    if c in s {
      var i := FirstChar(s, c);
      assert OccursAt(s, [c], i);
      assert forall j :: 0 <= j < i ==> s[..i][j] == s[j];
    }
  }

  /** A string holding a pattern holds every piece of it. */
  lemma ContainsPart(s: string, pat: string, i: nat, j: nat)
    requires i <= j <= |pat|
    ensures Contains(s, pat) ==> Contains(s, pat[i..j])
  {
    if Contains(s, pat) {
      var k := IndexOf(s, pat);
      forall x | 0 <= x < j - i
        ensures s[k + i..k + j][x] == pat[i..j][x]
      {
        assert s[k + i..k + j][x] == s[k..k + |pat|][i + x];
      }
      assert s[k + i..k + j] == pat[i..j];
      assert OccursAt(s, pat[i..j], k + i);
    }
  }

  /** A pattern with a character the string lacks is not replaced. */
  lemma ReplaceAbsentChar(s: string, c: char, pat: string, rep: string)
    requires c in pat && c !in s
    ensures !Contains(s, pat) && ReplaceFirst(s, pat, rep) == s
  {
    var k :| 0 <= k < |pat| && pat[k] == c;
    ContainsPart(s, pat, k, k + 1);
    assert pat[k..k + 1] == [c];
    CharIndexOf(s, c);
  }

  /** An occurrence whose first character appears nowhere earlier is the first one. */
  lemma FirstOccurrence(s: string, pat: string, i: nat)
    requires OccursAt(s, pat, i) && |pat| > 0 && pat[0] !in s[..i]
    ensures IndexOf(s, pat) == i
  {
    forall j: nat | OccursAt(s, pat, j)
      ensures s[j] == pat[0]
    {
      assert s[j..j + |pat|][0] == s[j];
    }
    forall j: nat | j < i
      ensures s[j] != pat[0]
    {
      assert s[..i][j] == s[j];
    }
  }

  /** `s` up to (not including) its first `c`; all of `s` when there is none. */
  function UpTo(s: string, c: char): string
  {
    if c in s then s[..FirstChar(s, c)] else s
  }

  /** `parts.join(sep)`. */
  function Join(parts: seq<string>, sep: string): string
  {
    if |parts| == 0 then ""
    else if |parts| == 1 then parts[0]
    else parts[0] + sep + Join(parts[1..], sep)
  }

  /** `s.split(sep)` for a one-character separator: the pieces between the
      separators, none of which holds the separator (`SplitParts` states how they
      make up `s`). */
  function Split(s: string, sep: char): (parts: seq<string>)
    ensures |parts| >= 1
    ensures forall k :: 0 <= k < |parts| ==> sep !in parts[k]
    decreases |s|
  {
    if sep !in s then [s]
    else
      var i := FirstChar(s, sep);
      [s[..i]] + Split(s[i + 1..], sep)
  }

  /** The pieces join back to `s`; the first is `s` up to its first separator and,
      when there is a separator, the second runs from there up to the next one. */
  lemma {:induction false} SplitParts(s: string, sep: char)
    ensures Join(Split(s, sep), [sep]) == s
    ensures Split(s, sep)[0] == UpTo(s, sep)
    ensures sep in s ==> |Split(s, sep)| >= 2 && Split(s, sep)[1] == UpTo(s[FirstChar(s, sep) + 1..], sep)
    decreases |s|
  {
    if sep in s {
      var i := FirstChar(s, sep);
      var rest := Split(s[i + 1..], sep);
      SplitParts(s[i + 1..], sep);
      assert Split(s, sep) == [s[..i]] + rest;
      assert ([s[..i]] + rest)[1..] == rest;
      assert s == s[..i] + [sep] + s[i + 1..];
    }
  }

  /** Splitting undoes joining whenever no piece holds the separator. */
  lemma {:induction false} SplitJoin(parts: seq<string>, sep: char)
    requires |parts| >= 1
    requires forall k :: 0 <= k < |parts| ==> sep !in parts[k]
    ensures Split(Join(parts, [sep]), sep) == parts
    decreases |parts|
  {
    if |parts| > 1 {
      var rest := Join(parts[1..], [sep]);
      var s := Join(parts, [sep]);
      assert s == parts[0] + [sep] + rest;
      FirstCharAfter(parts[0], sep, rest);
      assert s[..|parts[0]|] == parts[0];
      assert s[|parts[0]| + 1..] == rest;
      SplitJoin(parts[1..], sep);
    }
  }

  /** The characters JavaScript's `trim` removes: white space and line terminators. */
  predicate IsJsSpace(c: char)
  {
    || c == ' ' || c == '\t' || c == '\n' || c == '\r' || c == '\U{B}' || c == '\U{C}'
    || c == '\U{A0}' || c == '\U{1680}' || ('\U{2000}' <= c <= '\U{200A}')
    || c == '\U{2028}' || c == '\U{2029}' || c == '\U{202F}' || c == '\U{205F}'
    || c == '\U{3000}' || c == '\U{FEFF}'
  }

  function TrimStart(s: string): (r: string)
    ensures |r| <= |s| && r == s[|s| - |r|..]
    ensures forall i :: 0 <= i < |s| - |r| ==> IsJsSpace(s[i])
    ensures |r| > 0 ==> !IsJsSpace(r[0])
  {
    if |s| > 0 && IsJsSpace(s[0]) then TrimStart(s[1..]) else s
  }

  function TrimEnd(s: string): (r: string)
    ensures |r| <= |s| && r == s[..|r|]
    ensures forall i :: |r| <= i < |s| ==> IsJsSpace(s[i])
    ensures |r| > 0 ==> !IsJsSpace(r[|r| - 1])
  {
    if |s| > 0 && IsJsSpace(s[|s| - 1]) then TrimEnd(s[..|s| - 1]) else s
  }

  /** `s.trim()`: `s` without its leading and trailing white space. */
  function Trim(s: string): (r: string)
    ensures |r| > 0 ==> !IsJsSpace(r[0]) && !IsJsSpace(r[|r| - 1])
    ensures exists i, j :: 0 <= i <= j <= |s| && r == s[i..j]
  {
    var t := TrimStart(s);
    var r := TrimEnd(t);
    assert r == s[|s| - |t|..|s| - |t| + |r|];
    r
  }

  function LowerChar(c: char): char
  {
    if 'A' <= c <= 'Z' then (c as int + 32) as char else c
  }

  /** `s.toLowerCase()`, restricted to the ASCII letters. */
  function Lower(s: string): (r: string)
    ensures |r| == |s| && forall i :: 0 <= i < |s| ==> r[i] == LowerChar(s[i])
  {
    seq(|s|, i requires 0 <= i < |s| => LowerChar(s[i]))
  }

  /** Lower-casing twice is lower-casing once. */
  lemma LowerIdempotent(s: string)
    ensures Lower(Lower(s)) == Lower(s)
  {
  }

  function DigitChar(d: nat): char
    requires d < 10
  {
    "0123456789"[d]
  }

  /** The decimal form JavaScript gives a non-negative integer. */
  function NatToString(n: nat): (r: string)
    ensures |r| >= 1
    ensures forall i :: 0 <= i < |r| ==> '0' <= r[i] <= '9'
  {
    if n < 10 then [DigitChar(n)] else NatToString(n / 10) + [DigitChar(n % 10)]
  }

  /** The decimal form JavaScript gives an integer. */
  function IntToString(n: int): string
  {
    if n < 0 then "-" + NatToString(-n) else NatToString(n)
  }

  /** `a.indexOf(x)` on an array: the first position holding `x`, or -1. */
  function IndexIn<T(==)>(a: seq<T>, x: T): (r: int)
    ensures -1 <= r < |a|
    ensures r == -1 <==> x !in a
    ensures r >= 0 ==> a[r] == x && x !in a[..r]
  {
    if |a| == 0 then -1
    else if a[0] == x then 0
    else
      var k := IndexIn(a[1..], x);
      if k < 0 then -1
      else
        assert a[..k + 1] == [a[0]] + a[1..][..k];
        k + 1
  }
}
