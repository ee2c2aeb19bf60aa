/**
 * String helpers with the meaning Python gives them, restricted to ASCII:
 * `str.lower()`, `str.strip()`, `in`, `startswith`, `split`, `join`, slicing, `str(int)`.
 */
module Text {
  import opened Wrappers

  /** Python's `str.isspace()` on ASCII: tab, newline, vertical tab, form feed,
      carriage return, the four separators U+001C..U+001F, and space. */
  predicate IsSpace(c: char) {
    c == ' ' || ('\U{9}' <= c <= '\U{D}') || ('\U{1C}' <= c <= '\U{1F}')
  }

  function LowerChar(c: char): char {
    if 'A' <= c <= 'Z' then (c as int + 32) as char else c
  }

  /** `s.lower()` on ASCII letters; every other character is kept. */
  function Lower(s: string): (r: string)
    ensures |r| == |s|
    ensures forall i :: 0 <= i < |s| ==> r[i] == LowerChar(s[i])
  {
    seq(|s|, i requires 0 <= i < |s| => LowerChar(s[i]))
  }

  function StripLeft(s: string): (r: string)
    ensures |r| <= |s| && r == s[|s| - |r|..]
    ensures r == [] || !IsSpace(r[0])
    ensures forall i :: 0 <= i < |s| - |r| ==> IsSpace(s[i])
  {
    if |s| > 0 && IsSpace(s[0]) then
      var r := StripLeft(s[1..]);
      assert forall i :: 1 <= i < |s| ==> s[i] == s[1..][i - 1];
      r
    else s
  }

  function StripRight(s: string): (r: string)
    ensures |r| <= |s| && r == s[..|r|]
    ensures r == [] || !IsSpace(r[|r| - 1])
    ensures forall i :: |r| <= i < |s| ==> IsSpace(s[i])
  {
    if |s| > 0 && IsSpace(s[|s| - 1]) then StripRight(s[..|s| - 1]) else s
  }

  /** `s.strip()`: whitespace removed at both ends. */
  function Strip(s: string): (r: string)
    ensures |r| <= |s|
    ensures r == [] || (!IsSpace(r[0]) && !IsSpace(r[|r| - 1]))
  {
    StripRight(StripLeft(s))
  }

  function StripCharLeft(s: string, c: char): (r: string)
    ensures |r| <= |s| && r == s[|s| - |r|..]
    ensures r == [] || r[0] != c
    ensures forall i :: 0 <= i < |s| - |r| ==> s[i] == c
  {
    if |s| > 0 && s[0] == c then
      var r := StripCharLeft(s[1..], c);
      assert forall i :: 1 <= i < |s| ==> s[i] == s[1..][i - 1];
      r
    else s
  }

  function StripCharRight(s: string, c: char): (r: string)
    ensures |r| <= |s| && r == s[..|r|]
    ensures r == [] || r[|r| - 1] != c
    ensures forall i :: |r| <= i < |s| ==> s[i] == c
  {
    if |s| > 0 && s[|s| - 1] == c then StripCharRight(s[..|s| - 1], c) else s
  }

  /** `s.strip(c)` for one character `c`. */
  function StripChar(s: string, c: char): (r: string)
    ensures |r| <= |s|
    ensures r == [] || (r[0] != c && r[|r| - 1] != c)
  {
    StripCharRight(StripCharLeft(s, c), c)
  }

  /** `s.startswith(p)`. */
  predicate StartsWith(s: string, p: string) {
    |p| <= |s| && s[..|p|] == p
  }

  /** `sub` occurs in `s` starting at index `j`. */
  predicate OccursAt(s: string, sub: string, j: nat) {
    j + |sub| <= |s| && s[j..j + |sub|] == sub
  }

  /** The first index at or after `k` at which `sub` occurs in `s`, if any. */
  function IndexFrom(s: string, sub: string, k: nat): (r: Option<nat>)
    requires k <= |s|
    ensures r.Some? ==> k <= r.value && OccursAt(s, sub, r.value)
    ensures r.Some? ==> forall j :: k <= j < r.value ==> !OccursAt(s, sub, j)
    ensures r.None? ==> forall j :: k <= j ==> !OccursAt(s, sub, j)
    decreases |s| - k
  {
    if k + |sub| > |s| then None
    else if s[k..k + |sub|] == sub then Some(k)
    else IndexFrom(s, sub, k + 1)
  }

  /** The first index at which `sub` occurs in `s` (`s.find(sub)`), if any. */
  function IndexOf(s: string, sub: string): (r: Option<nat>)
    ensures r.Some? ==> OccursAt(s, sub, r.value)
    ensures r.Some? ==> forall j :: 0 <= j < r.value ==> !OccursAt(s, sub, j)
    ensures r.None? ==> forall j :: !OccursAt(s, sub, j)
  {
    IndexFrom(s, sub, 0)
  }

  /** `sub in s`. */
  predicate Contains(s: string, sub: string) {
    IndexOf(s, sub).Some?
  }

  lemma ContainsAt(s: string, sub: string, j: nat)
    requires OccursAt(s, sub, j)
    ensures Contains(s, sub)
  {
  }

  /** `s.split(sep)` for a non-empty separator: the pieces between
      non-overlapping occurrences, found from left to right. */
  function SplitOn(s: string, sep: string): (parts: seq<string>)
    requires |sep| > 0
    ensures |parts| >= 1
    decreases |s|
  {
    match IndexOf(s, sep)
    case None => [s]
    case Some(i) => [s[..i]] + SplitOn(s[i + |sep|..], sep)
  }

  /** `s.split("\n")`. */
  function Lines(s: string): (lines: seq<string>)
    ensures |lines| >= 1
  {
    SplitOn(s, "\n")
  }

  /** `s.split(sep, 1)[1]`: the text after the first occurrence of `sep`. */
  function AfterFirst(s: string, sep: string): string
    requires Contains(s, sep)
  {
    s[IndexOf(s, sep).value + |sep|..]
  }

  /** `s.split(sep)[-1]`: the text after the last non-overlapping occurrence of `sep`. */
  function LastPiece(s: string, sep: string): string
    requires |sep| > 0
  {
    var parts := SplitOn(s, sep);
    parts[|parts| - 1]
  }

  /** `sep.join(parts)`. */
  function Join(parts: seq<string>, sep: string): string {
    if |parts| == 0 then ""
    else if |parts| == 1 then parts[0]
    else parts[0] + sep + Join(parts[1..], sep)
  }

  /** `s[:n]`. */
  function Take(s: string, n: nat): (r: string)
    ensures |r| <= n && |r| <= |s| && r == s[..|r|]
    ensures |s| <= n ==> r == s
    ensures |s| > n ==> |r| == n
  {
    if |s| <= n then s else s[..n]
  }

  predicate IsDigit(c: char) {
    '0' <= c <= '9'
  }

  function DigitChar(d: nat): (c: char)
    requires d < 10
    ensures IsDigit(c)
  {
    ('0' as int + d) as char
  }

  /** `str(n)` for a non-negative integer. */
  function NatToString(n: nat): (r: string)
    ensures |r| >= 1
    ensures forall i :: 0 <= i < |r| ==> IsDigit(r[i])
  {
    if n < 10 then [DigitChar(n)] else NatToString(n / 10) + [DigitChar(n % 10)]
  }

  /** `str(n)`: a minus sign before the digits of a negative number. */
  function IntToString(n: int): (r: string)
    ensures |r| >= 1
    ensures forall i :: 0 <= i < |r| ==> IsDigit(r[i]) || r[i] == '-'
  {
    if n < 0 then "-" + NatToString(-n) else NatToString(n)
  }

  /** The value of a string of decimal digits: the inverse of `NatToString`. */
  function DigitsValue(s: string): nat
    requires forall i :: 0 <= i < |s| ==> IsDigit(s[i])
  {
    if s == [] then 0
    else
      assert IsDigit(s[|s| - 1]);
      DigitsValue(s[..|s| - 1]) * 10 + (s[|s| - 1] as int - '0' as int)
  }

  lemma {:induction false} NatToStringRoundTrip(n: nat)
    ensures DigitsValue(NatToString(n)) == n
  {
    if n >= 10 {
      NatToStringRoundTrip(n / 10);
      var s := NatToString(n);
      assert s[..|s| - 1] == NatToString(n / 10);
    }
  }

  lemma NatToStringHead(n: nat)
    ensures NatToString(n)[0] != '-'
  {
    assert IsDigit(NatToString(n)[0]);
  }

  /** Distinct integers print differently. */
  lemma IntToStringInjective(a: int, b: int)
    requires IntToString(a) == IntToString(b)
    ensures a == b
  {
    if a >= 0 && b >= 0 {
      NatToStringRoundTrip(a);
      NatToStringRoundTrip(b);
    } else if a < 0 && b < 0 {
      var sa, sb := NatToString(-a), NatToString(-b);
      assert ("-" + sa)[1..] == sa;
      assert ("-" + sb)[1..] == sb;
      NatToStringRoundTrip(-a);
      NatToStringRoundTrip(-b);
    } else if a < 0 {
      NatToStringHead(b);
      assert false;
    } else {
      NatToStringHead(a);
      assert false;
    }
  }
  /** A string in which some character of `sub` never appears does not contain `sub`. */
  lemma MissingCharNotContained(s: string, sub: string, k: nat)
    requires k < |sub|
    requires forall i :: 0 <= i < |s| ==> s[i] != sub[k]
    ensures !Contains(s, sub)
  {
  }

  /** `"" in s` always holds. */
  lemma ContainsEmpty(s: string)
    ensures Contains(s, "")
  {
    ContainsAt(s, "", 0);
  }

  /** A string contains each of its suffixes. */
  lemma ContainsSuffix(p: string, sub: string)
    ensures Contains(p + sub, sub)
  {
    assert (p + sub)[|p|..|p| + |sub|] == sub;
    ContainsAt(p + sub, sub, |p|);
  }

  /** What a string contains, a longer one ending with it contains too. */
  lemma ContainsAfter(p: string, s: string, sub: string)
    requires Contains(s, sub)
    ensures Contains(p + s, sub)
  {
    var j := IndexOf(s, sub).value;
    assert (p + s)[|p| + j..|p| + j + |sub|] == s[j..j + |sub|];
    ContainsAt(p + s, sub, |p| + j);
  }

  /** What a string contains, a longer one starting with it contains too. */
  lemma ContainsBefore(s: string, q: string, sub: string)
    requires Contains(s, sub)
    ensures Contains(s + q, sub)
  {
    var j := IndexOf(s, sub).value;
    assert (s + q)[j..j + |sub|] == s[j..j + |sub|];
    ContainsAt(s + q, sub, j);
  }

  /** Containing a string implies containing each of its prefixes. */
  lemma ContainsPrefix(s: string, sub: string, n: nat)
    requires n <= |sub| && Contains(s, sub)
    ensures Contains(s, sub[..n])
  {
    var j := IndexOf(s, sub).value;
    assert s[j..j + n] == s[j..j + |sub|][..n];
    ContainsAt(s, sub[..n], j);
  }

  /** Stripping a string without whitespace at its ends changes nothing. */
  lemma StripOfTrimmed(s: string)
    requires s == [] || (!IsSpace(s[0]) && !IsSpace(s[|s| - 1]))
    ensures Strip(s) == s
  {
  }

  /** Lower-casing a string without upper-case ASCII letters changes nothing. */
  lemma LowerOfNoUpper(s: string)
    requires forall i :: 0 <= i < |s| ==> !('A' <= s[i] <= 'Z')
    ensures Lower(s) == s
  {
  }

  lemma LowerAppend(a: string, b: string)
    ensures Lower(a + b) == Lower(a) + Lower(b)
  {
  }

  /** A string that does not contain the separator splits into itself. */
  lemma SplitOnAbsent(s: string, sep: string)
    requires |sep| > 0 && !Contains(s, sep)
    ensures SplitOn(s, sep) == [s]
  {
  }

  /** Joining pieces that are all non-empty, at least one of them, is non-empty. */
  lemma JoinNonEmpty(parts: seq<string>, sep: string)
    requires |parts| >= 1 && parts[0] != ""
    ensures Join(parts, sep) != ""
  {
    if |parts| > 1 {
      assert Join(parts, sep)[..|parts[0]|] == parts[0];
    }
  }
  /** A string ending in its only occurrence of the separator splits into the
      text before it and an empty piece. */
  lemma SplitOnTrailingSep(p: string, sep: string)
    requires |sep| > 0
    requires forall j: nat :: j < |p| ==> !OccursAt(p + sep, sep, j)
    ensures SplitOn(p + sep, sep) == [p, ""]
  {
    var s := p + sep;
    assert s[|p|..|p| + |sep|] == sep;
    assert OccursAt(s, sep, |p|);
    assert IndexOf(s, sep) == Some(|p|);
    assert s[..|p|] == p;
    assert s[|p| + |sep|..] == [];
    assert IndexOf([], sep) == None;
  }
  /** When the first occurrence of the separator is the one right after `p`, the
      split starts with `p` and goes on as the split of `q`. */
  lemma SplitOnFirstOccurrence(p: string, sep: string, q: string)
    requires |sep| > 0
    requires forall j: nat :: j < |p| ==> !OccursAt(p + sep + q, sep, j)
    ensures SplitOn(p + sep + q, sep) == [p] + SplitOn(q, sep)
  {
    var s := p + sep + q;
    assert s[|p|..|p| + |sep|] == sep;
    assert OccursAt(s, sep, |p|);
    assert IndexOf(s, sep) == Some(|p|);
    assert s[..|p|] == p;
    assert s[|p| + |sep|..] == q;
  }

  /** Splitting pieces joined by a character none of them contains gives the
      pieces back. */
  lemma {:induction false} SplitJoin(parts: seq<string>, c: char)
    requires |parts| >= 1
    requires forall k :: 0 <= k < |parts| ==> c !in parts[k]
    ensures SplitOn(Join(parts, [c]), [c]) == parts
  {
    if |parts| == 1 {
      MissingCharNotContained(parts[0], [c], 0);
      SplitOnAbsent(parts[0], [c]);
    } else {
      var p, q := parts[0], Join(parts[1..], [c]);
      SplitJoin(parts[1..], c);
      assert Join(parts, [c]) == p + [c] + q;
      forall j: nat | j < |p|
        ensures !OccursAt(p + [c] + q, [c], j)
      {
        assert (p + [c] + q)[j] == p[j];
      }
      SplitOnFirstOccurrence(p, [c], q);
      assert parts == [p] + parts[1..];
    }
  }

  /** A separator character that does not occur in what follows it marks where a
      concatenation was made. */
  lemma SplitAtLastChar(a1: string, d1: string, a2: string, d2: string, c: char)
    requires c !in d1 && c !in d2
    requires a1 + [c] + d1 == a2 + [c] + d2
    ensures a1 == a2 && d1 == d2
  {
    var s := a1 + [c] + d1;
    assert s[|a1|] == c && s[|a2|] == c;
    assert a1 == s[..|a1|] && a2 == s[..|a2|];
    assert d1 == s[|a1| + 1..] && d2 == s[|a2| + 1..];
  }

  /** A separator character that does not occur in what precedes it marks where a
      concatenation was made. */
  lemma SplitAtFirstChar(d1: string, a1: string, d2: string, a2: string, c: char)
    requires c !in d1 && c !in d2
    requires d1 + [c] + a1 == d2 + [c] + a2
    ensures d1 == d2 && a1 == a2
  {
    var s := d1 + [c] + a1;
    assert s[|d1|] == c && s[|d2|] == c;
    assert d1 == s[..|d1|] && d2 == s[..|d2|];
    assert a1 == s[|d1| + 1..] && a2 == s[|d2| + 1..];
  }
}
