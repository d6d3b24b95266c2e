/**
 * The few Python `str` operations the scripts use: `in`, `lower`, `title`,
 * `replace`, `strip`, `split(sep, 1)`, `' '.join` and slicing `[:n]`.
 * Case mapping covers the ASCII letters only.
 */
module Text {

  /** Python's `sub in s`. */
  predicate Contains(s: string, sub: string) {
    exists i | 0 <= i <= |s| - |sub| :: OccursAt(s, sub, i)
  }

  /** `sub` stands in `s` from position `i` on. */
  predicate OccursAt(s: string, sub: string, i: int) {
    0 <= i <= |s| - |sub| && s[i..i + |sub|] == sub
  }

  predicate IsUpper(c: char) { 'A' <= c <= 'Z' }
  predicate IsLower(c: char) { 'a' <= c <= 'z' }
  /** A character that has case (ASCII letters). */
  predicate IsCased(c: char) { IsUpper(c) || IsLower(c) }

  function ToLower(c: char): char {
    if IsUpper(c) then c - 'A' + 'a' else c
  }

  function ToUpper(c: char): char {
    if IsLower(c) then c - 'a' + 'A' else c
  }

  /** Python's `s.lower()`. */
  function Lower(s: string): (r: string)
    ensures |r| == |s|
    ensures forall i :: 0 <= i < |s| ==> !IsUpper(r[i])
  {
    seq(|s|, i requires 0 <= i < |s| => ToLower(s[i]))
  }

  /** Python's `s.replace(from, to)` for single characters. */
  function ReplaceChar(s: string, from: char, to: char): (r: string)
    ensures |r| == |s|
    ensures forall i :: 0 <= i < |s| ==> r[i] == (if s[i] == from then to else s[i])
  {
    seq(|s|, i requires 0 <= i < |s| => if s[i] == from then to else s[i])
  }

  /**
   * Python's `s.title()`: a cased character is upper-cased when the character
   * before it is not cased, and lower-cased otherwise (so `15m` becomes `15M`).
   */
  function Title(s: string): string {
    TitleAfter(s, false)
  }

  function TitleAfter(s: string, prevCased: bool): (r: string)
    ensures |r| == |s|
    ensures |s| > 0 && IsCased(s[0]) && !prevCased ==> r[0] == ToUpper(s[0])
    ensures forall i :: 0 < i < |s| && IsCased(s[i]) ==>
      r[i] == (if IsCased(s[i - 1]) then ToLower(s[i]) else ToUpper(s[i]))
    ensures forall i :: 0 <= i < |s| && !IsCased(s[i]) ==> r[i] == s[i]
    decreases |s|
  {
    if s == [] then []
    else
      var c := s[0];
      var c' := if !IsCased(c) then c else if prevCased then ToLower(c) else ToUpper(c);
      [c'] + TitleAfter(s[1..], IsCased(c))
  }

  /** Python's `s.lstrip(chars)`: the suffix left after dropping leading characters in `cs`. */
  function TrimStart(s: string, cs: set<char>): (r: string)
    ensures |r| <= |s|
    ensures r != [] ==> r[0] !in cs
    ensures s == [] || s[0] !in cs ==> r == s
    decreases |s|
  {
    if s != [] && s[0] in cs then TrimStart(s[1..], cs) else s
  }

  /** `lstrip` keeps a suffix and drops only characters in `cs`. */
  lemma {:induction false} TrimStartMeaning(s: string, cs: set<char>)
    ensures var r := TrimStart(s, cs);
      && r == s[|s| - |r|..]
      && forall j :: 0 <= j < |s| - |r| ==> s[j] in cs
    decreases |s|
  {
    if s != [] && s[0] in cs {
      TrimStartMeaning(s[1..], cs);
    }
  }

  /** Python's `s.rstrip(chars)`: the prefix left after dropping trailing characters in `cs`. */
  function TrimEnd(s: string, cs: set<char>): (r: string)
    ensures |r| <= |s|
    ensures r != [] ==> r[|r| - 1] !in cs
    ensures s == [] || s[|s| - 1] !in cs ==> r == s
    decreases |s|
  {
    if s != [] && s[|s| - 1] in cs then TrimEnd(s[..|s| - 1], cs) else s
  }

  /** `rstrip` keeps a prefix and drops only characters in `cs`. */
  lemma {:induction false} TrimEndMeaning(s: string, cs: set<char>)
    ensures var r := TrimEnd(s, cs);
      && r == s[..|r|]
      && forall j :: |r| <= j < |s| ==> s[j] in cs
    decreases |s|
  {
    if s != [] && s[|s| - 1] in cs {
      TrimEndMeaning(s[..|s| - 1], cs);
    }
  }

  /** Python's `s.strip(chars)`. */
  function Strip(s: string, cs: set<char>): (r: string)
    ensures |r| <= |s|
    ensures r != [] ==> r[0] !in cs && r[|r| - 1] !in cs
    ensures s == [] || (s[0] !in cs && s[|s| - 1] !in cs) ==> r == s
  {
    TrimEndMeaning(TrimStart(s, cs), cs);
    TrimEnd(TrimStart(s, cs), cs)
  }

  /**
   * `strip` keeps the middle slice of `s` that starts after the leading run of
   * characters in `cs`, and drops only characters in `cs` before and after it.
   */
  lemma StripMeaning(s: string, cs: set<char>)
    ensures var r := Strip(s, cs);
      var a := |s| - |TrimStart(s, cs)|;
      && a + |r| <= |s| && r == s[a..a + |r|]
      && (forall j :: 0 <= j < a ==> s[j] in cs)
      && (forall j :: a + |r| <= j < |s| ==> s[j] in cs)
  {
    var t := TrimStart(s, cs);
    TrimStartMeaning(s, cs);
    TrimEndMeaning(t, cs);
    MiddleOfSlices(s, t, TrimEnd(t, cs), cs);
  }

  /** A prefix of a suffix is a middle slice, and what both cuts dropped lies in `cs`. */
  lemma MiddleOfSlices(s: string, t: string, r: string, cs: set<char>)
    requires |t| <= |s| && t == s[|s| - |t|..]
    requires |r| <= |t| && r == t[..|r|] && forall j :: |r| <= j < |t| ==> t[j] in cs
    ensures var a := |s| - |t|;
      r == s[a..a + |r|] && forall j :: a + |r| <= j < |s| ==> s[j] in cs
  {
    var a := |s| - |t|;
    forall j | a + |r| <= j < |s| ensures s[j] in cs {
      assert s[j] == t[j - a];
    }
  }

  /** The characters Python's `str.isspace()` accepts, which `strip()` removes. */
  const Whitespace: set<char> := {
    '\t', '\n', '\U{0B}', '\U{0C}', '\r', '\U{1C}', '\U{1D}', '\U{1E}', '\U{1F}', ' ',
    '\U{85}', '\U{A0}', '\U{1680}', '\U{2000}', '\U{2001}', '\U{2002}', '\U{2003}',
    '\U{2004}', '\U{2005}', '\U{2006}', '\U{2007}', '\U{2008}', '\U{2009}', '\U{200A}',
    '\U{2028}', '\U{2029}', '\U{202F}', '\U{205F}', '\U{3000}'
  }

  /** Python's `s.split(sep, 1)` when `sep` occurs: the text before the first `sep` and the rest. */
  function SplitAtFirst(s: string, sep: char): (r: (string, string))
    requires sep in s
    ensures sep !in r.0
    ensures s == r.0 + [sep] + r.1
  {
    if s[0] == sep then ([], s[1..])
    else
      var (before, after) := SplitAtFirst(s[1..], sep);
      ([s[0]] + before, after)
  }

  /** Python's `' '.join(parts)`. */
  function JoinSpaces(parts: seq<string>): string {
    if |parts| == 0 then ""
    else if |parts| == 1 then parts[0]
    else parts[0] + " " + JoinSpaces(parts[1..])
  }

  /** Python's `s[:n]`. */
  function Truncate(s: string, n: nat): (r: string)
    ensures |r| <= n && |r| <= |s| && r == s[..|r|]
    ensures |s| <= n ==> r == s
  {
    if |s| <= n then s else s[..n]
  }
}
