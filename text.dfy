/**
 * The JavaScript string operations the client relies on, over `string`
 * (a sequence of characters): `trim`, `toUpperCase`, `split` and the idioms
 * built from it (`split('@')[0]`, `split('.').pop()`, the initials chain
 * `split(re).map(part => part[0]).join('')`), `slice(0, n)`, `startsWith`
 * and `includes`.
 */
module Text {
  import opened Wrappers

  // ---------------------------------------------------------------------
  // Characters and truthiness
  // ---------------------------------------------------------------------

  /** White space as ECMAScript defines it for `trim` and for the regular
      expression class `\s`: TAB, VT, FF, SP, NBSP, ZWNBSP, the other space
      separators, and the line terminators LF, CR, LS and PS. */
  predicate IsSpace(c: char) {
    c == '\t' || c == '\n' || c == '\U{B}' || c == '\U{C}' || c == '\r' || c == ' '
    || c == '\U{A0}' || c == '\U{1680}' || ('\U{2000}' <= c <= '\U{200A}')
    || c == '\U{2028}' || c == '\U{2029}' || c == '\U{202F}' || c == '\U{205F}'
    || c == '\U{3000}' || c == '\U{FEFF}'
  }

  predicate IsDot(c: char) { c == '.' }

  /** The character class `[\s\.]`. */
  predicate IsSpaceOrDot(c: char) { IsSpace(c) || IsDot(c) }

  /** `!s.trim()`: nothing but white space. */
  predicate Blank(s: string) {
    forall i :: 0 <= i < |s| ==> IsSpace(s[i])
  }

  /** JavaScript truthiness of a string that may be null or undefined. */
  predicate Truthy(o: Option<string>) {
    o.Some? && o.value != ""
  }

  /** `o || fallback` for a string that may be missing. */
  function Or(o: Option<string>, fallback: string): string {
    if Truthy(o) then o.value else fallback
  }

  /** `${o}` in a template literal: a missing value prints as "undefined". */
  function Interpolate(o: Option<string>): string {
    if o.Some? then o.value else "undefined"
  }

  // ---------------------------------------------------------------------
  // toUpperCase
  // ---------------------------------------------------------------------

  predicate IsLower(c: char) { 'a' <= c <= 'z' }

  predicate NoLower(s: string) {
    forall i :: 0 <= i < |s| ==> !IsLower(s[i])
  }

  /** Upper-casing of one character; letters outside ASCII are kept. */
  function UpperChar(c: char): (u: char)
    ensures !IsLower(u)
    ensures !IsLower(c) ==> u == c
    ensures IsSpace(u) == IsSpace(c) && IsDot(u) == IsDot(c)
  {
    if IsLower(c) then (c as int - 32) as char else c
  }

  /** `s.toUpperCase()` */
  function Upper(s: string): (r: string)
    ensures |r| == |s| && NoLower(r)
    ensures forall i {:trigger r[i]} :: 0 <= i < |s| ==> r[i] == UpperChar(s[i])
  {
    seq(|s|, i requires 0 <= i < |s| => UpperChar(s[i]))
  }

  lemma UpperKeepsUpper(s: string)
    requires NoLower(s)
    ensures Upper(s) == s
  {
  }

  /** Upper-casing keeps a string blank or not. */
  lemma UpperKeepsBlank(s: string)
    ensures Blank(Upper(s)) <==> Blank(s)
  {
    if !Blank(s) {
      var i :| 0 <= i < |s| && !IsSpace(s[i]);
      assert Upper(s)[i] == UpperChar(s[i]);
    }
  }

  lemma UpperIdempotent(s: string)
    ensures Upper(Upper(s)) == Upper(s)
  {
    UpperKeepsUpper(Upper(s));
  }

  // ---------------------------------------------------------------------
  // trim
  // ---------------------------------------------------------------------

  /** `s.trimStart()` */
  function TrimStart(s: string): (r: string)
    ensures |r| <= |s| && r == s[|s| - |r|..]
    ensures r != [] ==> !IsSpace(r[0])
  {
    if s != [] && IsSpace(s[0]) then TrimStart(s[1..]) else s
  }

  /** What `trimStart` drops is white space. */
  lemma {:induction false} TrimStartDropsSpaces(s: string)
    ensures forall i :: 0 <= i < |s| - |TrimStart(s)| ==> IsSpace(s[i])
    decreases |s|
  {
    if s != [] && IsSpace(s[0]) {
      TrimStartDropsSpaces(s[1..]);
      forall i | 1 <= i < |s| - |TrimStart(s)|
        ensures IsSpace(s[i])
      {
        assert s[i] == s[1..][i - 1];
      }
    }
  }

  /** `s.trimEnd()` */
  function TrimEnd(s: string): (r: string)
    ensures r <= s
    ensures r != [] ==> !IsSpace(r[|r| - 1])
  {
    if s != [] && IsSpace(s[|s| - 1]) then TrimEnd(s[..|s| - 1]) else s
  }

  /** What `trimEnd` drops is white space. */
  lemma {:induction false} TrimEndDropsSpaces(s: string)
    ensures forall i :: |TrimEnd(s)| <= i < |s| ==> IsSpace(s[i])
    decreases |s|
  {
    if s != [] && IsSpace(s[|s| - 1]) {
      TrimEndDropsSpaces(s[..|s| - 1]);
      forall i | |TrimEnd(s)| <= i < |s| - 1
        ensures IsSpace(s[i])
      {
        assert s[i] == s[..|s| - 1][i];
      }
    }
  }

  lemma TrimBlank(s: string)
    ensures TrimEnd(TrimStart(s)) == [] <==> Blank(s)
  {
    var t := TrimStart(s);
    var k := |s| - |t|;
    TrimStartDropsSpaces(s);
    TrimEndDropsSpaces(t);
    assert forall i :: 0 <= i < |t| ==> t[i] == s[k + i];
  }

  /** `s.trim()`: it starts and ends with a character that is not white
      space (see `TrimEmpty` for when it is empty). */
  function Trim(s: string): (r: string)
    ensures |r| <= |s|
    ensures r != [] ==> !IsSpace(r[0]) && !IsSpace(r[|r| - 1])
  {
    TrimEnd(TrimStart(s))
  }

  /** `s.trim()` is empty exactly when `s` is blank. */
  lemma TrimEmpty(s: string)
    ensures Trim(s) == [] <==> Blank(s)
  {
    TrimBlank(s);
  }

  /** What `trim` keeps: the infix of `s` between a run of leading and a run
      of trailing white space. */
  lemma TrimInfix(s: string)
    ensures var r, k := Trim(s), |s| - |TrimStart(s)|;
      k + |r| <= |s| && r == s[k..k + |r|]
      && (forall i :: 0 <= i < k ==> IsSpace(s[i]))
      && (forall i :: k + |r| <= i < |s| ==> IsSpace(s[i]))
  {
    var t := TrimStart(s);
    TrimStartDropsSpaces(s);
    TrimEndInfix(t, |s| - |t|, s);
    assert Trim(s) == TrimEnd(t);
  }

  /** `trimEnd` of a suffix `s[k..]` keeps a prefix of it and drops white
      space, stated on the indices of `s`. */
  lemma TrimEndInfix(t: string, k: nat, s: string)
    requires k <= |s| && t == s[k..]
    ensures k + |TrimEnd(t)| <= |s| && TrimEnd(t) == s[k..k + |TrimEnd(t)|]
    ensures forall i :: k + |TrimEnd(t)| <= i < |s| ==> IsSpace(s[i])
  {
    var r := TrimEnd(t);
    TrimEndDropsSpaces(t);
    assert r == t[..|r|];
    forall i | k + |r| <= i < |s|
      ensures IsSpace(s[i])
    {
      assert s[i] == t[i - k];
    }
  }

  lemma TrimIdempotent(s: string)
    ensures Trim(Trim(s)) == Trim(s)
  {
    var t := Trim(s);
    if t != [] {
      assert TrimStart(t) == t;
      assert TrimEnd(t) == t;
    }
  }

  lemma {:induction false} TrimStartUpper(s: string)
    ensures TrimStart(Upper(s)) == Upper(TrimStart(s))
    decreases |s|
  {
    if s != [] && IsSpace(s[0]) {
      assert Upper(s)[1..] == Upper(s[1..]);
      TrimStartUpper(s[1..]);
    }
  }

  lemma {:induction false} TrimEndUpper(s: string)
    ensures TrimEnd(Upper(s)) == Upper(TrimEnd(s))
    decreases |s|
  {
    if s != [] && IsSpace(s[|s| - 1]) {
      assert Upper(s)[..|s| - 1] == Upper(s[..|s| - 1]);
      TrimEndUpper(s[..|s| - 1]);
    }
  }

  /** Trimming and upper-casing commute: `s.trim().toUpperCase()` and
      `s.toUpperCase().trim()` are the same string. */
  lemma TrimUpperCommute(s: string)
    ensures Upper(Trim(s)) == Trim(Upper(s))
  {
    TrimStartUpper(s);
    TrimEndUpper(TrimStart(s));
  }

  /** A non-blank string, trimmed and upper-cased, is non-empty, has no
      lower-case letter and no white space at either end. */
  lemma TrimmedUpper(s: string)
    requires !Blank(s)
    ensures var a := Upper(Trim(s));
      a != [] && NoLower(a) && !IsSpace(a[0]) && !IsSpace(a[|a| - 1])
  {
    TrimEmpty(s);
    UpperKeepsEnds(Trim(s));
  }

  /** Upper-casing keeps a string's end characters white space or not. */
  lemma UpperKeepsEnds(t: string)
    requires t != []
    ensures IsSpace(Upper(t)[0]) == IsSpace(t[0])
    ensures IsSpace(Upper(t)[|t| - 1]) == IsSpace(t[|t| - 1])
  {
    assert Upper(t)[0] == UpperChar(t[0]);
    assert Upper(t)[|t| - 1] == UpperChar(t[|t| - 1]);
  }

  // ---------------------------------------------------------------------
  // slice, startsWith, includes
  // ---------------------------------------------------------------------

  function Min(a: int, b: int): int { if a <= b then a else b }

  /** `s.slice(0, n)` */
  function Take(s: string, n: nat): (r: string)
    ensures r <= s && |r| == Min(n, |s|)
  {
    if |s| <= n then s else s[..n]
  }

  /** `s.includes(t)`, by scanning the start positions of `s`. */
  predicate Contains(s: string, t: string)
    decreases |s|
  {
    t <= s || (s != [] && Contains(s[1..], t))
  }

  lemma {:induction false} ContainsIff(s: string, t: string)
    ensures Contains(s, t) <==> exists k :: 0 <= k <= |s| && t <= s[k..]
    decreases |s|
  {
    if s != [] {
      ContainsIff(s[1..], t);
      if Contains(s[1..], t) {
        var k :| 0 <= k <= |s[1..]| && t <= s[1..][k..];
        assert s[1..][k..] == s[k + 1..];
      }
      if exists k :: 0 <= k <= |s| && t <= s[k..] {
        var k :| 0 <= k <= |s| && t <= s[k..];
        if k > 0 {
          assert s[1..][k - 1..] == s[k..];
        }
      }
    }
  }

  // ---------------------------------------------------------------------
  // split
  // ---------------------------------------------------------------------

  /** `s.split(sep)[0]`: everything before the first `sep`. */
  function BeforeFirst(s: string, sep: char): (r: string)
    ensures r <= s && sep !in r
    ensures |r| < |s| ==> s[|r|] == sep
  {
    if s == [] || s[0] == sep then [] else [s[0]] + BeforeFirst(s[1..], sep)
  }

  /** Where the text after the last `sep` of `s` begins: just past that
      separator, or 0 when there is none. */
  function AfterLastStart(s: string, sep: char): (k: nat)
    ensures k <= |s|
  {
    if s == [] then 0 else if s[|s| - 1] == sep then |s| else AfterLastStart(s[..|s| - 1], sep)
  }

  /** `s.split(sep).pop()`: everything after the last `sep`. */
  function AfterLast(s: string, sep: char): string {
    s[AfterLastStart(s, sep)..]
  }

  /** `AfterLast` is the longest suffix free of `sep`: the character before
      it, if any, is `sep`. */
  lemma {:induction false} AfterLastIsLastPart(s: string, sep: char)
    ensures var r := AfterLast(s, sep);
      |r| <= |s| && r == s[|s| - |r|..] && sep !in r
      && (|r| < |s| ==> s[|s| - |r| - 1] == sep)
    decreases |s|
  {
    if s != [] && s[|s| - 1] != sep {
      var t := s[..|s| - 1];
      AfterLastIsLastPart(t, sep);
      assert AfterLast(s, sep) == AfterLast(t, sep) + [s[|s| - 1]];
    }
  }

  /** The separator characters of `s`, in order. */
  function Separators(s: string, isSep: char -> bool): string {
    if s == [] then []
    else (if isSep(s[0]) then [s[0]] else []) + Separators(s[1..], isSep)
  }

  /** `s.split(re)` for a regular expression `re` matching single
      characters: one more part than there are separators, none of the
      parts holding a separator. */
  function Split(s: string, isSep: char -> bool): (parts: seq<string>)
    ensures |parts| == |Separators(s, isSep)| + 1
    ensures forall j, i :: 0 <= j < |parts| && 0 <= i < |parts[j]| ==> !isSep(parts[j][i])
  {
    if s == [] then [[]]
    else
      var rest := Split(s[1..], isSep);
      if isSep(s[0]) then [[]] + rest
      else
        var first := [s[0]] + rest[0];
        assert forall i :: 1 <= i < |first| ==> first[i] == rest[0][i - 1];
        [first] + rest[1..]
  }

  /** Gluing the parts back together with the separators between them. */
  function Interleave(parts: seq<string>, seps: string): string
    requires |parts| == |seps| + 1
  {
    if seps == [] then parts[0]
    else parts[0] + [seps[0]] + Interleave(parts[1..], seps[1..])
  }

  lemma InterleaveConsFirst(c: char, parts: seq<string>, seps: string)
    requires |parts| == |seps| + 1
    ensures Interleave([[c] + parts[0]] + parts[1..], seps) == [c] + Interleave(parts, seps)
  {
    var moved := [[c] + parts[0]] + parts[1..];
    assert moved[0] == [c] + parts[0];
    if seps != [] {
      assert moved[1..] == parts[1..];
      var tail := Interleave(parts[1..], seps[1..]);
      assert Interleave(moved, seps) == ([c] + parts[0]) + [seps[0]] + tail;
      assert ([c] + parts[0]) + [seps[0]] + tail == [c] + (parts[0] + [seps[0]] + tail);
    }
  }

  /** `split` loses nothing: putting the separators back between the parts
      gives the original string. */
  lemma {:induction false} SplitRoundTrip(s: string, isSep: char -> bool)
    ensures Interleave(Split(s, isSep), Separators(s, isSep)) == s
    decreases |s|
  {
    if s != [] {
      var rest := Split(s[1..], isSep);
      SplitRoundTrip(s[1..], isSep);
      if isSep(s[0]) {
        var parts := [[]] + rest;
        assert parts[1..] == rest;
        assert Separators(s, isSep) == [s[0]] + Separators(s[1..], isSep);
      } else {
        assert Separators(s, isSep) == Separators(s[1..], isSep);
        InterleaveConsFirst(s[0], rest, Separators(s[1..], isSep));
      }
    }
  }

  /** `parts.map(part => part[0]).join('')`: an empty part yields
      `undefined`, which `join` prints as nothing. */
  function FirstChars(parts: seq<string>): string {
    if parts == [] then []
    else (if parts[0] == [] then [] else [parts[0][0]]) + FirstChars(parts[1..])
  }

  /** Reference definition: the characters of `s` that begin a word, that is
      a non-separator at the start (when `atStart`) or right after a
      separator. */
  function WordStarts(s: string, isSep: char -> bool, atStart: bool): string {
    if s == [] then []
    else (if atStart && !isSep(s[0]) then [s[0]] else []) + WordStarts(s[1..], isSep, isSep(s[0]))
  }

  lemma {:induction false} WordStartsSplit(s: string, isSep: char -> bool, atStart: bool)
    ensures WordStarts(s, isSep, atStart)
         == (if atStart && Split(s, isSep)[0] != [] then [s[0]] else [])
            + FirstChars(Split(s, isSep)[1..])
    decreases |s|
  {
    if s != [] {
      var rest := Split(s[1..], isSep);
      if isSep(s[0]) {
        WordStartsSplit(s[1..], isSep, true);
        assert ([[]] + rest)[1..] == rest;
      } else {
        WordStartsSplit(s[1..], isSep, false);
        assert ([[s[0]] + rest[0]] + rest[1..])[1..] == rest[1..];
      }
    }
  }

  /** The initials chain computes exactly the word-start characters. */
  lemma FirstCharsOfSplit(s: string, isSep: char -> bool)
    ensures FirstChars(Split(s, isSep)) == WordStarts(s, isSep, true)
  {
    WordStartsSplit(s, isSep, true);
  }

  lemma {:induction false} WordStartsEmpty(s: string, isSep: char -> bool)
    ensures WordStarts(s, isSep, true) == [] <==> forall i :: 0 <= i < |s| ==> isSep(s[i])
    decreases |s|
  {
    if s != [] {
      WordStartsEmpty(s[1..], isSep);
      if isSep(s[0]) {
        assert forall i :: 1 <= i < |s| ==> s[i] == s[1..][i - 1];
      }
    }
  }

  /** `name.split(re).map(part => part[0]).join('').toUpperCase().slice(0, 2)`:
      the first two word-start characters, upper-cased; empty exactly when
      the name holds nothing but separators. */
  function Initials(name: string, isSep: char -> bool): (r: string)
    ensures r == Take(Upper(WordStarts(name, isSep, true)), 2)
    ensures |r| <= 2 && NoLower(r)
    ensures r == [] <==> forall i :: 0 <= i < |name| ==> isSep(name[i])
  {
    FirstCharsOfSplit(name, isSep);
    WordStartsEmpty(name, isSep);
    Take(Upper(FirstChars(Split(name, isSep))), 2)
  }
}
