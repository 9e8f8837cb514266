/** String helpers shared by the frontend and backend models.
    Strings are sequences of Unicode scalar values. The character classes follow
    JavaScript's `\d` and Python's `str` predicates exactly inside Latin-1 (U+0000..U+00FF);
    characters above U+00FF are treated as neither digits nor letters nor spaces. */
module Text {

  // ---------------------------------------------------------------------------
  // Character classes

  /** JavaScript's `\d`: the ASCII digits only. */
  predicate IsAsciiDigit(c: char) {
    '0' <= c <= '9'
  }

  /** Python's `str.isdigit` on Latin-1: ASCII digits and the superscripts two, three and one. */
  predicate IsPyDigit(c: char) {
    IsAsciiDigit(c) || c == '²' || c == '³' || c == '¹'
  }

  predicate IsAsciiLetter(c: char) {
    'A' <= c <= 'Z' || 'a' <= c <= 'z'
  }

  /** Python's `str.isalnum` on Latin-1. */
  predicate IsPyAlnum(c: char) {
    IsAsciiLetter(c) || IsPyDigit(c)
    || c == 'ª' || c == 'µ' || c == 'º'
    || ('¼' <= c <= '¾')
    || ('À' <= c <= 'ÿ' && c != '×' && c != '÷')
  }

  /** Python's `str.isspace` on Latin-1. */
  predicate IsPySpace(c: char) {
    ('\U{9}' <= c <= '\U{D}') || ('\U{1C}' <= c <= ' ') || c == '\U{85}' || c == '\U{A0}'
  }

  predicate All(s: string, p: char -> bool) {
    forall i :: 0 <= i < |s| ==> p(s[i])
  }

  // ---------------------------------------------------------------------------
  // Filtering

  /** The characters of `s` that satisfy `keep`, in their original order
      (`''.join(filter(keep, s))` in Python, `s.replace(/\D/g, '')` in JavaScript). */
  function Filter(s: string, keep: char -> bool): (r: string)
    ensures All(r, keep)
    ensures |r| <= |s|
  {
    if s == [] then []
    else (if keep(s[0]) then [s[0]] else []) + Filter(s[1..], keep)
  }

  /** Filtering keeps a string whose every character is kept. */
  lemma {:induction false} FilterKeepsAll(s: string, keep: char -> bool)
    requires All(s, keep)
    ensures Filter(s, keep) == s
  {
    if s != [] {
      FilterKeepsAll(s[1..], keep);
    }
  }

  /** Filtering a string none of whose characters is kept gives the empty string. */
  lemma {:induction false} FilterDropsAll(s: string, keep: char -> bool)
    requires forall i :: 0 <= i < |s| ==> !keep(s[i])
    ensures Filter(s, keep) == []
  {
    if s != [] {
      FilterDropsAll(s[1..], keep);
    }
  }

  /** Filtering twice is filtering once. */
  lemma FilterIdempotent(s: string, keep: char -> bool)
    ensures Filter(Filter(s, keep), keep) == Filter(s, keep)
  {
    FilterKeepsAll(Filter(s, keep), keep);
  }

  /** Filtering distributes over concatenation. */
  lemma {:induction false} FilterConcat(a: string, b: string, keep: char -> bool)
    ensures Filter(a + b, keep) == Filter(a, keep) + Filter(b, keep)
  {
    if a == [] {
      assert a + b == b;
    } else {
      var head := if keep(a[0]) then [a[0]] else [];
      assert (a + b)[0] == a[0];
      assert (a + b)[1..] == a[1..] + b;
      assert Filter(a + b, keep) == head + Filter(a[1..] + b, keep);
      FilterConcat(a[1..], b, keep);
      assert Filter(a, keep) == head + Filter(a[1..], keep);
    }
  }

  /** Inserting a character that is not kept does not change the filtered string. */
  lemma InsertDroppedChar(a: string, c: char, b: string, keep: char -> bool)
    requires !keep(c)
    ensures Filter(a + [c] + b, keep) == Filter(a + b, keep)
  {
    FilterConcat(a + [c], b, keep);
    FilterConcat(a, [c], keep);
    FilterConcat(a, b, keep);
    assert Filter([c], keep) == [];
  }

  // ---------------------------------------------------------------------------
  // Substrings, prefixes

  predicate OccursAt(s: string, t: string, i: int) {
    0 <= i && i + |t| <= |s| && s[i..i + |t|] == t
  }

  /** `t in s` in Python, `s.includes(t)` in JavaScript. */
  predicate Contains(s: string, t: string) {
    exists i :: 0 <= i <= |s| - |t| && OccursAt(s, t, i)
  }

  lemma ContainsInfix(a: string, t: string, b: string)
    ensures Contains(a + t + b, t)
  {
    assert (a + t + b)[|a|..|a| + |t|] == t;
    assert OccursAt(a + t + b, t, |a|);
  }

  predicate StartsWith(s: string, p: string) {
    |p| <= |s| && s[..|p|] == p
  }

  predicate EndsWith(s: string, p: string) {
    |p| <= |s| && s[|s| - |p|..] == p
  }

  // ---------------------------------------------------------------------------
  // Case mapping on Latin-1

  /** The letters whose upper case is one Latin-1 letter 32 code points lower. */
  function UpperChar(c: char): char {
    if 'a' <= c <= 'z' || ('à' <= c <= 'þ' && c != '÷') then (c as int - 32) as char else c
  }

  /** Every Latin-1 upper-case letter lower-cases to a Latin-1 letter 32 code points higher. */
  function LowerChar(c: char): char {
    if 'A' <= c <= 'Z' || ('À' <= c <= 'Þ' && c != '×') then (c as int + 32) as char else c
  }

  /** The upper case of one character under `str.upper()`: 'ß' becomes "SS", and 'µ' and 'ÿ'
      map outside Latin-1, to U+039C and U+0178. */
  function UpperOf(c: char): string {
    if c == 'ß' then "SS"
    else if c == 'µ' then "\U{39C}"
    else if c == 'ÿ' then "\U{178}"
    else [UpperChar(c)]
  }

  /** `str.upper()` */
  function Upper(s: string): (r: string)
    ensures |s| <= |r| <= 2 * |s|
  {
    if s == [] then [] else UpperOf(s[0]) + Upper(s[1..])
  }

  /** Upper-casing a string that starts with a character of single-character upper case. */
  lemma UpperCons(c: char, s: string)
    requires c != 'ß' && c != 'µ' && c != 'ÿ'
    ensures Upper([c] + s) == [UpperChar(c)] + Upper(s)
  {
    assert ([c] + s)[1..] == s;
  }

  /** Upper-casing works character by character. */
  lemma {:induction false} UpperConcat(a: string, b: string)
    ensures Upper(a + b) == Upper(a) + Upper(b)
  {
    if a == [] {
      assert a + b == b;
    } else {
      assert (a + b)[0] == a[0];
      assert (a + b)[1..] == a[1..] + b;
      UpperConcat(a[1..], b);
    }
  }

  /** `str.lower()` */
  function Lower(s: string): (r: string)
    ensures |r| == |s|
    ensures forall i :: 0 <= i < |s| ==> r[i] == LowerChar(s[i])
  {
    seq(|s|, i requires 0 <= i < |s| => LowerChar(s[i]))
  }

  // ---------------------------------------------------------------------------
  // Python's split-and-pick idioms and strip()

  /** `s.split(c)[0]`: everything before the first `c`, or all of `s`. */
  function BeforeFirst(s: string, c: char): (r: string)
    ensures c !in r
    ensures StartsWith(s, r)
    ensures c in s ==> |r| < |s| && s[|r|] == c
    ensures c !in s ==> r == s
  {
    if s == [] then []
    else if s[0] == c then []
    else [s[0]] + BeforeFirst(s[1..], c)
  }

  /** `s.split(c)[-1]`: everything after the last `c`, or all of `s`. */
  function AfterLast(s: string, c: char): (r: string)
    ensures c !in r
    ensures EndsWith(s, r)
    ensures c in s ==> |r| < |s| && s[|s| - |r| - 1] == c
    ensures c !in s ==> r == s
  {
    if s == [] then []
    else if s[|s| - 1] == c then []
    else AfterLast(s[..|s| - 1], c) + [s[|s| - 1]]
  }

  /** Splitting `a + [c] + b` at its first `c` gives back `a` when `a` holds no `c`. */
  lemma BeforeFirstSplit(a: string, c: char, b: string)
    requires c !in a
    ensures BeforeFirst(a + [c] + b, c) == a
  {
    var s := a + [c] + b;
    var r := BeforeFirst(s, c);
    assert s[|a|] == c;
    assert r == s[..|r|] == a;
  }

  /** Splitting `a + [c] + b` at its last `c` gives back `b` when `b` holds no `c`. */
  lemma AfterLastSplit(a: string, c: char, b: string)
    requires c !in b
    ensures AfterLast(a + [c] + b, c) == b
  {
    var s := a + [c] + b;
    var r := AfterLast(s, c);
    assert s[|a|] == c;
    assert r == s[|s| - |r|..] == b;
  }

  /** `s.replace(a, b)` for single characters. */
  function ReplaceChar(s: string, a: char, b: char): (r: string)
    ensures |r| == |s|
    ensures a != b ==> a !in r
  {
    seq(|s|, i requires 0 <= i < |s| => if s[i] == a then b else s[i])
  }

  /** Replacing works character by character. */
  lemma ReplaceCharConcat(s: string, t: string, a: char, b: char)
    ensures ReplaceChar(s + t, a, b) == ReplaceChar(s, a, b) + ReplaceChar(t, a, b)
  {
  }

  function TrimStart(s: string): (r: string)
    ensures EndsWith(s, r)
    ensures r != [] ==> !IsPySpace(r[0])
    ensures s != [] && !IsPySpace(s[0]) ==> r == s
  {
    if s != [] && IsPySpace(s[0]) then
      var r := TrimStart(s[1..]);
      assert s[|s| - |r|..] == s[1..][|s| - 1 - |r|..];
      r
    else s
  }

  function TrimEnd(s: string): (r: string)
    ensures StartsWith(s, r)
    ensures r != [] ==> !IsPySpace(r[|r| - 1])
    ensures s != [] && !IsPySpace(s[|s| - 1]) ==> r == s
  {
    if s != [] && IsPySpace(s[|s| - 1]) then
      var r := TrimEnd(s[..|s| - 1]);
      assert s[..|r|] == s[..|s| - 1][..|r|];
      r
    else s
  }

  /** `s.strip()`: drops leading and trailing whitespace. */
  function Trim(s: string): (r: string)
    ensures r != [] ==> !IsPySpace(r[0]) && !IsPySpace(r[|r| - 1])
  {
    TrimEnd(TrimStart(s))
  }

  /** A string with no whitespace at either end is its own trim. */
  lemma TrimUnchanged(s: string)
    requires s != [] ==> !IsPySpace(s[0]) && !IsPySpace(s[|s| - 1])
    ensures Trim(s) == s
  {
  }
}
