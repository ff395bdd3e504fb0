/** The Python string operations the pipeline relies on, over `seq<char>`:
    `strip`, `upper`/`lower` (ASCII letters only), `split` on one separator
    character, substring search, `isdigit`/`int`, and `sorted` on strings
    (code-point lexicographic order). */
module Text {

  // ---------------------------------------------------------------------
  // Whitespace and strip()
  // ---------------------------------------------------------------------

  /** The characters for which Python's `str.isspace()` holds; `str.strip()`
      removes them and the regular-expression class `\s` matches them. */
  predicate IsSpace(c: char) {
    c == ' ' || ('\t' <= c <= '\r') || ('\U{1C}' <= c <= '\U{1F}')
    || c == '\U{85}' || c == '\U{A0}' || c == '\U{1680}'
    || ('\U{2000}' <= c <= '\U{200A}') || c == '\U{2028}' || c == '\U{2029}'
    || c == '\U{202F}' || c == '\U{205F}' || c == '\U{3000}'
  }

  /** Neither end of `s` is whitespace. */
  predicate IsStripped(s: string) {
    s == [] || (!IsSpace(s[0]) && !IsSpace(s[|s| - 1]))
  }

  function TrimStart(s: string): (r: string)
    ensures |r| <= |s|
  {
    if s != [] && IsSpace(s[0]) then TrimStart(s[1..]) else s
  }

  function TrimEnd(s: string): (r: string)
    ensures |r| <= |s|
  {
    if s != [] && IsSpace(s[|s| - 1]) then TrimEnd(s[..|s| - 1]) else s
  }

  /** `lstrip` drops a run of leading whitespace and stops at the first
      character that is not whitespace. */
  lemma {:induction false} TrimStartShape(s: string)
    ensures TrimStart(s) == s[|s| - |TrimStart(s)|..]
    ensures TrimStart(s) == [] || !IsSpace(TrimStart(s)[0])
    ensures forall i :: 0 <= i < |s| - |TrimStart(s)| ==> IsSpace(s[i])
    decreases |s|
  {
    if s != [] && IsSpace(s[0]) {
      TrimStartShape(s[1..]);
      forall i | 1 <= i < |s| - |TrimStart(s)| ensures IsSpace(s[i]) {
        assert s[i] == s[1..][i - 1];
      }
    }
  }

  /** `rstrip` drops a run of trailing whitespace and stops at the last
      character that is not whitespace. */
  lemma {:induction false} TrimEndShape(s: string)
    ensures TrimEnd(s) == s[..|TrimEnd(s)|]
    ensures TrimEnd(s) == [] || !IsSpace(TrimEnd(s)[|TrimEnd(s)| - 1])
    ensures forall i :: |TrimEnd(s)| <= i < |s| ==> IsSpace(s[i])
    decreases |s|
  {
    if s != [] && IsSpace(s[|s| - 1]) {
      TrimEndShape(s[..|s| - 1]);
    }
  }

  /** Where the stripped text starts: the length of the leading whitespace. */
  function StripStart(s: string): (i: nat)
    ensures i <= |s|
  {
    |s| - |TrimStart(s)|
  }

  /** Python's `s.strip()`: leading, then trailing whitespace removed. */
  function Strip(s: string): (r: string)
    ensures |r| <= |s|
  {
    TrimEnd(TrimStart(s))
  }

  /** What strip keeps has whitespace at neither end. */
  lemma StripIsStripped(s: string)
    ensures IsStripped(Strip(s))
  {
    var t := TrimStart(s);
    TrimStartShape(s);
    TrimEndShape(t);
    if Strip(s) != [] {
      assert Strip(s)[0] == t[0];
    }
  }

  /** What strip keeps is the infix of `s` starting after the leading
      whitespace; everything it removes at either end is whitespace. */
  lemma StripInfix(s: string)
    ensures StripStart(s) + |Strip(s)| <= |s|
    ensures forall k :: 0 <= k < |Strip(s)| ==> Strip(s)[k] == s[StripStart(s) + k]
    ensures forall i :: 0 <= i < StripStart(s) ==> IsSpace(s[i])
    ensures forall i :: StripStart(s) + |Strip(s)| <= i < |s| ==> IsSpace(s[i])
  {
    var t, st := TrimStart(s), StripStart(s);
    TrimStartShape(s);
    TrimEndShape(t);
    forall i | StripStart(s) + |Strip(s)| <= i < |s| ensures IsSpace(s[i]) {
      assert s[i] == t[i - st];
    }
  }

  /** Stripping an already stripped string changes nothing. */
  lemma StripStripped(s: string)
    requires IsStripped(s)
    ensures Strip(s) == s
  {
  }

  // ---------------------------------------------------------------------
  // upper() / lower()
  // ---------------------------------------------------------------------

  predicate IsLowerLetter(c: char) { 'a' <= c <= 'z' }
  predicate IsUpperLetter(c: char) { 'A' <= c <= 'Z' }

  function UpperChar(c: char): (d: char)
    ensures !IsLowerLetter(d)
    ensures !IsLowerLetter(c) ==> d == c
  {
    if IsLowerLetter(c) then (c as int - 32) as char else c
  }

  function LowerChar(c: char): (d: char)
    ensures !IsUpperLetter(d)
    ensures !IsUpperLetter(c) ==> d == c
  {
    if IsUpperLetter(c) then (c as int + 32) as char else c
  }

  /** `s.upper()` restricted to ASCII letters. */
  function Upper(s: string): (r: string)
    ensures |r| == |s|
    ensures forall i :: 0 <= i < |s| ==> r[i] == UpperChar(s[i])
  {
    seq(|s|, i requires 0 <= i < |s| => UpperChar(s[i]))
  }

  /** `s.lower()` restricted to ASCII letters. */
  function Lower(s: string): (r: string)
    ensures |r| == |s|
    ensures forall i :: 0 <= i < |s| ==> r[i] == LowerChar(s[i])
  {
    seq(|s|, i requires 0 <= i < |s| => LowerChar(s[i]))
  }

  /** `s` has no lower-case ASCII letter, so `upper()` leaves it alone. */
  predicate NoLowerLetters(s: string) {
    forall i :: 0 <= i < |s| ==> !IsLowerLetter(s[i])
  }

  lemma UpperNoop(s: string)
    requires NoLowerLetters(s)
    ensures Upper(s) == s
  {
  }

  /** `s` has no upper-case ASCII letter, so `lower()` leaves it alone. */
  predicate NoUpperLetters(s: string) {
    forall i :: 0 <= i < |s| ==> !IsUpperLetter(s[i])
  }

  /** What `upper()` does: every lower-case letter becomes the upper-case
      letter 32 code points below it, every other character is kept, so no
      lower-case letter is left. */
  lemma UpperMeaning(s: string)
    ensures NoLowerLetters(Upper(s))
    ensures forall i :: 0 <= i < |s| && !IsLowerLetter(s[i]) ==> Upper(s)[i] == s[i]
    ensures forall i :: 0 <= i < |s| && IsLowerLetter(s[i]) ==>
      IsUpperLetter(Upper(s)[i]) && Upper(s)[i] as int == s[i] as int - 32
  {
  }

  /** What `lower()` does: every upper-case letter becomes the lower-case
      letter 32 code points above it, every other character is kept, so no
      upper-case letter is left. */
  lemma LowerMeaning(s: string)
    ensures NoUpperLetters(Lower(s))
    ensures forall i :: 0 <= i < |s| && !IsUpperLetter(s[i]) ==> Lower(s)[i] == s[i]
    ensures forall i :: 0 <= i < |s| && IsUpperLetter(s[i]) ==>
      IsLowerLetter(Lower(s)[i]) && Lower(s)[i] as int == s[i] as int + 32
  {
  }

  /** Upper-casing twice is upper-casing once. */
  lemma UpperIdempotent(s: string)
    ensures Upper(Upper(s)) == Upper(s)
  {
    UpperNoop(Upper(s));
  }

  /** Lower-casing twice is lower-casing once. */
  lemma LowerIdempotent(s: string)
    ensures Lower(Lower(s)) == Lower(s)
  {
    var r := Lower(s);
    assert Lower(r) == r;
  }

  /** Stripping an upper-cased string yields an upper-cased string: strip only
      removes characters, it never introduces a lower-case letter. */
  lemma {:induction false} StripKeepsNoLower(s: string)
    requires NoLowerLetters(s)
    ensures NoLowerLetters(Strip(s))
  {
    var r, st := Strip(s), StripStart(s);
    StripInfix(s);
    forall k | 0 <= k < |r| ensures !IsLowerLetter(r[k]) {
      assert r[k] == s[st + k];
    }
  }

  // ---------------------------------------------------------------------
  // Searching: `c in s`, `s.index(c)`, `sub in s`
  // ---------------------------------------------------------------------

  /** Index of the first `x` in `s`, or `|s|` when `x` does not occur
      (`s.index(x)` with the miss made explicit). */
  function IndexOf<T(==)>(s: seq<T>, x: T): (i: nat)
    ensures i <= |s|
    ensures i < |s| ==> s[i] == x
    ensures forall j :: 0 <= j < i ==> s[j] != x
  {
    if s == [] then 0
    else if s[0] == x then 0
    else 1 + IndexOf(s[1..], x)
  }

  /** Python's `pat in text` for strings: `pat` occurs as a contiguous piece. */
  predicate Contains(text: string, pat: string) {
    exists i :: 0 <= i <= |text| - |pat| && OccursAt(text, pat, i)
  }

  predicate OccursAt(text: string, pat: string, i: int) {
    0 <= i <= |text| - |pat| && text[i..i + |pat|] == pat
  }

  /** A piece of a substring is a substring: `inner in outer` and `outer in
      text` give `inner in text`. */
  lemma ContainsTrans(text: string, outer: string, inner: string)
    requires Contains(text, outer) && Contains(outer, inner)
    ensures Contains(text, inner)
  {
    var i :| 0 <= i <= |text| - |outer| && OccursAt(text, outer, i);
    var j :| 0 <= j <= |outer| - |inner| && OccursAt(outer, inner, j);
    assert text[i..i + |outer|] == outer;
    assert outer[j..j + |inner|] == inner;
    forall k | 0 <= k < |inner| ensures text[i + j + k] == inner[k] {
      assert inner[k] == outer[j + k] == text[i + j + k];
    }
    assert text[i + j..i + j + |inner|] == inner;
    assert OccursAt(text, inner, i + j);
  }

  /** Python's `any(kw in text for kw in kws)`. */
  predicate ContainsAny(text: string, kws: seq<string>) {
    exists k :: 0 <= k < |kws| && Contains(text, kws[k])
  }

  /** Python's `s.startswith(prefix)`. */
  predicate StartsWith(s: string, prefix: string) {
    |prefix| <= |s| && s[..|prefix|] == prefix
  }

  /** Python's `s.lstrip(c)` for one character: drop every leading `c`. */
  function TrimLeadingChar(s: string, c: char): (r: string)
    ensures |r| <= |s| && r == s[|s| - |r|..]
    ensures r == [] || r[0] != c
  {
    if s != [] && s[0] == c then TrimLeadingChar(s[1..], c) else s
  }

  // ---------------------------------------------------------------------
  // split()
  // ---------------------------------------------------------------------

  /** Python's `s.split(sep)` for a one-character separator: the pieces
      between consecutive separators, always at least one. */
  function Split(s: string, sep: char): (r: seq<string>)
    ensures |r| >= 1
    ensures forall k, j :: 0 <= k < |r| && 0 <= j < |r[k]| ==> r[k][j] != sep
    decreases |s|
  {
    var i := IndexOf(s, sep);
    if i == |s| then [s] else [s[..i]] + Split(s[i + 1..], sep)
  }

  /** `sep.join(parts)`: the inverse of `Split`. */
  function Join(parts: seq<string>, sep: char): string
    requires |parts| >= 1
  {
    if |parts| == 1 then parts[0] else parts[0] + [sep] + Join(parts[1..], sep)
  }

  /** Splitting loses nothing: joining the pieces with the separator gives the
      original text back. */
  lemma {:induction false} SplitJoin(s: string, sep: char)
    ensures Join(Split(s, sep), sep) == s
    decreases |s|
  {
    var i := IndexOf(s, sep);
    if i < |s| {
      var rest := s[i + 1..];
      SplitJoin(rest, sep);
      var parts := Split(s, sep);
      assert parts == [s[..i]] + Split(rest, sep);
      assert parts[1..] == Split(rest, sep);
      assert Join(parts, sep) == s[..i] + [sep] + Join(Split(rest, sep), sep);
      assert s == s[..i] + [sep] + rest;
    }
  }

  /** Joining pieces free of the separator and splitting again gives the
      pieces back. */
  lemma {:induction false} JoinSplit(parts: seq<string>, sep: char)
    requires |parts| >= 1
    requires forall k, j :: 0 <= k < |parts| && 0 <= j < |parts[k]| ==> parts[k][j] != sep
    ensures Split(Join(parts, sep), sep) == parts
    decreases |parts|
  {
    var s := Join(parts, sep);
    if |parts| == 1 {
      SplitNoSep(parts[0], sep);
    } else {
      var rest := Join(parts[1..], sep);
      assert s == parts[0] + [sep] + rest;
      var i := IndexOf(s, sep);
      assert s[|parts[0]|] == sep;
      assert i == |parts[0]| by {
        forall j | 0 <= j < |parts[0]| ensures s[j] != sep {
          assert s[j] == parts[0][j];
        }
      }
      assert s[..i] == parts[0];
      assert s[i + 1..] == rest;
      JoinSplit(parts[1..], sep);
    }
  }

  /** A text without the separator splits into itself alone. */
  lemma SplitNoSep(s: string, sep: char)
    requires forall j :: 0 <= j < |s| ==> s[j] != sep
    ensures Split(s, sep) == [s]
  {
  }

  // ---------------------------------------------------------------------
  // isdigit() / int()
  // ---------------------------------------------------------------------

  predicate IsDigit(c: char) { '0' <= c <= '9' }

  /** Python's `s.isdigit()` for ASCII: non-empty and all decimal digits. */
  predicate IsDigits(s: string) {
    s != [] && forall i :: 0 <= i < |s| ==> IsDigit(s[i])
  }

  /** Python's `int(s)` on a string of decimal digits. */
  function DigitsValue(s: string): nat
    requires forall i :: 0 <= i < |s| ==> IsDigit(s[i])
  {
    if s == [] then 0
    else
      var d := s[|s| - 1];
      assert IsDigit(d);
      10 * DigitsValue(s[..|s| - 1]) + (d as int - '0' as int)
  }

  // ---------------------------------------------------------------------
  // sorted() on strings
  // ---------------------------------------------------------------------

  /** Python's `a <= b` on strings: code-point lexicographic order. */
  predicate LexLe(a: string, b: string)
    decreases |a|
  {
    a == [] || (b != [] && (a[0] < b[0] || (a[0] == b[0] && LexLe(a[1..], b[1..]))))
  }

  lemma {:induction false} LexLeTotal(a: string, b: string)
    ensures LexLe(a, b) || LexLe(b, a)
    decreases |a|
  {
    if a != [] && b != [] && a[0] == b[0] {
      LexLeTotal(a[1..], b[1..]);
    }
  }

  lemma {:induction false} LexLeTrans(a: string, b: string, c: string)
    requires LexLe(a, b) && LexLe(b, c)
    ensures LexLe(a, c)
    decreases |a|
  {
    if a != [] && a[0] == b[0] && b[0] == c[0] {
      LexLeTrans(a[1..], b[1..], c[1..]);
    }
  }

  predicate Sorted(s: seq<string>) {
    forall i, j :: 0 <= i < j < |s| ==> LexLe(s[i], s[j])
  }

  predicate Distinct<T(==)>(s: seq<T>) {
    forall i, j :: 0 <= i < j < |s| ==> s[i] != s[j]
  }

  function Elems<T>(s: seq<T>): set<T> {
    set x | x in s
  }

  /** Insert `x` into the sorted sequence `s` before its first element that is
      not below `x`. */
  function Insert(x: string, s: seq<string>): (r: seq<string>)
    ensures |r| == |s| + 1
    ensures Elems(r) == Elems(s) + {x}
  {
    if s == [] then [x]
    else if LexLe(x, s[0]) then [x] + s
    else
      assert Elems(s) == {s[0]} + Elems(s[1..]) by { assert s == [s[0]] + s[1..]; }
      var r := [s[0]] + Insert(x, s[1..]);
      assert Elems(r) == {s[0]} + Elems(Insert(x, s[1..]));
      r
  }

  /** Insertion sort: Python's `sorted(xs)` on a list of strings. */
  function SortStrings(xs: seq<string>): (r: seq<string>)
    ensures |r| == |xs|
    ensures Elems(r) == Elems(xs)
  {
    if xs == [] then []
    else
      assert Elems(xs) == {xs[0]} + Elems(xs[1..]) by { assert xs == [xs[0]] + xs[1..]; }
      Insert(xs[0], SortStrings(xs[1..]))
  }

  lemma {:induction false} InsertSorted(x: string, s: seq<string>)
    requires Sorted(s)
    ensures Sorted(Insert(x, s))
  {
    if s != [] {
      if LexLe(x, s[0]) {
        forall j | 0 <= j < |s| ensures LexLe(x, s[j]) {
          if j > 0 { LexLeTrans(x, s[0], s[j]); }
        }
        var r := [x] + s;
        forall i, j | 0 <= i < j < |r| ensures LexLe(r[i], r[j]) {
          if i > 0 { assert r[i] == s[i - 1] && r[j] == s[j - 1]; }
          else { assert r[j] == s[j - 1]; }
        }
      } else {
        LexLeTotal(x, s[0]);
        InsertSorted(x, s[1..]);
        var r := Insert(x, s[1..]);
        forall j | 0 <= j < |r| ensures LexLe(s[0], r[j]) {
          assert r[j] in Elems(r);
        }
      }
    }
  }

  lemma {:induction false} InsertDistinct(x: string, s: seq<string>)
    requires Distinct(s) && x !in s
    ensures Distinct(Insert(x, s))
  {
    if s != [] && !LexLe(x, s[0]) {
      InsertDistinct(x, s[1..]);
      var r := Insert(x, s[1..]);
      forall j | 0 <= j < |r| ensures r[j] != s[0] {
        assert r[j] in Elems(r);
      }
    }
  }

  /** `sorted` of a list of distinct strings: ascending, still distinct, and
      the same elements. */
  lemma {:induction false} SortStringsCorrect(xs: seq<string>)
    requires Distinct(xs)
    ensures Sorted(SortStrings(xs)) && Distinct(SortStrings(xs))
    ensures Elems(SortStrings(xs)) == Elems(xs)
  {
    if xs != [] {
      SortStringsCorrect(xs[1..]);
      assert xs[0] !in Elems(xs[1..]);
      InsertSorted(xs[0], SortStrings(xs[1..]));
      InsertDistinct(xs[0], SortStrings(xs[1..]));
    }
  }
}
