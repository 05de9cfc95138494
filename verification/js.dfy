/**
 * The JavaScript values and string built-ins the notifier relies on, restated
 * over Dafny strings. Text that comes from data (titles, queries, categories)
 * is taken to lie in the Basic Multilingual Plane, where one Dafny `char` is
 * one UTF-16 code unit and `|s|` is `s.length`; where the source's own literals
 * hold characters beyond it (the emoji of a notification), `Utf16Length` is
 * `s.length`.
 */
module Js {

  /** A value that may be `null` or `undefined`. */
  datatype Option<+T> = None | Some(value: T)

  /** JavaScript truthiness of an optional string: present and not empty. */
  predicate Truthy(s: Option<string>) {
    s.Some? && s.value != ""
  }

  /** `s || ''` (equally `s ?? ''`) for an optional string. */
  function OrEmpty(s: Option<string>): string {
    if s.Some? then s.value else ""
  }

  function Max(a: int, b: int): int {
    if a < b then b else a
  }

  // ---------------------------------------------------------------------------
  // slice, startsWith, includes, replace (first occurrence)
  // ---------------------------------------------------------------------------

  /**
   * `s.slice(0, end)`: a negative `end` counts back from the end of `s`, and
   * the result is clamped to the string.
   */
  function SliceTo(s: string, end: int): (r: string)
    ensures r <= s
    ensures 0 <= end ==> |r| == (if end <= |s| then end else |s|)
    ensures end < 0 ==> |r| == (if |s| + end < 0 then 0 else |s| + end)
  {
    var k := if end < 0 then (if |s| + end < 0 then 0 else |s| + end)
             else if end <= |s| then end else |s|;
    s[..k]
  }

  /** `s.startsWith(p)`. */
  predicate StartsWith(s: string, p: string) {
    p <= s
  }

  /** `needle` occurs in `hay` starting at index `i`. */
  ghost predicate OccursAt(hay: string, needle: string, i: int) {
    0 <= i && i + |needle| <= |hay| && hay[i..i + |needle|] == needle
  }

  /** `hay.includes(needle)`, scanning from the left. */
  function Includes(hay: string, needle: string): (r: bool)
    ensures r <==> exists i :: OccursAt(hay, needle, i)
    decreases |hay|
  {
    if needle <= hay then
      assert OccursAt(hay, needle, 0);
      true
    else if hay == [] then
      assert forall i :: !OccursAt(hay, needle, i);
      false
    else
      OccursShift(hay, needle);
      Includes(hay[1..], needle)
  }

  /** Dropping a first character that cannot start an occurrence shifts every occurrence by one. */
  lemma OccursShift(hay: string, needle: string)
    requires hay != [] && !(needle <= hay)
    ensures (exists i :: OccursAt(hay, needle, i)) <==> (exists j :: OccursAt(hay[1..], needle, j))
  {
    if i :| OccursAt(hay, needle, i) {
      assert i != 0;
      assert hay[1..][i - 1..i - 1 + |needle|] == hay[i..i + |needle|];
      assert OccursAt(hay[1..], needle, i - 1);
    }
    if j :| OccursAt(hay[1..], needle, j) {
      assert hay[1..][j..j + |needle|] == hay[j + 1..j + 1 + |needle|];
      assert OccursAt(hay, needle, j + 1);
    }
  }

  /** The empty string is found in every string. */
  lemma IncludesEmpty(hay: string)
    ensures Includes(hay, "")
  {
    assert OccursAt(hay, "", 0);
  }

  /** `s.replace(pat, rep)` with a string pattern: only the leftmost occurrence is replaced. */
  function ReplaceFirst(s: string, pat: string, rep: string): (r: string)
    decreases |s|
  {
    if pat <= s then rep + s[|pat|..]
    else if s == [] then s
    else [s[0]] + ReplaceFirst(s[1..], pat, rep)
  }

  /** Removing a prefix that the string starts with leaves the rest. */
  lemma ReplaceLeadingPrefix(s: string, pat: string)
    requires StartsWith(s, pat)
    ensures ReplaceFirst(s, pat, "") == s[|pat|..]
  {
  }

  // ---------------------------------------------------------------------------
  // Case mapping
  // ---------------------------------------------------------------------------

  /**
   * `toLowerCase` of one code unit, for the ASCII letters and the upper-case
   * letters of the Azerbaijani Latin alphabet. `İ` becomes `i` followed by a
   * combining dot above, as in JavaScript.
   */
  function LowerChar(c: char): string {
    if 'A' <= c <= 'Z' then [(c as int + 32) as char]
    else if c == 'Ə' then "ə"
    else if c == 'Ç' then "ç"
    else if c == 'Ş' then "ş"
    else if c == 'Ğ' then "ğ"
    else if c == 'Ö' then "ö"
    else if c == 'Ü' then "ü"
    else if c == 'İ' then "i\U{0307}"
    else [c]
  }

  /** `toUpperCase` of one code unit, for the letters `LowerChar` maps. */
  function UpperChar(c: char): char {
    if 'a' <= c <= 'z' then (c as int - 32) as char
    else if c == 'ə' then 'Ə'
    else if c == 'ç' then 'Ç'
    else if c == 'ş' then 'Ş'
    else if c == 'ğ' then 'Ğ'
    else if c == 'ö' then 'Ö'
    else if c == 'ü' then 'Ü'
    else if c == 'ı' then 'I'
    else c
  }

  /** `s.toLowerCase()`. */
  function Lower(s: string): string
    decreases |s|
  {
    if s == [] then [] else LowerChar(s[0]) + Lower(s[1..])
  }

  /** `s.toUpperCase()`. */
  function Upper(s: string): (r: string)
    ensures |r| == |s|
    decreases |s|
  {
    if s == [] then [] else [UpperChar(s[0])] + Upper(s[1..])
  }

  lemma {:induction false} LowerAppend(a: string, b: string)
    ensures Lower(a + b) == Lower(a) + Lower(b)
    decreases |a|
  {
    if a != [] {
      var ab := a + b;
      assert ab != [] && ab[0] == a[0] && ab[1..] == a[1..] + b;
      LowerAppend(a[1..], b);
      calc {
        Lower(ab);
        LowerChar(a[0]) + Lower(a[1..] + b);
        LowerChar(a[0]) + (Lower(a[1..]) + Lower(b));
        (LowerChar(a[0]) + Lower(a[1..])) + Lower(b);
      }    } else {
      assert a + b == b;
    }
  }

  lemma {:induction false} UpperAppend(a: string, b: string)
    ensures Upper(a + b) == Upper(a) + Upper(b)
    decreases |a|
  {
    if a != [] {
      var ab := a + b;
      assert ab != [] && ab[0] == a[0] && ab[1..] == a[1..] + b;
      UpperAppend(a[1..], b);
      calc {
        Upper(ab);
        [UpperChar(a[0])] + Upper(a[1..] + b);
        [UpperChar(a[0])] + (Upper(a[1..]) + Upper(b));
        ([UpperChar(a[0])] + Upper(a[1..])) + Upper(b);
      }    } else {
      assert a + b == b;
    }
  }

  /** Lower-casing is idempotent: `s.toLowerCase().toLowerCase() == s.toLowerCase()`. */
  lemma {:induction false} LowerIdempotent(s: string)
    ensures Lower(Lower(s)) == Lower(s)
    decreases |s|
  {
    if s != [] {
      var h := LowerChar(s[0]);
      assert Lower(h) == h by {
        if |h| == 2 {
          assert h == ['i'] + ['\U{0307}'];
          LowerAppend(['i'], ['\U{0307}']);
        }
      }
      LowerAppend(h, Lower(s[1..]));
      LowerIdempotent(s[1..]);
    }
  }

  /** `s` with every dotless `ı` turned into `i`. */
  function Undot(s: string): string {
    seq(|s|, k requires 0 <= k < |s| => if s[k] == 'ı' then 'i' else s[k])
  }

  lemma UndotAppend(a: string, b: string)
    ensures Undot(a + b) == Undot(a) + Undot(b)
  {
  }

  /** A text without `ı` is its own `Undot`. */
  lemma UndotFree(s: string)
    requires 'ı' !in s
    ensures Undot(s) == s
  {
  }

  /** Lower-casing produces an `ı` only from an `ı`. */
  lemma {:induction false} LowerDotless(s: string)
    ensures 'ı' in Lower(s) <==> 'ı' in s
    decreases |s|
  {
    if s != [] {
      LowerDotless(s[1..]);
      assert s == [s[0]] + s[1..];
      assert Lower(s) == LowerChar(s[0]) + Lower(s[1..]);
    }
  }

  /**
   * Upper-casing first changes the lower-cased form only in its dotless
   * letters: `ı` upper-cases to `I`, which lower-cases to `i`.
   */
  lemma {:induction false} LowerOfUpper(s: string)
    ensures Lower(Upper(s)) == Undot(Lower(s))
    decreases |s|
  {
    if s != [] {
      assert Upper(s) == [UpperChar(s[0])] + Upper(s[1..]);
      LowerAppend([UpperChar(s[0])], Upper(s[1..]));
      LowerOfUpper(s[1..]);
      UndotAppend(LowerChar(s[0]), Lower(s[1..]));
      LowerOfUpperChar(s[0]);
    }
  }

  lemma LowerOfUpperChar(c: char)
    ensures Lower([UpperChar(c)]) == Undot(LowerChar(c))
  {
    assert Lower([UpperChar(c)]) == LowerChar(UpperChar(c)) + Lower([]);
  }

  /** For a text without `ı`, upper-casing first does not change the lower-cased form. */
  lemma LowerOfUpperDotted(s: string)
    requires 'ı' !in s
    ensures Lower(Upper(s)) == Lower(s)
  {
    LowerOfUpper(s);
    LowerDotless(s);
    UndotFree(Lower(s));
  }

  /** Dotting before or after lower-casing gives the same text. */
  lemma {:induction false} LowerUndot(s: string)
    ensures Lower(Undot(s)) == Undot(Lower(s))
    decreases |s|
  {
    if s != [] {
      LowerUndot(s[1..]);
      assert Undot(s) == Undot([s[0]]) + Undot(s[1..]);
      LowerAppend(Undot([s[0]]), Undot(s[1..]));
      UndotAppend(LowerChar(s[0]), Lower(s[1..]));
      assert Lower(Undot([s[0]])) == LowerChar(Undot([s[0]])[0]) + Lower([]);
    }
  }

  /** A needle with neither `i` nor `ı` is found in `Undot(hay)` exactly when it is found in `hay`. */
  lemma IncludesUndot(hay: string, needle: string)
    requires 'i' !in needle && 'ı' !in needle
    ensures Includes(Undot(hay), needle) == Includes(hay, needle)
  {
    var u := Undot(hay);
    if Includes(u, needle) {
      var i :| OccursAt(u, needle, i);
      OccursUndot(hay, needle, i);
    }
    if Includes(hay, needle) {
      var i :| OccursAt(hay, needle, i);
      OccursUndot(hay, needle, i);
    }
  }

  lemma OccursUndot(hay: string, needle: string, i: int)
    requires 'i' !in needle && 'ı' !in needle
    ensures OccursAt(Undot(hay), needle, i) <==> OccursAt(hay, needle, i)
  {
    var u := Undot(hay);
    if OccursAt(hay, needle, i) {
      assert forall j :: 0 <= j < |needle| ==> hay[i + j] == needle[j];
      assert u[i..i + |needle|] == needle;
    }
    if OccursAt(u, needle, i) {
      assert forall j :: 0 <= j < |needle| ==> u[i + j] == needle[j];
      assert hay[i..i + |needle|] == needle;
    }
  }

  /** Upper-casing is idempotent. */
  lemma {:induction false} UpperIdempotent(s: string)
    ensures Upper(Upper(s)) == Upper(s)
    decreases |s|
  {
    if s != [] {
      assert Upper(s) == [UpperChar(s[0])] + Upper(s[1..]);
      UpperAppend([UpperChar(s[0])], Upper(s[1..]));
      UpperIdempotent(s[1..]);
    }
  }

  // ---------------------------------------------------------------------------
  // trim
  // ---------------------------------------------------------------------------

  /** The code units `String.prototype.trim` removes: ECMAScript WhiteSpace and LineTerminator. */
  const JsWhitespace: set<char> := {
    '\t', '\n', '\U{000B}', '\U{000C}', '\r', ' ', '\U{00A0}', '\U{1680}',
    '\U{2000}', '\U{2001}', '\U{2002}', '\U{2003}', '\U{2004}', '\U{2005}',
    '\U{2006}', '\U{2007}', '\U{2008}', '\U{2009}', '\U{200A}', '\U{2028}',
    '\U{2029}', '\U{202F}', '\U{205F}', '\U{3000}', '\U{FEFF}'
  }

  function TrimStart(s: string): (r: string)
    ensures |r| <= |s| && r == s[|s| - |r|..]
    ensures forall k :: 0 <= k < |s| - |r| ==> s[k] in JsWhitespace
    ensures r == [] || r[0] !in JsWhitespace
    decreases |s|
  {
    if s != [] && s[0] in JsWhitespace then TrimStart(s[1..]) else s
  }

  function TrimEnd(s: string): (r: string)
    ensures r <= s
    ensures forall k :: |r| <= k < |s| ==> s[k] in JsWhitespace
    ensures r == [] || r[|r| - 1] !in JsWhitespace
    decreases |s|
  {
    if s != [] && s[|s| - 1] in JsWhitespace then TrimEnd(s[..|s| - 1]) else s
  }

  /** `r` is the part of `s` that starts at index `i`. */
  ghost predicate IsInfixAt(r: string, s: string, i: int) {
    0 <= i && i + |r| <= |s| && r == s[i..i + |r|]
  }

  /** `s.trim()`: the input without its leading and trailing whitespace. */
  function Trim(s: string): (r: string)
    ensures exists i :: IsInfixAt(r, s, i)
    ensures r == [] || (r[0] !in JsWhitespace && r[|r| - 1] !in JsWhitespace)
  {
    var t := TrimStart(s);
    var r := TrimEnd(t);
    PrefixOfSuffix(s, t, r);
    r
  }

  /** A prefix of a suffix of `s` is an infix of `s`. */
  lemma PrefixOfSuffix(s: string, t: string, r: string)
    requires |t| <= |s| && t == s[|s| - |t|..]
    requires r <= t
    ensures IsInfixAt(r, s, |s| - |t|)
  {
    assert r == t[..|r|];
  }

  // ---------------------------------------------------------------------------
  // split / reverse / join on a one-character separator
  // ---------------------------------------------------------------------------

  /** `s.split(sep)` for a one-character separator: the pieces between separators, empty ones included. */
  function Split(s: string, sep: char): (r: seq<string>)
    ensures |r| >= 1
    ensures forall p :: p in r ==> sep !in p
    decreases |s|
  {
    if s == [] then [""]
    else
      var rest := Split(s[1..], sep);
      if s[0] == sep then [""] + rest else [[s[0]] + rest[0]] + rest[1..]
  }

  /** `parts.join(sep)`. */
  function Join(parts: seq<string>, sep: char): string
    decreases |parts|
  {
    if parts == [] then ""
    else if |parts| == 1 then parts[0]
    else parts[0] + [sep] + Join(parts[1..], sep)
  }

  function Reverse<T>(s: seq<T>): (r: seq<T>)
    ensures |r| == |s|
    ensures forall i :: 0 <= i < |s| ==> r[i] == s[|s| - 1 - i]
  {
    seq(|s|, i requires 0 <= i < |s| => s[|s| - 1 - i])
  }

  /** Joining the pieces again gives back the string. */
  lemma {:induction false} JoinSplit(s: string, sep: char)
    ensures Join(Split(s, sep), sep) == s
    decreases |s|
  {
    if s != [] {
      var rest := Split(s[1..], sep);
      JoinSplit(s[1..], sep);
      if s[0] == sep {
        assert Split(s, sep) == [""] + rest;
      } else {
        assert Split(s, sep) == [[s[0]] + rest[0]] + rest[1..];
        if |rest| > 1 {
          assert Join(rest, sep) == rest[0] + [sep] + Join(rest[1..], sep);
        }
      }
    }
  }

  /** A string without the separator is a single piece. */
  lemma {:induction false} SplitWithoutSeparator(s: string, sep: char)
    requires sep !in s
    ensures Split(s, sep) == [s]
    decreases |s|
  {
    if s != [] {
      SplitWithoutSeparator(s[1..], sep);
      assert [s[0]] + s[1..] == s;
    }
  }

  /** A separator-free head followed by the separator splits off as the first piece. */
  lemma {:induction false} SplitAfterPiece(p: string, sep: char, t: string)
    requires sep !in p
    ensures Split(p + [sep] + t, sep) == [p] + Split(t, sep)
    decreases |p|
  {
    var s := p + [sep] + t;
    if p == [] {
      assert s[1..] == t;
    } else {
      assert s[0] == p[0] && s[1..] == p[1..] + [sep] + t;
      SplitAfterPiece(p[1..], sep, t);
      assert [p[0]] + p[1..] == p;
    }
  }

  /** Splitting pieces that were joined gives the pieces back. */
  lemma {:induction false} SplitJoin(parts: seq<string>, sep: char)
    requires |parts| >= 1
    requires forall p :: p in parts ==> sep !in p
    ensures Split(Join(parts, sep), sep) == parts
    decreases |parts|
  {
    if |parts| == 1 {
      SplitWithoutSeparator(parts[0], sep);
    } else {
      SplitAfterPiece(parts[0], sep, Join(parts[1..], sep));
      SplitJoin(parts[1..], sep);
      assert parts == [parts[0]] + parts[1..];
    }
  }

  /** `s.map(f)`. */
  function MapSeq<A, B>(f: A -> B, s: seq<A>): (r: seq<B>)
    ensures |r| == |s|
    decreases |s|
  {
    if s == [] then [] else MapSeq(f, s[..|s| - 1]) + [f(s[|s| - 1])]
  }

  /** Mapping works element by element. */
  lemma {:induction false} MapSeqAppend<A, B>(f: A -> B, a: seq<A>, b: seq<A>)
    ensures MapSeq(f, a + b) == MapSeq(f, a) + MapSeq(f, b)
    decreases |b|
  {
    if b == [] {
      assert a + b == a;
    } else {
      MapSeqAppend(f, a, b[..|b| - 1]);
      assert (a + b)[..|a + b| - 1] == a + b[..|b| - 1];
    }
  }

  lemma MapSeqSnoc<A, B>(f: A -> B, s: seq<A>, x: A)
    ensures MapSeq(f, s + [x]) == MapSeq(f, s) + [f(x)]
  {
    assert (s + [x])[..|s|] == s;
  }

  /** The mapped sequence holds `f` of each element, position by position. */
  lemma {:induction false} MapSeqAt<A, B>(f: A -> B, s: seq<A>)
    ensures forall i :: 0 <= i < |s| ==> MapSeq(f, s)[i] == f(s[i])
    decreases |s|
  {
    if s != [] {
      MapSeqAt(f, s[..|s| - 1]);
    }
  }

  // ---------------------------------------------------------------------------
  // Decimal numerals: String(n) and Number(s)
  // ---------------------------------------------------------------------------

  predicate IsDigit(c: char) {
    '0' <= c <= '9'
  }

  predicate IsDigits(s: string) {
    forall c :: c in s ==> IsDigit(c)
  }

  function DigitChar(d: nat): (c: char)
    requires d < 10
    ensures IsDigit(c) && c as int - '0' as int == d
  {
    ('0' as int + d) as char
  }

  /** `String(n)` for a non-negative integer: its decimal numeral, without leading zeros. */
  function ShowNat(n: nat): (r: string)
    ensures |r| >= 1 && IsDigits(r)
    ensures |r| > 1 ==> r[0] != '0'
    decreases n
  {
    if n < 10 then [DigitChar(n)] else ShowNat(n / 10) + [DigitChar(n % 10)]
  }

  /** `String(i)` for an integer. */
  function ShowInt(i: int): string {
    if i < 0 then "-" + ShowNat(-i) else ShowNat(i)
  }

  /** `Number(s)` for a string of decimal digits (the empty string gives 0). */
  function ParseNat(s: string): nat
    requires IsDigits(s)
    decreases |s|
  {
    if s == [] then 0
    else
      assert s[|s| - 1] in s;
      ParseNat(s[..|s| - 1]) * 10 + (s[|s| - 1] as int - '0' as int)
  }

  /** Reading back a written numeral gives the number: `Number(String(n)) == n`. */
  lemma {:induction false} ParseShow(n: nat)
    ensures ParseNat(ShowNat(n)) == n
    decreases n
  {
    if n >= 10 {
      var s := ShowNat(n);
      assert s[..|s| - 1] == ShowNat(n / 10);
      ParseShow(n / 10);
    }
  }

  // ---------------------------------------------------------------------------
  // String length in UTF-16 code units
  // ---------------------------------------------------------------------------

  /** A character beyond the Basic Multilingual Plane: two code units in UTF-16. */
  predicate Astral(c: char) {
    c as int > 0xFFFF
  }

  /** Every character of `s` is one UTF-16 code unit. */
  predicate Bmp(s: string) {
    forall i :: 0 <= i < |s| ==> !Astral(s[i])
  }

  /** `s.length`: the number of UTF-16 code units of `s`. */
  function Utf16Length(s: string): (n: nat)
    ensures |s| <= n <= 2 * |s|
    decreases |s|
  {
    if s == [] then 0 else Utf16Length(s[..|s| - 1]) + (if Astral(s[|s| - 1]) then 2 else 1)
  }

  lemma {:induction false} Utf16Append(a: string, b: string)
    ensures Utf16Length(a + b) == Utf16Length(a) + Utf16Length(b)
    decreases |b|
  {
    if b == [] {
      assert a + b == a;
    } else {
      var init := b[..|b| - 1];
      Utf16Append(a, init);
      assert (a + b)[..|a + b| - 1] == a + init;
    }
  }

  /** Within the Basic Multilingual Plane, code units and characters agree. */
  lemma {:induction false} Utf16Bmp(s: string)
    requires Bmp(s)
    ensures Utf16Length(s) == |s|
    decreases |s|
  {
    if s != [] {
      Utf16Bmp(s[..|s| - 1]);
    }
  }
}
