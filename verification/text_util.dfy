/**
 * Telegram MarkdownV2 escaping and title truncation, as used when a legal act's
 * title is put into a chat message.
 */
module TextUtil {
  import opened Js

  /** The characters Telegram's MarkdownV2 reserves; each is escaped with a backslash. */
  const MarkdownReserved: set<char> := {
    '_', '*', '[', ']', '(', ')', '~', '`', '>', '#',
    '+', '-', '=', '|', '{', '}', '.', '!', '\\'
  }

  /** The single code unit `…` appended to a shortened text. */
  const Ellipsis: char := '…'

  /** Default cap on the raw title length of a notification. */
  const DefaultHardCap: int := 3000

  /** Number of reserved characters in `s`. */
  function CountReserved(s: string): (n: nat)
    ensures n <= |s|
    decreases |s|
  {
    if s == [] then 0 else (if s[0] in MarkdownReserved then 1 else 0) + CountReserved(s[1..])
  }

  /** The escaped form of one character. */
  function EscapeChar(c: char): string {
    if c in MarkdownReserved then ['\\', c] else [c]
  }

  /**
   * `escapeMarkdown(text)`: every reserved character gets a backslash in
   * front of it; the output grows by exactly one per reserved character.
   */
  function EscapeMarkdown(text: string): (r: string)
    ensures |r| == |text| + CountReserved(text)
    decreases |text|
  {
    if text == [] then [] else EscapeChar(text[0]) + EscapeMarkdown(text[1..])
  }

  /** Removes each backslash that `EscapeMarkdown` inserted. */
  function Unescape(r: string): string
    decreases |r|
  {
    if r == [] then []
    else if r[0] == '\\' && |r| >= 2 then [r[1]] + Unescape(r[2..])
    else [r[0]] + Unescape(r[1..])
  }

  /** Escaping works character by character. */
  lemma {:induction false} EscapeAppend(a: string, b: string)
    ensures EscapeMarkdown(a + b) == EscapeMarkdown(a) + EscapeMarkdown(b)
    decreases |a|
  {
    if a == [] {
      assert a + b == b;
    } else {
      var ab := a + b;
      assert ab[0] == a[0] && ab[1..] == a[1..] + b;
      EscapeAppend(a[1..], b);
      calc {
        EscapeMarkdown(ab);
        EscapeChar(a[0]) + EscapeMarkdown(a[1..] + b);
        EscapeChar(a[0]) + (EscapeMarkdown(a[1..]) + EscapeMarkdown(b));
        (EscapeChar(a[0]) + EscapeMarkdown(a[1..])) + EscapeMarkdown(b);
      }
    }
  }

  /** Removing the inserted backslashes gives back the input. */
  lemma {:induction false} UnescapeEscape(s: string)
    ensures Unescape(EscapeMarkdown(s)) == s
    decreases |s|
  {
    if s != [] {
      var e := EscapeMarkdown(s);
      UnescapeEscape(s[1..]);
      if s[0] in MarkdownReserved {
        assert e == ['\\', s[0]] + EscapeMarkdown(s[1..]);
        assert e[2..] == EscapeMarkdown(s[1..]);
      } else {
        assert e == [s[0]] + EscapeMarkdown(s[1..]);
        assert e[1..] == EscapeMarkdown(s[1..]);
        assert s[0] != '\\';
      }
      assert [s[0]] + s[1..] == s;
    }
  }

  /** A text with no reserved character is left as it is. */
  lemma {:induction false} EscapeWithoutReserved(s: string)
    requires forall i :: 0 <= i < |s| ==> s[i] !in MarkdownReserved
    ensures EscapeMarkdown(s) == s
    decreases |s|
  {
    if s != [] {
      EscapeWithoutReserved(s[1..]);
      assert [s[0]] + s[1..] == s;
    }
  }

  /** An escaped text without any backslash came from a text without reserved characters. */
  lemma {:induction false} BackslashFreeEscape(s: string)
    requires '\\' !in EscapeMarkdown(s)
    ensures forall i :: 0 <= i < |s| ==> s[i] !in MarkdownReserved
    ensures EscapeMarkdown(s) == s
    decreases |s|
  {
    if s != [] {
      var e := EscapeMarkdown(s);
      assert e == EscapeChar(s[0]) + EscapeMarkdown(s[1..]);
      assert EscapeMarkdown(s[1..]) == e[1..];
      assert forall c :: c in e[1..] ==> c in e;
      BackslashFreeEscape(s[1..]);
      assert [s[0]] + s[1..] == s;
    }
  }

  /** The result of `truncateWithEllipsis`. */
  datatype Truncation = Truncation(value: string, truncated: bool)

  /**
   * `truncateWithEllipsis(text, max)`: the text itself when it fits; otherwise
   * its first `max - 1` characters and `…`, or for `max <= 1` the first `max`
   * characters (JavaScript `slice`, so a negative `max` counts from the end).
   */
  function TruncateWithEllipsis(text: string, max: int): (r: Truncation)
    ensures !r.truncated <==> |text| <= max
    ensures !r.truncated ==> r.value == text
    ensures 0 <= max ==> |r.value| <= max
    ensures r.truncated && 2 <= max ==> |r.value| == max && r.value == text[..max - 1] + [Ellipsis]
    ensures r.truncated && 0 <= max <= 1 ==> r.value == text[..max]
  {
    if |text| <= max then Truncation(text, false)
    else if max <= 1 then Truncation(SliceTo(text, max), true)
    else Truncation(SliceTo(text, max - 1) + [Ellipsis], true)
  }

  /** The result of `buildSafeTitleForTelegram`. */
  datatype SafeTitle = SafeTitle(title: string, truncated: bool, originalLength: nat)

  /**
   * `buildSafeTitleForTelegram(rawTitle, hardCap)`: the title cut at `hardCap`
   * and then escaped. An untruncated title can be recovered from the result,
   * and the escaped title is at most twice the cap.
   */
  function BuildSafeTitleForTelegram(rawTitle: string, hardCap: int): (r: SafeTitle)
    ensures r.title == EscapeMarkdown(TruncateWithEllipsis(rawTitle, hardCap).value)
    ensures r.truncated <==> |rawTitle| > hardCap
    ensures r.originalLength == |rawTitle|
    ensures !r.truncated ==> Unescape(r.title) == rawTitle
    ensures 0 <= hardCap ==> |r.title| <= 2 * hardCap
  {
    var t := TruncateWithEllipsis(rawTitle, hardCap);
    UnescapeEscape(t.value);
    SafeTitle(EscapeMarkdown(t.value), t.truncated, |rawTitle|)
  }
}
