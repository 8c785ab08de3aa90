/**
 * String helpers shared by the model: the blank test of `StringUtils.isNotBlank` / Kotlin `isNotBlank`,
 * the lexicographic order of `String.compareTo`, the literal replacement of `StringUtils.replace`
 * and the decimal rendering of an integer.
 */
module Text {

  /** The whitespace characters of `Character.isWhitespace` in the ASCII range. */
  predicate IsWhitespace(c: char) {
    c == ' ' || c == '\t' || c == '\n' || c == '\r' || c == '\U{B}' || c == '\U{C}'
    || ('\U{1C}' <= c <= '\U{1F}')
  }

  /** A string is blank when it is empty or made only of whitespace. */
  predicate IsBlank(s: string) {
    forall i :: 0 <= i < |s| ==> IsWhitespace(s[i])
  }

  // ---------------------------------------------------------------------------------------------
  // Lexicographic order (String.compareTo): the first differing character decides, and a proper
  // prefix comes first.

  predicate StrLt(a: string, b: string)
    decreases |a|
  {
    if |b| == 0 then false
    else if |a| == 0 then true
    else if a[0] != b[0] then a[0] < b[0]
    else StrLt(a[1..], b[1..])
  }

  lemma {:induction false} StrLtIrreflexive(a: string)
    ensures !StrLt(a, a)
    decreases |a|
  {
    if |a| > 0 {
      StrLtIrreflexive(a[1..]);
    }
  }

  lemma {:induction false} StrLtTransitive(a: string, b: string, c: string)
    requires StrLt(a, b) && StrLt(b, c)
    ensures StrLt(a, c)
    decreases |a|
  {
    if |a| > 0 && a[0] == b[0] && b[0] == c[0] {
      StrLtTransitive(a[1..], b[1..], c[1..]);
    }
  }

  lemma {:induction false} StrLtTotal(a: string, b: string)
    ensures a == b || StrLt(a, b) || StrLt(b, a)
    decreases |a|
  {
    if |a| > 0 && |b| > 0 && a[0] == b[0] {
      StrLtTotal(a[1..], b[1..]);
      if a[1..] == b[1..] {
        assert a == [a[0]] + a[1..] && b == [b[0]] + b[1..];
      }
    }
  }

  lemma StrLtAsymmetric(a: string, b: string)
    requires StrLt(a, b)
    ensures !StrLt(b, a)
  {
    if StrLt(b, a) {
      StrLtTransitive(a, b, a);
      StrLtIrreflexive(a);
    }
  }

  /** The sign of `a.compareTo(b)`. */
  function StrCompare(a: string, b: string): (r: int)
    ensures r == 0 <==> a == b
    ensures r < 0 <==> StrLt(a, b)
    ensures r > 0 <==> StrLt(b, a)
    ensures -1 <= r <= 1
  {
    StrLtIrreflexive(a);
    StrLtTotal(a, b);
    if a == b then 0
    else if StrLt(a, b) then StrLtAsymmetric(a, b); -1
    else 1
  }

  // ---------------------------------------------------------------------------------------------
  // StringUtils.replace(text, search, replacement): every occurrence of `search`, scanned from the left
  // without overlap, is replaced; an empty `search` leaves the text as it is.

  function Replace(text: string, search: string, replacement: string): string
    decreases |text|
  {
    if |search| == 0 || |text| < |search| then text
    else if text[..|search|] == search then replacement + Replace(text[|search|..], search, replacement)
    else [text[0]] + Replace(text[1..], search, replacement)
  }

  /** `search` occurs in `text` at position `i`. */
  ghost predicate OccursAt(text: string, search: string, i: int) {
    0 <= i && i + |search| <= |text| && text[i..i + |search|] == search
  }

  /** `search` occurs in `text` at some position. */
  ghost predicate Occurs(text: string, search: string) {
    exists i :: OccursAt(text, search, i)
  }

  /** A text in which `search` does not occur comes back unchanged. */
  lemma {:induction false} ReplaceWithoutOccurrence(text: string, search: string, replacement: string)
    requires |search| > 0 && !Occurs(text, search)
    ensures Replace(text, search, replacement) == text
    decreases |text|
  {
    if |text| >= |search| {
      assert !OccursAt(text, search, 0);
      assert text[0..0 + |search|] == text[..|search|];
      forall i ensures !OccursAt(text[1..], search, i) {
        if 0 <= i && i + |search| <= |text[1..]| {
          assert text[1..][i..i + |search|] == text[i + 1..i + 1 + |search|];
          assert !OccursAt(text, search, i + 1);
        }
      }
      ReplaceWithoutOccurrence(text[1..], search, replacement);
      assert [text[0]] + text[1..] == text;
    }
  }

  /** A text without the first character of `search` does not contain `search`. */
  lemma NoOccurrenceWithoutFirstChar(text: string, search: string)
    requires |search| > 0 && search[0] !in text
    ensures !Occurs(text, search)
  {
    forall i ensures !OccursAt(text, search, i) {
      if 0 <= i && i + |search| <= |text| {
        assert text[i..i + |search|][0] == text[i];
      }
    }
  }

  /**
   * Filling a template: when the first character of `search` does not appear before the placeholder,
   * the placeholder is the first occurrence and is replaced, and the scan goes on after it.
   */
  lemma {:induction false} ReplaceFirstPlaceholder(before: string, search: string, after: string, replacement: string)
    requires |search| > 0 && search[0] !in before
    ensures Replace(before + search + after, search, replacement)
         == before + replacement + Replace(after, search, replacement)
    decreases |before|
  {
    var text := before + search + after;
    var rest := Replace(after, search, replacement);
    if |before| == 0 {
      assert text == search + after;
      assert text[..|search|] == search;
      assert text[|search|..] == after;
    } else {
      assert text[..|search|] != search by {
        assert text[..|search|][0] == before[0];
      }
      assert text[1..] == before[1..] + search + after;
      assert Replace(text, search, replacement) == [before[0]] + Replace(text[1..], search, replacement);
      ReplaceFirstPlaceholder(before[1..], search, after, replacement);
      calc {
        [before[0]] + (before[1..] + replacement + rest);
        ([before[0]] + before[1..]) + replacement + rest;
        { assert [before[0]] + before[1..] == before; }
        before + replacement + rest;
      }
    }
  }

  /** A template holding the placeholder once, with the placeholder's first character nowhere else. */
  lemma FillTemplate(before: string, search: string, after: string, replacement: string)
    requires |search| > 0 && search[0] !in before && search[0] !in after
    ensures Replace(before + search + after, search, replacement) == before + replacement + after
  {
    ReplaceFirstPlaceholder(before, search, after, replacement);
    NoOccurrenceWithoutFirstChar(after, search);
    ReplaceWithoutOccurrence(after, search, replacement);
  }

  /** The parts joined by the separator: `[a, b, c]` gives `a + separator + b + separator + c`. */
  function Join(parts: seq<string>, separator: string): string
    decreases |parts|
  {
    if |parts| == 0 then ""
    else if |parts| == 1 then parts[0]
    else parts[0] + separator + Join(parts[1..], separator)
  }

  /**
   * A template holding the placeholder any number of times, with the placeholder's first character
   * nowhere else, has every placeholder replaced.
   */
  lemma {:induction false} FillEveryPlaceholder(parts: seq<string>, search: string, replacement: string)
    requires |search| > 0 && forall i :: 0 <= i < |parts| ==> search[0] !in parts[i]
    ensures Replace(Join(parts, search), search, replacement) == Join(parts, replacement)
    decreases |parts|
  {
    if |parts| == 1 {
      NoOccurrenceWithoutFirstChar(parts[0], search);
      ReplaceWithoutOccurrence(parts[0], search, replacement);
    } else if |parts| > 1 {
      FillEveryPlaceholder(parts[1..], search, replacement);
      ReplaceFirstPlaceholder(parts[0], search, Join(parts[1..], search), replacement);
    }
  }

  // ---------------------------------------------------------------------------------------------
  // Decimal rendering of integers (Integer.toString).

  function DigitChar(d: nat): char
    requires d < 10
  {
    "0123456789"[d]
  }

  function NatToString(n: nat): string
    decreases n
  {
    if n < 10 then [DigitChar(n)] else NatToString(n / 10) + [DigitChar(n % 10)]
  }

  function IntToString(n: int): string {
    if n < 0 then "-" + NatToString(-n) else NatToString(n)
  }
}
