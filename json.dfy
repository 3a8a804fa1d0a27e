/**
 * `JSON.stringify` of an array of strings, as the add-service form sends its
 * description lines, and a reader that gets the array back from the text.
 */
module Json {
  import opened Base

  /** A lower-case hexadecimal digit. */
  function HexDigit(d: nat): (c: char)
    requires d < 16
  {
    if d < 10 then ('0' as int + d) as char else ('a' as int + d - 10) as char
  }

  /** The value of a hexadecimal digit of either case. */
  function HexValue(c: char): (r: Option<nat>)
    ensures r.Some? ==> r.value < 16
  {
    if '0' <= c <= '9' then Some(c as int - '0' as int)
    else if 'a' <= c <= 'f' then Some(c as int - 'a' as int + 10)
    else if 'A' <= c <= 'F' then Some(c as int - 'A' as int + 10)
    else None
  }

  /** How `JSON.stringify` writes one character inside a string literal: the
      quote, the backslash and the five control characters with a short form
      get a two-character escape, the other control characters a `\u00XX`
      escape, and everything else stands for itself. */
  function EscapeChar(c: char): (r: string)
    ensures |r| >= 1
    ensures |r| == 1 <==> (c != '"' && c != '\\' && c as int >= 0x20)
  {
    if c == '"' then "\\\""
    else if c == '\\' then "\\\\"
    else if c == '\U{0008}' then "\\b"
    else if c == '\U{000C}' then "\\f"
    else if c == '\n' then "\\n"
    else if c == '\r' then "\\r"
    else if c == '\t' then "\\t"
    else if c as int < 0x20 then
      "\\u00" + [HexDigit(c as int / 16), HexDigit(c as int % 16)]
    else [c]
  }

  function Escape(s: string): string {
    if |s| == 0 then "" else EscapeChar(s[0]) + Escape(s[1..])
  }

  /** A string literal: the escaped text between double quotes. */
  function Quote(s: string): string {
    "\"" + Escape(s) + "\""
  }

  /** The literals of `items`, separated by commas. */
  function QuoteAll(items: seq<string>): string {
    if |items| == 0 then ""
    else if |items| == 1 then Quote(items[0])
    else Quote(items[0]) + "," + QuoteAll(items[1..])
  }

  /** `JSON.stringify(items)` for an array of strings. */
  function StringifyStrings(items: seq<string>): (t: string)
    ensures ParseStrings(t) == Some(items)
  {
    var t := "[" + QuoteAll(items) + "]";
    if |items| > 0 then
      assert t[1..|t| - 1] == QuoteAll(items);
      ParseQuoteAll(items);
      t
    else t
  }

  /** `JSON.parse` of a string literal's inside, up to its closing quote:
      the decoded text and what follows the quote. */
  function ReadChars(t: string): (r: Option<(string, string)>)
    ensures r.Some? ==> |r.value.1| < |t|
    decreases |t|
  {
    if |t| == 0 then None
    else if t[0] == '"' then Some(("", t[1..]))
    else if t[0] == '\\' then
      if |t| < 2 then None
      else if t[1] == 'u' then
        if |t| < 6 then None
        else match Hex4(t[2..6])
          case None => None
          case Some(v) =>
            if 0xD800 <= v < 0xE000 then None else Prepend(v as char, ReadChars(t[6..]))
      else match ShortEscape(t[1])
        case None => None
        case Some(c) => Prepend(c, ReadChars(t[2..]))
    else Prepend(t[0], ReadChars(t[1..]))
  }

  function Prepend(c: char, r: Option<(string, string)>): (r': Option<(string, string)>)
    ensures r'.Some? <==> r.Some?
    ensures r'.Some? ==> r'.value.0 == [c] + r.value.0 && r'.value.1 == r.value.1
  {
    match r
    case None => None
    case Some((s, rest)) => Some(([c] + s, rest))
  }

  /** The character a two-character escape stands for. */
  function ShortEscape(e: char): Option<char> {
    if e == '"' then Some('"')
    else if e == '\\' then Some('\\')
    else if e == '/' then Some('/')
    else if e == 'b' then Some('\U{0008}')
    else if e == 'f' then Some('\U{000C}')
    else if e == 'n' then Some('\n')
    else if e == 'r' then Some('\r')
    else if e == 't' then Some('\t')
    else None
  }

  /** The value of four hexadecimal digits. */
  function Hex4(h: string): (r: Option<nat>)
    requires |h| == 4
    ensures r.Some? ==> r.value < 0x10000
  {
    match (HexValue(h[0]), HexValue(h[1]), HexValue(h[2]), HexValue(h[3]))
    case (Some(a), Some(b), Some(c), Some(d)) =>
      Some(((a * 16 + b) * 16 + c) * 16 + d)
    case _ => None
  }

  /** The items of an array of string literals, `None` when the text is not one. */
  function ParseStrings(t: string): Option<seq<string>> {
    if |t| < 2 || t[0] != '[' || t[|t| - 1] != ']' then None
    else if |t| == 2 then Some([])
    else ParseItems(t[1..|t| - 1])
  }

  /** One or more string literals separated by commas. */
  function ParseItems(t: string): Option<seq<string>>
    decreases |t|
  {
    if |t| == 0 || t[0] != '"' then None
    else match ReadChars(t[1..])
      case None => None
      case Some((v, rest)) =>
        if |rest| == 0 then Some([v])
        else if rest[0] != ',' then None
        else match ParseItems(rest[1..])
          case None => None
          case Some(vs) => Some([v] + vs)
  }

  lemma HexDigitValue(d: nat)
    requires d < 16
    ensures HexValue(HexDigit(d)) == Some(d)
  {
  }

  /** A control character's `\u00XX` escape reads back as that character. */
  lemma {:induction false} ReadUnicodeEscape(c: char, tail: string)
    requires c as int < 0x20
    ensures ReadChars("\\u00" + [HexDigit(c as int / 16), HexDigit(c as int % 16)] + tail)
         == Prepend(c, ReadChars(tail))
  {
    var hi, lo := c as int / 16, c as int % 16;
    var t := "\\u00" + [HexDigit(hi), HexDigit(lo)] + tail;
    HexDigitValue(hi);
    HexDigitValue(lo);
    assert t[2..6] == "00" + [HexDigit(hi), HexDigit(lo)];
    assert Hex4(t[2..6]) == Some(c as int);
    assert t[6..] == tail;
  }

  /** A two-character escape reads back as the character it stands for. */
  lemma {:induction false} ReadShortEscape(e: char, c: char, tail: string)
    requires ShortEscape(e) == Some(c) && e != 'u'
    ensures ReadChars(['\\', e] + tail) == Prepend(c, ReadChars(tail))
  {
    var t := ['\\', e] + tail;
    assert t[0] == '\\' && t[1] == e && t[2..] == tail;
  }

  /** One escaped character reads back as itself, whatever follows it. */
  lemma {:induction false} ReadEscapedChar(c: char, tail: string)
    ensures ReadChars(EscapeChar(c) + tail) == Prepend(c, ReadChars(tail))
  {
    if c == '"' {
      ReadShortEscape('"', c, tail);
    } else if c == '\\' {
      ReadShortEscape('\\', c, tail);
    } else if c == '\U{0008}' {
      ReadShortEscape('b', c, tail);
    } else if c == '\U{000C}' {
      ReadShortEscape('f', c, tail);
    } else if c == '\n' {
      ReadShortEscape('n', c, tail);
    } else if c == '\r' {
      ReadShortEscape('r', c, tail);
    } else if c == '\t' {
      ReadShortEscape('t', c, tail);
    } else if c as int < 0x20 {
      ReadUnicodeEscape(c, tail);
    } else {
      var t := [c] + tail;
      assert t[0] == c && t[1..] == tail;
    }
  }

  /** The escaped text of `s` followed by the closing quote reads back as `s`,
      and the reader stops right after that quote. */
  lemma {:induction false} ReadEscaped(s: string, rest: string)
    ensures ReadChars(Escape(s) + "\"" + rest) == Some((s, rest))
    decreases |s|
  {
    if |s| == 0 {
      assert Escape(s) + "\"" + rest == "\"" + rest;
      assert ("\"" + rest)[1..] == rest;
    } else {
      var tail := Escape(s[1..]) + "\"" + rest;
      assert Escape(s) + "\"" + rest == EscapeChar(s[0]) + tail;
      ReadEscapedChar(s[0], tail);
      ReadEscaped(s[1..], rest);
      assert [s[0]] + s[1..] == s;
    }
  }

  /** A literal `"` + `body` followed by nothing, or by a comma and more. */
  lemma {:induction false} ParseFirstItem(v: string, more: string)
    ensures ParseItems("\"" + (Escape(v) + "\"" + more)) ==
      if |more| == 0 then Some([v])
      else if more[0] != ',' then None
      else match ParseItems(more[1..])
        case None => None
        case Some(vs) => Some([v] + vs)
  {
    var t := "\"" + (Escape(v) + "\"" + more);
    assert t[0] == '"' && t[1..] == Escape(v) + "\"" + more;
    ReadEscaped(v, more);
  }

  /** The comma-separated literals read back as the items. */
  lemma {:induction false} ParseQuoteAll(items: seq<string>)
    requires |items| > 0
    ensures ParseItems(QuoteAll(items)) == Some(items)
    decreases |items|
  {
    var t := QuoteAll(items);
    if |items| == 1 {
      assert t == "\"" + (Escape(items[0]) + "\"" + "");
      ParseFirstItem(items[0], "");
      assert items == [items[0]];
    } else {
      var more := "," + QuoteAll(items[1..]);
      assert t == "\"" + (Escape(items[0]) + "\"" + more);
      ParseFirstItem(items[0], more);
      assert more[1..] == QuoteAll(items[1..]);
      ParseQuoteAll(items[1..]);
      assert [items[0]] + items[1..] == items;
    }
  }

}
