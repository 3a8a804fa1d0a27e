/**
 * The JavaScript string built-ins the dashboard relies on:
 * `trim`, `toLowerCase`, `includes`, `split` on one character, `padStart`,
 * integer `toString` and `parseInt(s, 10)`.
 */
module Text {
  import opened Base

  /** The characters that `String.prototype.trim` and `parseInt` skip: the
      ECMAScript WhiteSpace and LineTerminator characters. */
  predicate IsSpace(c: char) {
    || c == ' ' || c == '\t' || c == '\n' || c == '\r' || c == '\U{000B}' || c == '\U{000C}'
    || c == '\U{00A0}' || c == '\U{1680}' || '\U{2000}' <= c <= '\U{200A}'
    || c == '\U{2028}' || c == '\U{2029}' || c == '\U{202F}' || c == '\U{205F}'
    || c == '\U{3000}' || c == '\U{FEFF}'
  }

  predicate IsDigit(c: char) { '0' <= c <= '9' }

  predicate AllDigits(s: string) { forall i :: 0 <= i < |s| ==> IsDigit(s[i]) }

  predicate AllSpaces(s: string) { forall i :: 0 <= i < |s| ==> IsSpace(s[i]) }

  /** `s.trimStart()`: drops the leading white space. */
  function TrimStart(s: string): (r: string)
    ensures |r| <= |s| && r == s[|s| - |r|..]
    ensures forall i :: 0 <= i < |s| - |r| ==> IsSpace(s[i])
    ensures r == [] || !IsSpace(r[0])
  {
    if |s| > 0 && IsSpace(s[0]) then TrimStart(s[1..]) else s
  }

  /** `s.trimEnd()`: drops the trailing white space. */
  function TrimEnd(s: string): (r: string)
    ensures |r| <= |s| && r == s[..|r|]
    ensures forall i :: |r| <= i < |s| ==> IsSpace(s[i])
    ensures r == [] || !IsSpace(r[|r| - 1])
  {
    if |s| > 0 && IsSpace(s[|s| - 1]) then TrimEnd(s[..|s| - 1]) else s
  }

  /** `s.trim()`: the run of `s` that follows its leading white space, with
      only white space after it; it neither starts nor ends with white space. */
  function Trim(s: string): (r: string)
    ensures TrimmedAt(s, |s| - |TrimStart(s)|, r)
    ensures r == [] || (!IsSpace(r[0]) && !IsSpace(r[|r| - 1]))
  {
    TrimSlice(s);
    TrimKeepsEnds(s);
    TrimEnd(TrimStart(s))
  }

  /** `r` is the run of `s` starting at `a`, with only white space around it. */
  predicate TrimmedAt(s: string, a: int, r: string) {
    0 <= a && a + |r| <= |s| &&
    (forall i :: 0 <= i < |r| ==> r[i] == s[a + i]) &&
    (forall i :: 0 <= i < a ==> IsSpace(s[i])) &&
    (forall i :: a + |r| <= i < |s| ==> IsSpace(s[i]))
  }

  /** Trimming keeps the run of `s` after the white space `trimStart` drops. */
  lemma TrimSlice(s: string)
    ensures TrimmedAt(s, |s| - |TrimStart(s)|, TrimEnd(TrimStart(s)))
  {
    TrimKeepsRun(s);
    TrimDropsTail(s);
  }

  /** Neither end of the trimmed text is white space. */
  lemma TrimKeepsEnds(s: string)
    ensures var r := TrimEnd(TrimStart(s));
            r == [] || (!IsSpace(r[0]) && !IsSpace(r[|r| - 1]))
  {
    var t := TrimStart(s);
    var r := TrimEnd(t);
    if r != [] {
      assert r[0] == t[0];
    }
  }

  lemma TrimKeepsRun(s: string)
    ensures var t := TrimStart(s); var r := TrimEnd(t);
            forall i :: 0 <= i < |r| ==> r[i] == s[|s| - |t| + i]
  {
    var t := TrimStart(s);
    var r := TrimEnd(t);
    forall i | 0 <= i < |r| ensures r[i] == s[|s| - |t| + i] {
      assert r[i] == t[i];
      assert t[i] == s[|s| - |t|..][i];
    }
  }

  lemma TrimDropsTail(s: string)
    ensures var t := TrimStart(s); var r := TrimEnd(t);
            forall i :: |s| - |t| + |r| <= i < |s| ==> IsSpace(s[i])
  {
    var t := TrimStart(s);
    var r := TrimEnd(t);
    var a := |s| - |t|;
    forall i | a + |r| <= i < |s| ensures IsSpace(s[i]) {
      assert s[i] == t[i - a];
    }
  }

  /** `s.trim() !== ''`. */
  predicate NonBlank(s: string) { Trim(s) != "" }

  /** A string trims to nothing exactly when it is all white space. */
  lemma TrimEmptyIffSpaces(s: string)
    ensures Trim(s) == "" <==> AllSpaces(s)
  {
    var t := TrimStart(s);
    if !AllSpaces(s) {
      var i :| 0 <= i < |s| && !IsSpace(s[i]);
      assert t[i - (|s| - |t|)] == s[i];
    }
  }

  function LowerChar(c: char): (d: char)
    ensures 'A' <= c <= 'Z' ==> d as int == c as int + 32
    ensures !('A' <= c <= 'Z') ==> d == c
  {
    if 'A' <= c <= 'Z' then (c as int + 32) as char else c
  }

  /** `s.toLowerCase()`, on the ASCII letters only. */
  function Lower(s: string): (r: string)
    ensures |r| == |s|
    ensures forall i :: 0 <= i < |s| ==> r[i] == LowerChar(s[i])
  {
    seq(|s|, i requires 0 <= i < |s| => LowerChar(s[i]))
  }

  /** Lower-casing twice is lower-casing once. */
  lemma LowerIdempotent(s: string)
    ensures Lower(Lower(s)) == Lower(s)
  {
  }

  predicate IsPrefix(p: string, s: string) { |p| <= |s| && s[..|p|] == p }

  /** `hay.includes(needle)`. */
  predicate Contains(hay: string, needle: string)
    decreases |hay|
  {
    IsPrefix(needle, hay) || (|hay| > 0 && Contains(hay[1..], needle))
  }

  /** `needle` occurs in `hay` at position `i`. */
  predicate OccursAt(hay: string, needle: string, i: int) {
    0 <= i <= |hay| - |needle| && hay[i..i + |needle|] == needle
  }

  /** `Contains` is the search for a position where `needle` occurs. */
  lemma {:induction false} ContainsIffOccurs(hay: string, needle: string)
    ensures Contains(hay, needle) <==> exists i :: OccursAt(hay, needle, i)
    decreases |hay|
  {
    if IsPrefix(needle, hay) {
      assert OccursAt(hay, needle, 0);
    } else if |hay| == 0 {
    } else {
      ContainsIffOccurs(hay[1..], needle);
      if exists i :: OccursAt(hay, needle, i) {
        var i :| OccursAt(hay, needle, i);
        assert i != 0;
        assert OccursAt(hay[1..], needle, i - 1);
      }
      if Contains(hay[1..], needle) {
        var j :| OccursAt(hay[1..], needle, j);
        assert OccursAt(hay, needle, j + 1);
      }
    }
  }

  /** Every string includes the empty string. */
  lemma ContainsEmpty(hay: string)
    ensures Contains(hay, "")
  {
  }

  /** An included non-empty string starts with a character of `hay`. */
  lemma {:induction false} ContainsFirstChar(hay: string, needle: string)
    requires |needle| > 0 && Contains(hay, needle)
    ensures needle[0] in hay
    decreases |hay|
  {
    if IsPrefix(needle, hay) {
      assert hay[0] == needle[0];
    } else {
      ContainsFirstChar(hay[1..], needle);
    }
  }

  /** `needle` is included in any text it stands in the middle of. */
  lemma ContainsMiddle(a: string, needle: string, b: string)
    ensures Contains(a + needle + b, needle)
  {
    var hay := a + needle + b;
    assert hay[|a|..|a| + |needle|] == needle;
    assert OccursAt(hay, needle, |a|);
    ContainsIffOccurs(hay, needle);
  }

  /** A run of digits holds no other character. */
  lemma DigitsExclude(d: string, c: char)
    requires AllDigits(d) && !IsDigit(c)
    ensures c !in d
  {
  }

  /** The digits of a number below 100 take at most two characters. */
  lemma NatToStringShort(n: nat)
    requires n < 100
    ensures |NatToString(n)| <= 2
  {
  }

  /** A leading zero does not change the value of a run of digits. */
  lemma {:induction false} ParseDigitsLeadingZero(d: string)
    requires AllDigits(d)
    ensures ParseDigits("0" + d) == ParseDigits(d)
    decreases |d|
  {
    var z := "0" + d;
    if |d| > 0 {
      assert z[..|z| - 1] == "0" + d[..|d| - 1];
      assert z[|z| - 1] == d[|d| - 1];
      ParseDigitsLeadingZero(d[..|d| - 1]);
    }
  }

  /** `s.split(sep)` for a one-character separator: the pieces between separators,
      always at least one. */
  function Split(s: string, sep: char): (r: seq<string>)
    ensures |r| >= 1
    ensures forall k :: 0 <= k < |r| ==> sep !in r[k]
    decreases |s|
  {
    if |s| == 0 then [""]
    else if s[0] == sep then [""] + Split(s[1..], sep)
    else
      var rest := Split(s[1..], sep);
      [[s[0]] + rest[0]] + rest[1..]
  }

  /** `parts.join(sep)` for a one-character separator. */
  function Join(parts: seq<string>, sep: char): string
  {
    if |parts| == 0 then ""
    else if |parts| == 1 then parts[0]
    else parts[0] + [sep] + Join(parts[1..], sep)
  }

  /** Splitting and joining back on the same separator gives the original text. */
  lemma {:induction false} JoinSplit(s: string, sep: char)
    ensures Join(Split(s, sep), sep) == s
    decreases |s|
  {
    if |s| == 0 {
    } else if s[0] == sep {
      JoinSplit(s[1..], sep);
      var rest := Split(s[1..], sep);
      assert Split(s, sep) == [""] + rest;
      assert Join([""] + rest, sep) == "" + [sep] + Join(rest, sep);
    } else {
      JoinSplit(s[1..], sep);
      var rest := Split(s[1..], sep);
      var parts := [[s[0]] + rest[0]] + rest[1..];
      assert Split(s, sep) == parts;
      if |rest| == 1 {
        assert Join(parts, sep) == [s[0]] + rest[0];
      } else {
        assert parts[1..] == rest[1..];
        assert Join(parts, sep) == [s[0]] + rest[0] + [sep] + Join(rest[1..], sep);
        assert Join(rest, sep) == rest[0] + [sep] + Join(rest[1..], sep);
      }
    }
  }

  /** The pieces of white space are white space. */
  lemma {:induction false} SplitOfSpaces(s: string, sep: char)
    requires AllSpaces(s)
    ensures forall k :: 0 <= k < |Split(s, sep)| ==> AllSpaces(Split(s, sep)[k])
    decreases |s|
  {
    if |s| > 0 {
      SplitOfSpaces(s[1..], sep);
      if s[0] != sep {
        var rest := Split(s[1..], sep);
        assert AllSpaces([s[0]] + rest[0]);
      }
    }
  }

  /** White-space pieces joined by a white-space separator are white space. */
  lemma {:induction false} JoinOfSpaces(parts: seq<string>, sep: char)
    requires IsSpace(sep)
    requires forall k :: 0 <= k < |parts| ==> AllSpaces(parts[k])
    ensures AllSpaces(Join(parts, sep))
    decreases |parts|
  {
    if |parts| > 1 {
      JoinOfSpaces(parts[1..], sep);
      assert AllSpaces(parts[0] + [sep]);
    }
  }

  /** Text without the separator splits into one piece, itself. */
  lemma {:induction false} SplitWithoutSeparator(s: string, sep: char)
    requires sep !in s
    ensures Split(s, sep) == [s]
    decreases |s|
  {
    if |s| > 0 {
      assert s[0] != sep;
      SplitWithoutSeparator(s[1..], sep);
      assert [s[0]] + s[1..] == s;
    }
  }

  /** A separator between two texts separates their pieces. */
  lemma {:induction false} SplitConcat(a: string, sep: char, b: string)
    ensures Split(a + [sep] + b, sep) == Split(a, sep) + Split(b, sep)
    decreases |a|
  {
    var s := a + [sep] + b;
    if |a| == 0 {
      assert s == [sep] + b;
      assert s[1..] == b;
    } else {
      assert s[0] == a[0];
      assert s[1..] == a[1..] + [sep] + b;
      SplitConcat(a[1..], sep, b);
    }
  }

  /** Splitting `a + [sep] + b`, where `a` holds no separator, gives `a` then the pieces of `b`. */
  lemma {:induction false} SplitAtSeparator(a: string, sep: char, b: string)
    requires sep !in a
    ensures Split(a + [sep] + b, sep) == [a] + Split(b, sep)
    decreases |a|
  {
    if |a| == 0 {
      assert a + [sep] + b == [sep] + b;
      assert ([sep] + b)[1..] == b;
    } else {
      var s := a + [sep] + b;
      assert s[0] == a[0] && s[0] != sep;
      assert s[1..] == a[1..] + [sep] + b;
      SplitAtSeparator(a[1..], sep, b);
      assert [a[0]] + a[1..] == a;
    }
  }

  function DigitChar(d: int): (c: char)
    requires 0 <= d < 10
    ensures IsDigit(c)
  {
    ('0' as int + d) as char
  }

  function DigitValue(c: char): (d: nat)
    requires IsDigit(c)
    ensures d < 10
  {
    c as int - '0' as int
  }

  /** The canonical decimal text of a natural number (`n.toString()`). */
  function NatToString(n: nat): (r: string)
    ensures |r| >= 1 && AllDigits(r)
    ensures r[0] == '0' ==> n == 0
  {
    if n < 10 then [DigitChar(n)] else NatToString(n / 10) + [DigitChar(n % 10)]
  }

  /** `String(i)` for an integer. */
  function IntToString(i: int): string {
    if i < 0 then "-" + NatToString(-i) else NatToString(i)
  }

  /** The value of a run of decimal digits, most significant first. */
  function ParseDigits(s: string): nat
    requires AllDigits(s)
  {
    if |s| == 0 then 0 else ParseDigits(s[..|s| - 1]) * 10 + DigitValue(s[|s| - 1])
  }

  /** Reading back the decimal text of `n` gives `n`. */
  lemma {:induction false} ParseNatToString(n: nat)
    ensures ParseDigits(NatToString(n)) == n
  {
    var s := NatToString(n);
    if n < 10 {
    } else {
      ParseNatToString(n / 10);
      assert s[..|s| - 1] == NatToString(n / 10);
    }
  }

  /** The longest prefix of `s` made of decimal digits. */
  function LeadingDigits(s: string): (r: string)
    ensures AllDigits(r) && IsPrefix(r, s)
    ensures |r| < |s| ==> !IsDigit(s[|r|])
  {
    if |s| > 0 && IsDigit(s[0]) then [s[0]] + LeadingDigits(s[1..]) else ""
  }

  /** `u` read as its leading digits `d` and what follows them. */
  lemma LeadingDigitsSplit(u: string, d: string, rest: string)
    requires AllDigits(d) && (rest == [] || !IsDigit(rest[0])) && u == d + rest
    ensures LeadingDigits(u) == d && u[|d|..] == rest
  {
    LeadingDigitsOfDigitsThenOther(d, rest);
  }

  lemma {:induction false} LeadingDigitsOfDigitsThenOther(d: string, rest: string)
    requires AllDigits(d)
    requires rest == [] || !IsDigit(rest[0])
    ensures LeadingDigits(d + rest) == d
    decreases |d|
  {
    if |d| == 0 {
      assert d + rest == rest;
    } else {
      assert (d + rest)[1..] == d[1..] + rest;
      LeadingDigitsOfDigitsThenOther(d[1..], rest);
      assert [d[0]] + d[1..] == d;
    }
  }

  /**
   * `parseInt(s, 10)`: skips leading white space, then reads an optional sign and
   * the longest run of digits after it; `None` stands for `NaN` (no digit there).
   */
  function ParseInt(s: string): (r: Option<int>)
  {
    ParseSigned(TrimStart(s))
  }

  /** `parseInt` after the leading white space: an optional sign, then digits. */
  function ParseSigned(t: string): (r: Option<int>)
  {
    if |t| > 0 && t[0] == '-' then
      match ParseUnsigned(t[1..])
      case None => None
      case Some(v) => Some(-v)
    else if |t| > 0 && t[0] == '+' then ParseUnsigned(t[1..])
    else ParseUnsigned(t)
  }

  /** The value of the leading digits of `b`, `None` when there are none. */
  function ParseUnsigned(b: string): (r: Option<int>)
  {
    var digits := LeadingDigits(b);
    if digits == "" then None else Some(ParseDigits(digits))
  }

  lemma TrimStartKeeps(s: string)
    requires |s| > 0 && !IsSpace(s[0])
    ensures TrimStart(s) == s
  {
  }

  lemma ParseSignedUnsigned(d: string, rest: string)
    requires |d| > 0 && AllDigits(d)
    requires rest == [] || !IsDigit(rest[0])
    ensures ParseSigned(d + rest) == Some(ParseDigits(d))
  {
    var t := d + rest;
    assert t[0] == d[0];
    LeadingDigitsOfDigitsThenOther(d, rest);
  }

  lemma ParseSignedNegative(d: string)
    requires |d| > 0 && AllDigits(d)
    ensures ParseSigned("-" + d) == Some(-(ParseDigits(d) as int))
  {
    var t := "-" + d;
    assert t[0] == '-' && t[1..] == d + "";
    LeadingDigitsOfDigitsThenOther(d, "");
  }

  /** `parseInt` reads the decimal text of `n` back as `n`, whatever non-digit
      text follows it. */
  lemma ParseIntOfNatPrefix(n: nat, rest: string)
    requires rest == [] || !IsDigit(rest[0])
    ensures ParseInt(NatToString(n) + rest) == Some(n)
  {
    var d := NatToString(n);
    assert (d + rest)[0] == d[0];
    TrimStartKeeps(d + rest);
    ParseSignedUnsigned(d, rest);
    ParseNatToString(n);
  }

  /** `parseInt(String(i), 10) === i` for every integer `i`. */
  lemma ParseIntOfIntToString(i: int)
    ensures ParseInt(IntToString(i)) == Some(i)
  {
    if i < 0 {
      var n: nat := -i;
      var d := NatToString(n);
      assert IntToString(i) == "-" + d;
      TrimStartKeeps("-" + d);
      assert ParseInt("-" + d) == ParseSigned("-" + d);
      ParseSignedNegative(d);
      ParseNatToString(n);
    } else {
      ParseIntOfNatPrefix(i, "");
      assert NatToString(i) + "" == NatToString(i);
    }
  }

  /** `s.padStart(2, '0')`. */
  function PadStart2(s: string): (r: string)
    ensures |s| >= 2 ==> r == s
    ensures |s| < 2 ==> |r| == 2 && r[2 - |s|..] == s && AllZeros(r[..2 - |s|])
  {
    if |s| >= 2 then s else if |s| == 1 then "0" + s else "00"
  }

  predicate AllZeros(s: string) { forall i :: 0 <= i < |s| ==> s[i] == '0' }
}
