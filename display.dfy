/** The session countdown in the navigation bar: `formatTime`. */
module Navbar {
  import opened Base
  import opened Text

  /** `formatTime(seconds)`: whole minutes, a colon, then the remaining seconds
      padded to two digits. Read back as `m * 60 + ss`, the text gives the
      number of seconds it was made from. */
  function FormatTime(seconds: nat): (t: string)
    ensures ReadClock(t) == Some(seconds)
  {
    var m := NatToString(seconds / 60);
    var p := PadStart2(NatToString(seconds % 60));
    SecondsField(seconds);
    DigitsExclude(m, ':');
    DigitsExclude(p, ':');
    SplitAtSeparator(m, ':', p);
    SplitWithoutSeparator(p, ':');
    ParseNatToString(seconds / 60);
    assert m + ":" + p == m + [':'] + p;
    m + ":" + p
  }

  /** Reads an `m:ss` clock back as a number of seconds; `None` for any text that
      is not of that form. */
  function ReadClock(t: string): Option<nat> {
    var parts := Split(t, ':');
    if |parts| != 2 then None
    else
      var m, ss := parts[0], parts[1];
      if |m| == 0 || !AllDigits(m) || |ss| != 2 || !AllDigits(ss) || ParseDigits(ss) >= 60 then None
      else Some(ParseDigits(m) * 60 + ParseDigits(ss))
  }

  /** The seconds field of the countdown is the remainder modulo 60, always two
      digits, zero-padded. */
  lemma SecondsField(seconds: nat)
    ensures var p := PadStart2(NatToString(seconds % 60));
            |p| == 2 && AllDigits(p) && ParseDigits(p) == seconds % 60
  {
    var d := NatToString(seconds % 60);
    NatToStringShort(seconds % 60);
    ParseNatToString(seconds % 60);
    if |d| == 1 {
      ParseDigitsLeadingZero(d);
    }
  }

  /** The full window and the empty one. */
  lemma FormatTimeExamples()
    ensures FormatTime(600) == "10:00"
    ensures FormatTime(0) == "0:00"
  {
    assert NatToString(10) == "10";
  }
}

/** The service card: `formatDuration` and the three-entry category map. */
module ServiceCard {
  import opened Base
  import opened Text
  import opened Records

  /** JavaScript's `a % b` for a positive divisor: the remainder takes the sign
      of the dividend. */
  function JsRem(a: int, b: int): (r: int)
    requires b > 0
    ensures a >= 0 ==> r == a % b
    ensures a < 0 ==> -b < r <= 0
    ensures (a - r) % b == 0
  {
    if a >= 0 then
      MultipleMod(a / b, b);
      a % b
    else
      NegatedRemainder(a, b);
      -((-a) % b)
  }

  /** For a negative dividend, negating the remainder of `-a` leaves a
      multiple of `b` behind. */
  lemma NegatedRemainder(a: int, b: int)
    requires a < 0 && b > 0
    ensures (a - -((-a) % b)) % b == 0
  {
    var q := (-a) / b;
    assert -a == q * b + (-a) % b;
    assert (-q) * b == -(q * b);
    assert a - -((-a) % b) == (-q) * b;
    MultipleMod(-q, b);
  }

  /** A multiple of `b` leaves no remainder. */
  lemma MultipleMod(k: int, b: int)
    requires b > 0
    ensures (k * b) % b == 0
  {
    var x := k * b;
    var d := k - x / b;
    assert x % b == d * b;
    ProductBounds(d, b);
  }

  /** A non-zero multiple of `b` is at least `b` away from zero. */
  lemma ProductBounds(d: int, b: int)
    requires b > 0
    ensures d >= 1 ==> d * b >= b
    ensures d <= -1 ==> d * b <= -b
  {
    assert (d - 1) * b == d * b - b;
    assert (d + 1) * b == d * b + b;
  }

  /** `formatDuration(minutes)` for an integer number of minutes; a missing
      duration reads as falsy, like 0. `Math.floor(minutes / 60)` is Dafny's
      division, which floors for a positive divisor. */
  function FormatDuration(minutes: int): string {
    if minutes == 0 then "0 min"
    else
      var hours := minutes / 60;
      var remainingMinutes := JsRem(minutes, 60);
      if hours == 0 then IntToString(remainingMinutes) + " min"
      else if remainingMinutes == 0 then IntToString(hours) + " hr"
      else IntToString(hours) + " hr " + IntToString(remainingMinutes) + " min"
  }

  /** Reads `M min`, `H hr` or `H hr M min` back as a number of minutes. */
  function ReadDuration(t: string): Option<nat> {
    var d := LeadingDigits(t);
    if d == "" then None else ReadAfterNumber(ParseDigits(d), t[|d|..])
  }

  /** What follows the first number `n` of a label. */
  function ReadAfterNumber(n: nat, rest: string): Option<nat> {
    if rest == " min" then Some(n)
    else if rest == " hr" then Some(n * 60)
    else if |rest| >= 4 && rest[..4] == " hr " then ReadMinutesPart(n, rest[4..])
    else None
  }

  /** The `M min` part after `H hr `, whose minutes lie between 1 and 59. */
  function ReadMinutesPart(hours: nat, u: string): Option<nat> {
    var m := LeadingDigits(u);
    if m != "" && u[|m|..] == " min" && 0 < ParseDigits(m) < 60 then Some(hours * 60 + ParseDigits(m))
    else None
  }

  /** The label names hours exactly when the duration is an hour or more, and
      names minutes exactly when some are left over, so a whole number of hours
      has no trailing `0 min` and a duration under an hour has no hour part. */
  lemma DurationParts(minutes: nat)
    ensures Contains(FormatDuration(minutes), "hr") <==> minutes >= 60
    ensures Contains(FormatDuration(minutes), "min") <==> (minutes < 60 || minutes % 60 != 0)
  {
    var r := FormatDuration(minutes);
    var h, m := minutes / 60, minutes % 60;
    var hs, ms := NatToString(h), NatToString(m);
    DigitsExclude(hs, 'h');
    DigitsExclude(hs, 'm');
    DigitsExclude(ms, 'h');
    if minutes == 0 {
      assert r == "0 min";
      if Contains(r, "hr") { ContainsFirstChar(r, "hr"); }
      assert r == "0 " + "min" + "";
      ContainsMiddle("0 ", "min", "");
    } else if h == 0 {
      assert r == ms + " min";
      assert 'h' !in r;
      if Contains(r, "hr") { ContainsFirstChar(r, "hr"); }
      assert r == ms + " " + "min" + "";
      ContainsMiddle(ms + " ", "min", "");
    } else if m == 0 {
      assert r == hs + " " + "hr" + "";
      ContainsMiddle(hs + " ", "hr", "");
      assert 'm' !in r;
      if Contains(r, "min") { ContainsFirstChar(r, "min"); }
    } else {
      assert r == hs + " " + "hr" + (" " + ms + " min");
      ContainsMiddle(hs + " ", "hr", " " + ms + " min");
      assert r == hs + " hr " + ms + " " + "min" + "";
      ContainsMiddle(hs + " hr " + ms + " ", "min", "");
    }
  }

  const CardCategories: map<string, string> :=
    map["1" := "Domestic", "2" := "Commercial", "3" := "Corporate"]

  /** `categoryMap[service.category_id] || 'Unknown'`: the id is looked up by
      its text, as a JavaScript property key is. */
  function CategoryName(categoryId: Option<Value>): string {
    var key := ToText(categoryId);
    if key in CardCategories then CardCategories[key] else "Unknown"
  }

  /** The decimal text of an integer names only that integer. */
  lemma IntToStringInjective(a: int, b: int)
    requires IntToString(a) == IntToString(b)
    ensures a == b
  {
    ParseIntOfIntToString(a);
    ParseIntOfIntToString(b);
  }

  /** Ids 1, 2 and 3 name Domestic, Commercial and Corporate; every other
      integer id shows as Unknown. */
  lemma CategoryOfIntegerId(n: int)
    ensures CategoryName(Some(Int(n))) ==
      if n == 1 then "Domestic" else if n == 2 then "Commercial"
      else if n == 3 then "Corporate" else "Unknown"
  {
    var key := IntToString(n);
    assert IntToString(1) == "1" && IntToString(2) == "2" && IntToString(3) == "3";
    if key == "1" { IntToStringInjective(n, 1); }
    if key == "2" { IntToStringInjective(n, 2); }
    if key == "3" { IntToStringInjective(n, 3); }
  }
}

/** Reading a `formatDuration` label back gives the duration it was made from. */
module DurationRoundTrip {
  import opened Base
  import opened Text
  import opened ServiceCard

  /** Reading digits followed by a unit. */
  lemma {:induction false} ReadUnit(d: string, unit: string)
    requires |d| > 0 && AllDigits(d)
    requires unit == " min" || unit == " hr"
    ensures ReadDuration(d + unit) ==
              if unit == " min" then Some(ParseDigits(d)) else Some(ParseDigits(d) * 60)
  {
    LeadingDigitsSplit(d + unit, d, unit);
  }

  /** The separator ` hr ` in front of the minutes. */
  lemma {:induction false} HoursSeparator(ms: string, rest: string)
    requires rest == " hr " + ms + " min"
    ensures rest != " min" && rest != " hr" && |rest| >= 4 && rest[..4] == " hr "
    ensures rest[4..] == ms + " min"
  {
  }

  /** After the separator, the label is read as its minutes part. */
  lemma {:induction false} AfterSeparator(n: nat, rest: string)
    requires rest != " min" && rest != " hr" && |rest| >= 4 && rest[..4] == " hr "
    ensures ReadAfterNumber(n, rest) == ReadMinutesPart(n, rest[4..])
  {
  }

  /** The `M min` part is read as its number of minutes. */
  lemma {:induction false} ReadMinutes(hours: nat, ms: string)
    requires |ms| > 0 && AllDigits(ms) && 0 < ParseDigits(ms) < 60
    ensures ReadMinutesPart(hours, ms + " min") == Some(hours * 60 + ParseDigits(ms))
  {
    LeadingDigitsSplit(ms + " min", ms, " min");
  }

  /** After the hour digits, ` hr M min` is read through its minutes part. */
  lemma {:induction false} ReadHoursTail(hours: nat, ms: string)
    ensures ReadAfterNumber(hours, " hr " + ms + " min") == ReadMinutesPart(hours, ms + " min")
  {
    var rest := " hr " + ms + " min";
    HoursSeparator(ms, rest);
    AfterSeparator(hours, rest);
  }

  /** The tail ` hr M min` after the hour digits. */
  lemma {:induction false} HoursTail(hours: nat, ms: string)
    requires |ms| > 0 && AllDigits(ms) && 0 < ParseDigits(ms) < 60
    ensures ReadAfterNumber(hours, " hr " + ms + " min") == Some(hours * 60 + ParseDigits(ms))
  {
    ReadMinutes(hours, ms);
    ReadHoursTail(hours, ms);
  }

  /** A label is read as its first number and what follows it. */
  lemma {:induction false} ReadFirstNumber(t: string, d: string, rest: string)
    requires |d| > 0 && AllDigits(d) && (rest == [] || !IsDigit(rest[0])) && t == d + rest
    ensures ReadDuration(t) == ReadAfterNumber(ParseDigits(d), rest)
  {
    LeadingDigitsSplit(t, d, rest);
  }

  /** Concatenation regrouped around the hour digits. */
  lemma {:induction false} Regroup(hs: string, ms: string)
    ensures hs + " hr " + ms + " min" == hs + (" hr " + ms + " min")
  {
  }

  /** Reading hours and minutes. */
  lemma {:induction false} ReadHoursMinutes(hs: string, ms: string)
    requires |hs| > 0 && AllDigits(hs) && |ms| > 0 && AllDigits(ms) && 0 < ParseDigits(ms) < 60
    ensures ReadDuration(hs + " hr " + ms + " min") == Some(ParseDigits(hs) * 60 + ParseDigits(ms))
  {
    Regroup(hs, ms);
    ReadHoursThenTail(hs, ms, " hr " + ms + " min");
  }

  /** Reading hour digits followed by the tail ` hr M min`. */
  lemma {:induction false} ReadHoursThenTail(hs: string, ms: string, rest: string)
    requires |hs| > 0 && AllDigits(hs) && |ms| > 0 && AllDigits(ms) && 0 < ParseDigits(ms) < 60
    requires rest == " hr " + ms + " min"
    ensures ReadDuration(hs + rest) == Some(ParseDigits(hs) * 60 + ParseDigits(ms))
  {
    assert rest[0] == ' ';
    ReadFirstNumber(hs + rest, hs, rest);
    HoursTail(ParseDigits(hs), ms);
  }

  /** The label of a duration with both parts, in terms of its hours and minutes. */
  lemma {:induction false} HoursMinutesLabel(minutes: nat)
    requires minutes / 60 > 0 && minutes % 60 != 0
    ensures FormatDuration(minutes)
         == NatToString(minutes / 60) + " hr " + NatToString(minutes % 60) + " min"
  {
  }

  /** Round trip of a label with both an hour and a minute part. */
  lemma {:induction false} RoundTripHoursMinutes(minutes: nat)
    requires minutes / 60 > 0 && minutes % 60 != 0
    ensures ReadDuration(FormatDuration(minutes)) == Some(minutes)
  {
    var h, m := minutes / 60, minutes % 60;
    ParseNatToString(h);
    ParseNatToString(m);
    HoursMinutesLabel(minutes);
    ReadHoursMinutes(NatToString(h), NatToString(m));
  }

  /** Round trip of a label with only a minute part. */
  lemma {:induction false} RoundTripMinutes(minutes: nat)
    requires 0 < minutes < 60
    ensures ReadDuration(FormatDuration(minutes)) == Some(minutes)
  {
    var ms := NatToString(minutes);
    ParseNatToString(minutes);
    assert FormatDuration(minutes) == ms + " min";
    ReadUnit(ms, " min");
  }

  /** Round trip of a label with only an hour part. */
  lemma {:induction false} RoundTripHours(minutes: nat)
    requires minutes / 60 > 0 && minutes % 60 == 0
    ensures ReadDuration(FormatDuration(minutes)) == Some(minutes)
  {
    var hs := NatToString(minutes / 60);
    ParseNatToString(minutes / 60);
    assert FormatDuration(minutes) == hs + " hr";
    ReadUnit(hs, " hr");
  }

  /** Round trip: the label's hours times 60 plus its minutes is the duration. */
  lemma {:induction false} FormatDurationRoundTrip(minutes: nat)
    ensures ReadDuration(FormatDuration(minutes)) == Some(minutes)
  {
    if minutes == 0 {
      ReadUnit("0", " min");
    } else if minutes < 60 {
      RoundTripMinutes(minutes);
    } else if minutes % 60 == 0 {
      RoundTripHours(minutes);
    } else {
      RoundTripHoursMinutes(minutes);
    }
  }
}

/** The service details modal: its `formatDuration` is the card's, character
    for character; its category map has two more entries. */
module ServiceDetailsModal {
  import opened Base
  import opened Text
  import opened Records
  import ServiceCard

  const DetailsCategories: map<string, string> :=
    map["1" := "Domestic", "2" := "Commercial", "3" := "Corporate", "4" := "Extended", "5" := "Quick"]

  /** `categoryMap[service.category_id] || 'Unknown'` with the five-entry map. */
  function CategoryName(categoryId: Option<Value>): string {
    var key := ToText(categoryId);
    if key in DetailsCategories then DetailsCategories[key] else "Unknown"
  }

  /** Ids 1 to 5 name Domestic, Commercial, Corporate, Extended and Quick; every
      other integer id shows as Unknown. */
  lemma CategoryOfIntegerId(n: int)
    ensures CategoryName(Some(Int(n))) ==
      if n == 1 then "Domestic" else if n == 2 then "Commercial"
      else if n == 3 then "Corporate" else if n == 4 then "Extended"
      else if n == 5 then "Quick" else "Unknown"
  {
    var key := IntToString(n);
    assert IntToString(1) == "1" && IntToString(2) == "2" && IntToString(3) == "3";
    assert IntToString(4) == "4" && IntToString(5) == "5";
    if key == "1" { ServiceCard.IntToStringInjective(n, 1); }
    if key == "2" { ServiceCard.IntToStringInjective(n, 2); }
    if key == "3" { ServiceCard.IntToStringInjective(n, 3); }
    if key == "4" { ServiceCard.IntToStringInjective(n, 4); }
    if key == "5" { ServiceCard.IntToStringInjective(n, 5); }
  }

  /** The modal agrees with the card wherever the card knows the category, and
      names ids 4 and 5, which the card shows as Unknown. */
  lemma ExtendsCardCategories(categoryId: Option<Value>)
    ensures ServiceCard.CategoryName(categoryId) != "Unknown" ==>
              CategoryName(categoryId) == ServiceCard.CategoryName(categoryId)
    ensures ServiceCard.CategoryName(Some(Int(4))) == "Unknown" && CategoryName(Some(Int(4))) == "Extended"
    ensures ServiceCard.CategoryName(Some(Int(5))) == "Unknown" && CategoryName(Some(Int(5))) == "Quick"
  {
    ServiceCard.CategoryOfIntegerId(4);
    ServiceCard.CategoryOfIntegerId(5);
    CategoryOfIntegerId(4);
    CategoryOfIntegerId(5);
  }
}
