/** formatDuration, defined identically in the services step, the review
    step and the admin table: minutes shown as "Xh Ym", "Xh" or "Ym". */
module Durations {
  import opened Text
  import opened Options

  /** Whole hours and the remaining minutes, each printed in decimal. */
  function FormatDuration(minutes: nat): (r: string)
    ensures |r| >= 2
    ensures 'h' in r <==> minutes >= 60
    ensures r[|r| - 1] == 'h' <==> minutes >= 60 && minutes % 60 == 0
  {
    var hours := minutes / 60;
    var mins := minutes % 60;
    if hours > 0 then
      if mins > 0 then Decimal(hours) + "h " + Decimal(mins) + "m"
      else Decimal(hours) + "h"
    else Decimal(mins) + "m"
  }

  /** Position of the first occurrence of `c` in `s`. */
  function IndexOf(s: string, c: char): (r: Option<nat>)
    ensures r.None? ==> c !in s
    ensures r.Some? ==> r.value < |s| && s[r.value] == c && c !in s[..r.value]
  {
    if s == [] then None
    else if s[0] == c then Some(0)
    else match IndexOf(s[1..], c)
      case None => None
      case Some(i) => Some(i + 1)
  }

  /** Number of minutes denoted by a non-empty digit string. */
  function Numeral(s: string): Option<nat> {
    if s != [] && AllDigits(s) then Some(DecimalValue(s)) else None
  }

  /** Reads a displayed duration back: "Xh Ym", "Xh" and "Ym". This is the
      reference against which FormatDuration is proved unambiguous. */
  function ParseDuration(s: string): Option<nat> {
    if s == [] then None
    else if s[|s| - 1] == 'h' then
      match Numeral(s[..|s| - 1])
      case None => None
      case Some(h) => Some(60 * h)
    else if s[|s| - 1] == 'm' then ParseMinutesPart(s[..|s| - 1])
    else None
  }

  /** What precedes the final 'm': "Y" or "Xh Y". */
  function ParseMinutesPart(body: string): Option<nat> {
    match IndexOf(body, 'h')
    case None => Numeral(body)
    case Some(i) =>
      if i + 1 < |body| && body[i + 1] == ' ' then
        match (Numeral(body[..i]), Numeral(body[i + 2..]))
        case (Some(h), Some(m)) => Some(60 * h + m)
        case _ => None
      else None
  }

  lemma NumeralOfDecimal(n: nat)
    ensures Numeral(Decimal(n)) == Some(n)
    ensures 'h' !in Decimal(n)
  {
    DecimalRoundTrip(n);
  }

  /** IndexOf finds the first occurrence. */
  lemma IndexOfFirst(s: string, c: char, i: nat)
    requires i < |s| && s[i] == c && c !in s[..i]
    ensures IndexOf(s, c) == Some(i)
  {
  }

  lemma ParseMinutesPartAt(body: string, i: nat, hours: nat, mins: nat)
    requires IndexOf(body, 'h') == Some(i) && i + 1 < |body| && body[i + 1] == ' '
    requires Numeral(body[..i]) == Some(hours) && Numeral(body[i + 2..]) == Some(mins)
    ensures ParseMinutesPart(body) == Some(60 * hours + mins)
  {
    var parts := (Numeral(body[..i]), Numeral(body[i + 2..]));
    assert parts == (Some(hours), Some(mins));
    assert ParseMinutesPart(body) ==
      match parts
      case (Some(h), Some(m)) => Some(60 * h + m)
      case _ => None;
  }

  /** "Xh Ym" reads back as X hours and Y minutes. */
  lemma ParseHoursAndMinutes(hours: nat, mins: nat)
    ensures ParseDuration(Decimal(hours) + "h " + Decimal(mins) + "m") == Some(60 * hours + mins)
  {
    NumeralOfDecimal(hours);
    NumeralOfDecimal(mins);
    var body := Decimal(hours) + "h " + Decimal(mins);
    var s := body + "m";
    assert s[..|s| - 1] == body && s[|s| - 1] == 'm';
    var i := |Decimal(hours)|;
    assert body[i] == 'h' && body[i + 1] == ' ' && body[..i] == Decimal(hours);
    IndexOfFirst(body, 'h', i);
    assert body[i + 2..] == Decimal(mins);
    ParseMinutesPartAt(body, i, hours, mins);
  }

  /** "Xh" reads back as X whole hours. */
  lemma ParseWholeHours(hours: nat)
    ensures ParseDuration(Decimal(hours) + "h") == Some(60 * hours)
  {
    NumeralOfDecimal(hours);
    var s := Decimal(hours) + "h";
    assert s[..|s| - 1] == Decimal(hours);
  }

  /** "Ym" reads back as Y minutes. */
  lemma ParseMinutesOnly(mins: nat)
    ensures ParseDuration(Decimal(mins) + "m") == Some(mins)
  {
    NumeralOfDecimal(mins);
    var s := Decimal(mins) + "m";
    assert s[..|s| - 1] == Decimal(mins);
  }

  /** Every displayed duration reads back as the number of minutes it was
      made from. */
  lemma ParseFormatRoundTrip(minutes: nat)
    ensures ParseDuration(FormatDuration(minutes)) == Some(minutes)
  {
    var hours, mins := minutes / 60, minutes % 60;
    assert minutes == 60 * hours + mins;
    FormatDurationShapes(minutes);
    if minutes < 60 {
      assert mins == minutes;
      ParseMinutesOnly(mins);
    } else if mins == 0 {
      ParseWholeHours(hours);
    } else {
      ParseHoursAndMinutes(hours, mins);
    }
  }

  /** Two different durations never display the same text. */
  lemma FormatDurationInjective(a: nat, b: nat)
    ensures FormatDuration(a) == FormatDuration(b) ==> a == b
  {
    ParseFormatRoundTrip(a);
    ParseFormatRoundTrip(b);
  }

  /** The three display shapes: under an hour only minutes are shown (so
      zero shows as "0m"); whole hours drop the minutes. */
  lemma FormatDurationShapes(minutes: nat)
    ensures minutes < 60 ==> FormatDuration(minutes) == Decimal(minutes) + "m"
    ensures minutes >= 60 && minutes % 60 == 0 ==>
      FormatDuration(minutes) == Decimal(minutes / 60) + "h"
    ensures minutes >= 60 && minutes % 60 > 0 ==>
      FormatDuration(minutes) == Decimal(minutes / 60) + "h " + Decimal(minutes % 60) + "m"
  {
  }

  lemma FormatDurationExamples()
    ensures FormatDuration(0) == "0m"
    ensures FormatDuration(45) == "45m"
    ensures FormatDuration(75) == "1h 15m"
    ensures FormatDuration(120) == "2h"
  {
  }
}
