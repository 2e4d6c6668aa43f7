/**
 * The date-and-time line (assets/components/TimeDisplay.tsx):
 * `Y-MM-DD HH:MM:SS`, every field after the year zero-padded to two digits.
 * The fields of the current date are parameters.
 */
module Timestamp {
  import opened Wrappers
  import opened Text
  import Calendar

  /**
   * The formatted line: the year, the month and the day joined by '-' (which
   * is the calendar's key for that day), a space, and the hours, minutes and
   * seconds joined by ':'; `month` counts from 0 as `getMonth()` does and is
   * shown from 1.
   */
  function Stamp(year: int, month: int, day: nat, hours: nat, minutes: nat, seconds: nat): (r: string)
    requires 0 <= month <= 11
    ensures StartsWith(r, Calendar.DateKey(year, month, day) + " ")
    ensures year >= 0 ==> Calendar.ParseDateParts(r[..|Calendar.DateKey(year, month, day)|]) == (Some(year), Some(month), Some(day))
    ensures hours < 100 && minutes < 100 && seconds < 100 ==> |r| == |Calendar.DateKey(year, month, day)| + 9
  {
    var key := Calendar.DateKey(year, month, day);
    var time := Pad2(hours) + ":" + Pad2(minutes) + ":" + Pad2(seconds);
    var r := key + " " + time;
    assert r[..|key|] == key;
    assert r[..|key| + 1] == key + " ";
    r
  }

  /** With a four-digit year and fields below 100 the line is 19 characters, with its separators in fixed places. */
  lemma StampLayout(year: nat, month: int, day: nat, hours: nat, minutes: nat, seconds: nat)
    requires 1000 <= year <= 9999 && 0 <= month <= 11 && day < 100 && hours < 100 && minutes < 100 && seconds < 100
    ensures var r := Stamp(year, month, day, hours, minutes, seconds);
      && |r| == 19
      && r[4] == '-' && r[7] == '-' && r[10] == ' ' && r[13] == ':' && r[16] == ':'
      && r[5..7] == Pad2(month + 1) && r[8..10] == Pad2(day)
      && r[11..13] == Pad2(hours) && r[14..16] == Pad2(minutes) && r[17..19] == Pad2(seconds)
  {
    FourDigitYear(year);
    FieldLayout(IntToString(year), Pad2(month + 1), Pad2(day), Pad2(hours), Pad2(minutes), Pad2(seconds));
  }

  /** A four-character year and five two-character fields put the separators at fixed places. */
  lemma FieldLayout(y: string, mo: string, d: string, h: string, mi: string, s: string)
    requires |y| == 4 && |mo| == 2 && |d| == 2 && |h| == 2 && |mi| == 2 && |s| == 2
    ensures var r := y + "-" + mo + "-" + d + " " + h + ":" + mi + ":" + s;
      && |r| == 19
      && r[4] == '-' && r[7] == '-' && r[10] == ' ' && r[13] == ':' && r[16] == ':'
      && r[5..7] == mo && r[8..10] == d && r[11..13] == h && r[14..16] == mi && r[17..19] == s
  {
    var r := y + "-" + mo + "-" + d + " " + h + ":" + mi + ":" + s;
    assert r[5] == mo[0] && r[6] == mo[1] && r[8] == d[0] && r[9] == d[1];
    assert r[11] == h[0] && r[12] == h[1] && r[14] == mi[0] && r[15] == mi[1] && r[17] == s[0] && r[18] == s[1];
    assert r[5..7] == mo && r[8..10] == d && r[11..13] == h && r[14..16] == mi && r[17..19] == s;
  }

  /** A year from 1000 to 9999 is written with four digits. */
  lemma {:induction false} FourDigitYear(year: nat)
    requires 1000 <= year <= 9999
    ensures |IntToString(year)| == 4
  {
    assert NatToString(year) == NatToString(year / 10) + [DigitChar(year % 10)];
    assert NatToString(year / 10) == NatToString(year / 100) + [DigitChar((year / 10) % 10)];
    assert NatToString(year / 100) == NatToString(year / 1000) + [DigitChar((year / 100) % 10)];
    assert |NatToString(year / 1000)| == 1;
  }
}
