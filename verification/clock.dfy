/**
 * Clock and date texts. The 12-hour time `h:mm AM|PM` is built the same way
 * by the taskbar (assets/components/Taskbar.tsx) and the login screen
 * (assets/components/LoginScreen.tsx) and is defined once here; the taskbar
 * writes the date with three-letter names, the login screen with full ones.
 *
 * The fields of the current date (hours, minutes, weekday, month, day of
 * the month) come from the `Date` library and are parameters.
 */
module Clock {
  import opened Wrappers
  import opened Text

  /** The hour on a 12-hour dial: `hours % 12 || 12`. */
  function DialHour(hours: int): (h: int)
    requires 0 <= hours <= 23
    ensures 1 <= h <= 12
    ensures h % 12 == hours % 12
  {
    if hours % 12 == 0 then 12 else hours % 12
  }

  /** "PM" from noon on, "AM" before. */
  function Meridiem(hours: int): (r: string)
    ensures r == "PM" <==> hours >= 12
    ensures r == "AM" <==> hours < 12
  {
    if hours >= 12 then "PM" else "AM"
  }

  /** `${formattedHours}:${minutes.toString().padStart(2, '0')} ${ampm}`. */
  function TimeText(hours: int, minutes: nat): (r: string)
    requires 0 <= hours <= 23
    ensures StartsWith(r, NatToString(DialHour(hours)) + ":")
    ensures EndsWith(r, " " + Meridiem(hours))
  {
    var head, mid, tail := NatToString(DialHour(hours)) + ":", PadStart(NatToString(minutes), 2, '0'), " " + Meridiem(hours);
    ConcatEnds(head, mid, tail);
    head + mid + tail
  }

  /** The dial hour and the meridiem together give back the hour of the day. */
  lemma DialHourAndMeridiem(h1: int, h2: int)
    requires 0 <= h1 <= 23 && 0 <= h2 <= 23
    requires DialHour(h1) == DialHour(h2) && Meridiem(h1) == Meridiem(h2)
    ensures h1 == h2
  {
  }

  /** Three parts around a ':' and a ' ' split back apart when neither separator occurs in them. */
  lemma {:induction false} TimePartsSplit(h: string, m: string, suffix: string)
    requires ':' !in h && ':' !in m && ':' !in suffix && ' ' !in m && ' ' !in suffix
    ensures Split(h + ":" + m + " " + suffix, ':') == [h, m + " " + suffix]
    ensures Split(m + " " + suffix, ' ') == [m, suffix]
  {
    assert h + ":" + m + " " + suffix == h + [':'] + (m + " " + suffix);
    SplitAfter(h, ':', m + " " + suffix);
    assert ':' !in m + " " + suffix;
    SplitNoSeparator(m + " " + suffix, ':');
    assert m + " " + suffix == m + [' '] + suffix;
    SplitAfter(m, ' ', suffix);
    SplitNoSeparator(suffix, ' ');
  }

  /** Digits hold neither separator of the time text. */
  lemma {:induction false} DigitsHoldNoSeparator(s: string)
    requires AllDigits(s)
    ensures ':' !in s && ' ' !in s
  {
  }

  /** The time text splits at its ':' and its ' ' into the dial hour, the padded minutes and the meridiem. */
  lemma TimeTextSplits(hours: int, minutes: nat)
    requires 0 <= hours <= 23
    ensures var h, m, suffix := NatToString(DialHour(hours)), PadStart(NatToString(minutes), 2, '0'), Meridiem(hours);
      && Split(TimeText(hours, minutes), ':') == [h, m + " " + suffix]
      && Split(m + " " + suffix, ' ') == [m, suffix]
      && NumberOf(m) == Some(minutes)
  {
    var h, m, suffix := NatToString(DialHour(hours)), PadStart(NatToString(minutes), 2, '0'), Meridiem(hours);
    assert TimeText(hours, minutes) == (h + ":") + m + (" " + suffix);
    assert (h + ":") + m + (" " + suffix) == h + ":" + m + " " + suffix;
    PaddedNumberRoundTrip(minutes, 2);
    DigitsHoldNoSeparator(h);
    DigitsHoldNoSeparator(m);
    TimePartsSplit(h, m, suffix);
  }

  /** The time text determines the hour and the minute it was made from. */
  lemma TimeTextInjective(h1: int, m1: nat, h2: int, m2: nat)
    requires 0 <= h1 <= 23 && 0 <= h2 <= 23
    requires TimeText(h1, m1) == TimeText(h2, m2)
    ensures h1 == h2 && m1 == m2
  {
    TimeTextSplits(h1, m1);
    TimeTextSplits(h2, m2);
    var b1, b2 := PadStart(NatToString(m1), 2, '0'), PadStart(NatToString(m2), 2, '0');
    assert b1 + " " + Meridiem(h1) == b2 + " " + Meridiem(h2);
    assert b1 == b2 && Meridiem(h1) == Meridiem(h2);
    NatToStringInjective(DialHour(h1), DialHour(h2));
    DialHourAndMeridiem(h1, h2);
  }

  /** Different numbers are written differently. */
  lemma NatToStringInjective(a: nat, b: nat)
    requires NatToString(a) == NatToString(b)
    ensures a == b
  {
    DigitsValueOfNatToString(a);
    DigitsValueOfNatToString(b);
  }

  /** Midnight is 12 AM and noon is 12 PM. */
  lemma MidnightAndNoon()
    ensures TimeText(0, 5) == "12:05 AM"
    ensures TimeText(12, 30) == "12:30 PM"
  {
    assert NatToString(12) == "12" by {
      assert NatToString(1) == "1";
    }
    assert NatToString(5) == "5";
    assert NatToString(30) == "30" by {
      assert NatToString(3) == "3";
    }
  }

  // -------------------------------------------------------------------------
  // Dates

  const ShortDays := ["Sun", "Mon", "Tue", "Wed", "Thu", "Fri", "Sat"]
  const ShortMonths := ["Jan", "Feb", "Mar", "Apr", "May", "Jun", "Jul", "Aug", "Sep", "Oct", "Nov", "Dec"]
  const LongDays := ["Sunday", "Monday", "Tuesday", "Wednesday", "Thursday", "Friday", "Saturday"]
  const LongMonths := ["January", "February", "March", "April", "May", "June", "July", "August",
                       "September", "October", "November", "December"]

  /** The taskbar date, like "Tue May 21": weekday 0..6 from Sunday, month 0..11 from January. */
  function ShortDate(weekday: int, month: int, date: nat): (r: string)
    requires 0 <= weekday < 7 && 0 <= month < 12
    ensures StartsWith(r, ShortDays[weekday] + " " + ShortMonths[month] + " ")
    ensures EndsWith(r, NatToString(date))
  {
    var r := ShortDays[weekday] + " " + ShortMonths[month] + " " + NatToString(date);
    assert r[..|ShortDays[weekday] + " " + ShortMonths[month] + " "|] == ShortDays[weekday] + " " + ShortMonths[month] + " ";
    assert r[|r| - |NatToString(date)|..] == NatToString(date);
    r
  }

  /** The login-screen date, like "Tuesday, May 21". */
  function LongDate(weekday: int, month: int, date: nat): (r: string)
    requires 0 <= weekday < 7 && 0 <= month < 12
    ensures StartsWith(r, LongDays[weekday] + ", " + LongMonths[month] + " ")
    ensures EndsWith(r, NatToString(date))
  {
    var r := LongDays[weekday] + ", " + LongMonths[month] + " " + NatToString(date);
    assert r[..|LongDays[weekday] + ", " + LongMonths[month] + " "|] == LongDays[weekday] + ", " + LongMonths[month] + " ";
    assert r[|r| - |NatToString(date)|..] == NatToString(date);
    r
  }

  /** The three-letter names are the first three letters of the full ones, all different. */
  lemma ShortNamesAbbreviate()
    ensures forall i :: 0 <= i < 7 ==> |ShortDays[i]| == 3 && ShortDays[i] == LongDays[i][..3]
    ensures forall i :: 0 <= i < 12 ==> |ShortMonths[i]| == 3 && ShortMonths[i] == LongMonths[i][..3]
    ensures forall i, j :: 0 <= i < j < 7 ==> ShortDays[i] != ShortDays[j]
    ensures forall i, j :: 0 <= i < j < 12 ==> ShortMonths[i] != ShortMonths[j]
  {
  }

  /** The taskbar date is the login date with every name cut to three letters and no comma. */
  lemma ShortDateAbbreviatesLongDate(weekday: int, month: int, date: nat)
    requires 0 <= weekday < 7 && 0 <= month < 12
    ensures ShortDate(weekday, month, date) ==
      LongDays[weekday][..3] + " " + LongMonths[month][..3] + " " + NatToString(date)
  {
    ShortNamesAbbreviate();
  }
}
