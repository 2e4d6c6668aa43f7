/**
 * The calendar application (assets/components/apps/CalendarApp.tsx): a
 * month cursor, the month grid, "YYYY-MM-DD" date keys, and events stored
 * per date key.
 *
 * The day count of a month and the weekday of its first day come from the
 * `Date` library and are parameters here, as are the `Date.now()` id and
 * the keys of today and tomorrow used by the demo events.
 */
module Calendar {
  import opened Wrappers
  import opened Text
  import opened Seqs

  datatype Event = Event(id: string, title: string, date: string, time: string, description: string)

  /** What local storage holds under the events key. */
  datatype Stored = Missing | Corrupt | Saved(events: seq<Event>)

  const DemoTime1 := "10:00 AM"
  const DemoTime2 := "5:00 PM"

  // -------------------------------------------------------------------------
  // The month cursor

  /** One month on; December rolls over to January of the next year. */
  function MonthAfter(month: int, year: int): (r: (int, int))
    requires 0 <= month <= 11
    ensures 0 <= r.0 <= 11
    ensures 12 * r.1 + r.0 == 12 * year + month + 1
  {
    if month == 11 then (0, year + 1) else (month + 1, year)
  }

  /** One month back; January rolls back to December of the previous year. */
  function MonthBefore(month: int, year: int): (r: (int, int))
    requires 0 <= month <= 11
    ensures 0 <= r.0 <= 11
    ensures 12 * r.1 + r.0 == 12 * year + month - 1
  {
    if month == 0 then (11, year - 1) else (month - 1, year)
  }

  /** Forward then back returns to the same month, and back then forward too. */
  lemma {:induction false} MonthStepsInverse(month: int, year: int)
    requires 0 <= month <= 11
    ensures var n := MonthAfter(month, year); MonthBefore(n.0, n.1) == (month, year)
    ensures var p := MonthBefore(month, year); MonthAfter(p.0, p.1) == (month, year)
  {
    var n := MonthAfter(month, year);
    var p := MonthBefore(month, year);
    MonthFromIndex(MonthBefore(n.0, n.1), (month, year));
    MonthFromIndex(MonthAfter(p.0, p.1), (month, year));
  }

  /** A month is determined by its running index `12 * year + month`. */
  lemma MonthFromIndex(a: (int, int), b: (int, int))
    requires 0 <= a.0 <= 11 && 0 <= b.0 <= 11
    requires 12 * a.1 + a.0 == 12 * b.1 + b.0
    ensures a == b
  {
  }

  // -------------------------------------------------------------------------
  // Date keys

  /** The storage key of a day: the year, then the month number and the day, each zero-padded to two digits. */
  function DateKey(year: int, month: int, day: int): (key: string)
    requires 0 <= month <= 11 && day >= 0
    ensures year >= 0 ==> Split(key, '-') == [NatToString(year), Pad2(month + 1), Pad2(day)]
    ensures year >= 0 ==> ParseDateParts(key) == (Some(year), Some(month), Some(day))
  {
    var key := IntToString(year) + "-" + Pad2(month + 1) + "-" + Pad2(day);
    if year >= 0 then
      KeyPartsRoundTrip(year, month, day);
      key
    else key
  }

  /**
   * The unused `parseDate` helper: the three '-'-separated parts of a key read
   * as numbers, the month made 0-based; a missing or non-numeric part is `None`.
   * (The `Date` built from them is not modelled.)
   */
  function ParseDateParts(key: string): (r: (Option<int>, Option<int>, Option<int>))
    ensures var parts := Split(key, '-');
      && (r.0 == NumberOf(parts[0]))
      && (|parts| > 1 ==> r.1 == (if NumberOf(parts[1]).Some? then Some(NumberOf(parts[1]).value - 1) else None))
      && (|parts| <= 1 ==> r.1 == None)
      && (|parts| > 2 ==> r.2 == NumberOf(parts[2]))
      && (|parts| <= 2 ==> r.2 == None)
  {
    var parts := Split(key, '-');
    var year := NumberOf(parts[0]);
    var month := if |parts| > 1 then NumberOf(parts[1]) else None;
    var day := if |parts| > 2 then NumberOf(parts[2]) else None;
    (year, if month.Some? then Some(month.value - 1) else None, day)
  }

  lemma {:induction false} PadStartTooShort(s: string, c: char)
    ensures PadStart(s, 0, c) == s
  {
  }

  lemma {:induction false} DigitsHaveNoDash(s: string)
    requires AllDigits(s)
    ensures '-' !in s
  {
  }

  /** Three dash-free parts joined by dashes split back into those parts. */
  lemma {:induction false} ThreePartsSplit(y: string, m: string, d: string)
    requires '-' !in y && '-' !in m && '-' !in d
    ensures Split(y + "-" + m + "-" + d, '-') == [y, m, d]
  {
    assert y + "-" + m + "-" + d == y + ['-'] + (m + ['-'] + d);
    SplitAfter(y, '-', m + ['-'] + d);
    SplitAfter(m, '-', d);
    SplitNoSeparator(d, '-');
  }

  /** The rendered year, month and day joined by dashes split back into those parts. */
  lemma KeyPartsSplit(year: nat, month: int, day: nat)
    requires 0 <= month <= 11
    ensures Split(NatToString(year) + "-" + Pad2(month + 1) + "-" + Pad2(day), '-') == [NatToString(year), Pad2(month + 1), Pad2(day)]
  {
    DigitsHaveNoDash(NatToString(year));
    DigitsHaveNoDash(Pad2(month + 1));
    DigitsHaveNoDash(Pad2(day));
    ThreePartsSplit(NatToString(year), Pad2(month + 1), Pad2(day));
  }

  /** Reading the joined parts back gives the year, the 0-based month and the day. */
  lemma KeyPartsRoundTrip(year: nat, month: int, day: nat)
    requires 0 <= month <= 11
    ensures var key := NatToString(year) + "-" + Pad2(month + 1) + "-" + Pad2(day);
      Split(key, '-') == [NatToString(year), Pad2(month + 1), Pad2(day)]
      && ParseDateParts(key) == (Some(year), Some(month), Some(day))
  {
    KeyPartsSplit(year, month, day);
    PadStartTooShort(NatToString(year), '0');
    PaddedNumberRoundTrip(year, 0);
    Pad2PadsStart(month + 1);
    Pad2PadsStart(day);
    PaddedNumberRoundTrip(month + 1, 2);
    PaddedNumberRoundTrip(day, 2);
  }

  /** Different days of the same month have different keys. */
  lemma DateKeyInjective(year: nat, month: int, d1: nat, d2: nat)
    requires 0 <= month <= 11 && d1 != d2
    ensures DateKey(year, month, d1) != DateKey(year, month, d2)
  {
  }

  // -------------------------------------------------------------------------
  // The month grid

  /** The grid of a month: `firstDay` empty cells, then the days 1 to `daysInMonth`. */
  method GenerateCalendarGrid(firstDay: nat, daysInMonth: nat) returns (grid: seq<Option<nat>>)
    ensures |grid| == firstDay + daysInMonth
    ensures forall i :: 0 <= i < firstDay ==> grid[i] == None
    ensures forall i :: firstDay <= i < |grid| ==> grid[i] == Some(i - firstDay + 1)
  {
    grid := [];
    var i := 0;
    while i < firstDay
      invariant 0 <= i <= firstDay
      invariant |grid| == i
      invariant forall k :: 0 <= k < i ==> grid[k] == None
    {
      grid := grid + [None];
      i := i + 1;
    }
    i := 1;
    while i <= daysInMonth
      invariant 1 <= i <= daysInMonth + 1
      invariant |grid| == firstDay + i - 1
      invariant forall k :: 0 <= k < firstDay ==> grid[k] == None
      invariant forall k :: firstDay <= k < |grid| ==> grid[k] == Some(k - firstDay + 1)
    {
      grid := grid + [Some(i)];
      i := i + 1;
    }
  }

  // -------------------------------------------------------------------------
  // Events

  /** The events of one date, in stored order. */
  function EventsForDate(events: seq<Event>, key: string): (r: seq<Event>)
    ensures forall i :: 0 <= i < |r| ==> r[i] in events && r[i].date == key
    ensures forall i :: 0 <= i < |events| && events[i].date == key ==> events[i] in r
  {
    Filter(events, OnDate(key))
  }

  function OnDate(key: string): Event -> bool {
    (e: Event) => e.date == key
  }

  /**
   * The list for a date is built event by event in stored order: nothing for
   * no events, and one more event exactly when the last one is on that date.
   */
  lemma EventsForDateStep(events: seq<Event>, e: Event, key: string)
    ensures EventsForDate([], key) == []
    ensures EventsForDate(events + [e], key) == EventsForDate(events, key) + (if e.date == key then [e] else [])
  {
    FilterSnoc(events, e, OnDate(key));
  }

  /** Whether a day of the shown month has any event. */
  predicate HasEvents(events: seq<Event>, year: int, month: int, day: nat)
    requires 0 <= month <= 11
    ensures HasEvents(events, year, month, day) <==> exists e :: e in events && e.date == DateKey(year, month, day)
  {
    Any(events, (e: Event) => e.date == DateKey(year, month, day))
  }

  /** A day is marked exactly when the list for its key is non-empty. */
  lemma HasEventsIffListed(events: seq<Event>, year: int, month: int, day: nat)
    requires 0 <= month <= 11
    ensures HasEvents(events, year, month, day) <==> EventsForDate(events, DateKey(year, month, day)) != []
  {
    var key := DateKey(year, month, day);
    if HasEvents(events, year, month, day) {
      var i :| 0 <= i < |events| && events[i].date == key;
      assert events[i] in EventsForDate(events, key);
    }
    if EventsForDate(events, key) != [] {
      var r := EventsForDate(events, key);
      assert r[0] in events && r[0].date == key;
      var i :| 0 <= i < |events| && events[i] == r[0];
    }
  }

  /** The list after deleting `id`: no event with that id remains, every other one does, in order. */
  function WithoutEvent(events: seq<Event>, id: string): (r: seq<Event>)
    ensures forall i :: 0 <= i < |r| ==> r[i].id != id && r[i] in events
    ensures forall i :: 0 <= i < |events| && events[i].id != id ==> events[i] in r
  {
    Filter(events, EventNotNamed(id))
  }

  function EventNotNamed(id: string): Event -> bool {
    (e: Event) => e.id != id
  }

  /** Deleting keeps the other events in stored order: one more event is kept exactly when its id differs. */
  lemma WithoutEventStep(events: seq<Event>, e: Event, id: string)
    ensures WithoutEvent([], id) == []
    ensures WithoutEvent(events + [e], id) == WithoutEvent(events, id) + (if e.id != id then [e] else [])
  {
    FilterSnoc(events, e, EventNotNamed(id));
  }

  /** The two demo events created on a first visit. */
  function DemoEvents(todayKey: string, tomorrowKey: string): (r: seq<Event>)
    ensures |r| == 2 && r[0].date == todayKey && r[1].date == tomorrowKey && r[0].id != r[1].id
  {
    [
      Event("1", "Team Meeting", todayKey, DemoTime1, "Weekly sync-up with the team"),
      Event("2", "Project Deadline", tomorrowKey, DemoTime2, "Submit final project files")
    ]
  }

  // -------------------------------------------------------------------------
  // The component

  class CalendarApp {
    var currentMonth: int
    var currentYear: int
    var events: seq<Event>
    var selectedDate: Option<string>
    var showEventForm: bool
    var newTitle: string
    var newTime: string
    var newDescription: string

    ghost predicate Valid()
      reads this
    {
      0 <= currentMonth <= 11
    }

    constructor (month: int, year: int)
      requires 0 <= month <= 11
      ensures Valid() && currentMonth == month && currentYear == year
      ensures events == [] && selectedDate == None && !showEventForm
      ensures newTitle == "" && newTime == "" && newDescription == ""
    {
      currentMonth := month;
      currentYear := year;
      events := [];
      selectedDate := None;
      showEventForm := false;
      newTitle := "";
      newTime := "";
      newDescription := "";
    }

    /**
     * The mount effect: stored events are loaded, a corrupt entry gives no
     * events, and a first visit gets the two demo events, which are written back.
     */
    method Load(stored: Stored, todayKey: string, tomorrowKey: string) returns (written: Option<seq<Event>>)
      modifies this
      ensures stored.Saved? ==> events == stored.events && written == None
      ensures stored.Corrupt? ==> events == [] && written == None
      ensures stored.Missing? ==> events == DemoEvents(todayKey, tomorrowKey) && written == Some(events)
      ensures currentMonth == old(currentMonth) && currentYear == old(currentYear)
      ensures selectedDate == old(selectedDate) && showEventForm == old(showEventForm)
      ensures newTitle == old(newTitle) && newTime == old(newTime) && newDescription == old(newDescription)
    {
      written := None;
      match stored {
        case Saved(saved) =>
          events := saved;
        case Corrupt =>
          events := [];
        case Missing =>
          var demoEvents := DemoEvents(todayKey, tomorrowKey);
          events := demoEvents;
          written := Some(demoEvents);
      }
    }

    /**
     * The save effect, run whenever the events change: the list is written
     * only when it is non-empty, so deleting the last event leaves the old
     * list in storage.
     */
    method Persist() returns (written: Option<seq<Event>>)
      ensures written == WrittenList(events)
    {
      if |events| > 0 {
        written := Some(events);
      } else {
        written := None;
      }
    }

    method PrevMonth()
      requires Valid()
      modifies this
      ensures Valid()
      ensures (currentMonth, currentYear) == MonthBefore(old(currentMonth), old(currentYear))
      ensures events == old(events) && selectedDate == old(selectedDate) && showEventForm == old(showEventForm)
      ensures newTitle == old(newTitle) && newTime == old(newTime) && newDescription == old(newDescription)
    {
      if currentMonth == 0 {
        currentMonth := 11;
        currentYear := currentYear - 1;
      } else {
        currentMonth := currentMonth - 1;
      }
    }

    method NextMonth()
      requires Valid()
      modifies this
      ensures Valid()
      ensures (currentMonth, currentYear) == MonthAfter(old(currentMonth), old(currentYear))
      ensures events == old(events) && selectedDate == old(selectedDate) && showEventForm == old(showEventForm)
      ensures newTitle == old(newTitle) && newTime == old(newTime) && newDescription == old(newDescription)
    {
      if currentMonth == 11 {
        currentMonth := 0;
        currentYear := currentYear + 1;
      } else {
        currentMonth := currentMonth + 1;
      }
    }

    /** Choosing a day selects its key and closes the event form. */
    method DateSelect(day: nat)
      requires Valid()
      modifies this
      ensures Valid()
      ensures currentMonth == old(currentMonth) && currentYear == old(currentYear) && events == old(events)
      ensures selectedDate == Some(DateKey(currentYear, currentMonth, day)) && !showEventForm
      ensures newTitle == old(newTitle) && newTime == old(newTime) && newDescription == old(newDescription)
    {
      selectedDate := Some(DateKey(currentYear, currentMonth, day));
      showEventForm := false;
    }

    method EditForm(title: string, time: string, description: string)
      modifies this
      ensures newTitle == title && newTime == time && newDescription == description
      ensures currentMonth == old(currentMonth) && currentYear == old(currentYear) && events == old(events)
      ensures selectedDate == old(selectedDate) && showEventForm == old(showEventForm)
    {
      newTitle := title;
      newTime := time;
      newDescription := description;
    }

    /**
     * Adding: without a title or a selected date nothing happens; otherwise
     * the event is appended on the selected date and the form is reset and closed.
     */
    method AddEvent(id: string)
      modifies this
      ensures old(newTitle) == "" || !Truthy(old(selectedDate)) ==>
        events == old(events) && newTitle == old(newTitle) && newTime == old(newTime)
        && newDescription == old(newDescription) && showEventForm == old(showEventForm)
      ensures old(newTitle) != "" && Truthy(old(selectedDate)) ==>
        events == old(events) + [Event(id, old(newTitle), old(selectedDate).value, old(newTime), old(newDescription))]
        && newTitle == "" && newTime == "" && newDescription == "" && !showEventForm
      ensures currentMonth == old(currentMonth) && currentYear == old(currentYear) && selectedDate == old(selectedDate)
    {
      if newTitle == "" || !Truthy(selectedDate) {
        return;
      }
      var event := Event(id, newTitle, selectedDate.value, newTime, newDescription);
      events := events + [event];
      newTitle := "";
      newTime := "";
      newDescription := "";
      showEventForm := false;
    }

    /** A confirmed delete removes the events with that id. */
    method DeleteEvent(id: string, confirmed: bool)
      modifies this
      ensures confirmed ==> events == WithoutEvent(old(events), id)
      ensures !confirmed ==> events == old(events)
      ensures currentMonth == old(currentMonth) && currentYear == old(currentYear) && selectedDate == old(selectedDate)
      ensures showEventForm == old(showEventForm)
      ensures newTitle == old(newTitle) && newTime == old(newTime) && newDescription == old(newDescription)
    {
      if confirmed {
        events := WithoutEvent(events, id);
      }
    }
  }

  /** An event added on a selected day shows up for that day. */
  method AddedEventIsListed(c: CalendarApp, day: nat, title: string, id: string)
    requires c.Valid() && title != ""
    modifies c
    ensures c.Valid() && HasEvents(c.events, c.currentYear, c.currentMonth, day)
  {
    c.DateSelect(day);
    c.EditForm(title, "", "");
    c.AddEvent(id);
    var key := DateKey(c.currentYear, c.currentMonth, day);
    assert c.events[|c.events| - 1].date == key;
  }
}
