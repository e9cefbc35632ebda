/** The weekly calendar: the Monday-to-Sunday week on show, the events of
    the calendar feed normalised, sorted into the seven days and clipped to
    each day and to the noon-to-midnight display window.

    Instants are whole milliseconds since 1970-01-01T00:00 in local wall
    time, so a day is always 86 400 000 ms and day `d` starts at `d * DAY`. */
module CalendarPage {
  import opened Common

  const MS_PER_MINUTE: int := 60_000
  const DAY: int := 86_400_000

  const DISPLAY_START_MINUTES: int := 12 * 60
  const DISPLAY_END_MINUTES: int := 24 * 60

  /** The day an instant falls on. */
  function DayOf(t: int): int
  {
    t / DAY
  }

  /** The same wall time `n` days later (earlier for negative `n`). */
  function AddDays(t: int, n: int): (r: int)
    ensures DayOf(r) == DayOf(t) + n
    ensures r % DAY == t % DAY
  {
    DayShift(t, n);
    t + n * DAY
  }

  lemma DayShift(t: int, n: int)
    ensures (t + n * DAY) / DAY == t / DAY + n
    ensures (t + n * DAY) % DAY == t % DAY
  {
    var q, r := t / DAY, t % DAY;
    assert t + n * DAY == (q + n) * DAY + r;
  }

  /** Going `n` days forward and `n` back returns to the same instant. */
  lemma AddDaysInverse(t: int, n: int)
    ensures AddDays(AddDays(t, n), -n) == t
  {
  }

  /** `startOfWeek`: local midnight of the Monday of `t`'s week; a Sunday
      belongs to the week that started six days before. */
  function StartOfWeek(t: int): (r: int)
    ensures r % DAY == 0
    ensures Weekday(DayOf(r)) == 1
    ensures r <= t && t - r < 7 * DAY
    ensures Weekday(DayOf(t)) == 0 ==> DayOf(r) == DayOf(t) - 6
    ensures Weekday(DayOf(t)) != 0 ==> DayOf(r) == DayOf(t) - (Weekday(DayOf(t)) - 1)
  {
    var day := DayOf(t);
    var wd := Weekday(day);
    var diff := if wd == 0 then -6 else 1 - wd;
    assert day + 4 == 7 * ((day + 4) / 7) + wd;
    assert (day + diff) * DAY / DAY == day + diff;
    (day + diff) * DAY
  }

  /** A Monday midnight is its own week start. */
  lemma StartOfMonday(t: int)
    requires t % DAY == 0 && Weekday(DayOf(t)) == 1
    ensures StartOfWeek(t) == t
  {
    assert t == DayOf(t) * DAY;
  }

  lemma StartOfWeekIdempotent(t: int)
    ensures StartOfWeek(StartOfWeek(t)) == StartOfWeek(t)
  {
    StartOfMonday(StartOfWeek(t));
  }

  /** Moving whole weeks moves the week start by the same amount. */
  lemma StartOfWeekShift(t: int, k: int)
    ensures StartOfWeek(AddDays(t, 7 * k)) == AddDays(StartOfWeek(t), 7 * k)
  {
    var d := DayOf(t);
    assert DayOf(AddDays(t, 7 * k)) == d + 7 * k;
    WeekdayPeriodic(d, k);
    var s := StartOfWeek(t);
    var s2 := StartOfWeek(AddDays(t, 7 * k));
    assert DayOf(s2) == DayOf(s) + 7 * k;
    assert s2 == DayOf(s2) * DAY && s == DayOf(s) * DAY;
  }

  lemma WeekdayPeriodic(d: int, k: int)
    ensures Weekday(d + 7 * k) == Weekday(d)
  {
    var q, r := (d + 4) / 7, (d + 4) % 7;
    assert d + 7 * k + 4 == 7 * (q + k) + r;
  }

  /** `weekDays`: the seven consecutive days from the week start. */
  function WeekDays(weekStart: int): (days: seq<int>)
    ensures |days| == 7
    ensures forall i :: 0 <= i < 7 ==> days[i] == AddDays(weekStart, i)
  {
    seq(7, i => AddDays(weekStart, i))
  }

  /** `weekEnd`: a week after the week start. */
  function WeekEnd(weekStart: int): (e: int)
    ensures DayOf(e) == DayOf(weekStart) + 7 && e % DAY == weekStart % DAY
  {
    AddDays(weekStart, 7)
  }

  /** `getMinutes`: minutes since local midnight. */
  function GetMinutes(t: int): (m: int)
    ensures 0 <= m < MINUTES_PER_DAY
    ensures DayOf(t) * DAY + m * MS_PER_MINUTE <= t < DayOf(t) * DAY + (m + 1) * MS_PER_MINUTE
  {
    (t % DAY) / MS_PER_MINUTE
  }

  // ---------------------------------------------------------------------------
  // Week range label

  /** A date as the `Date` getters report it: full year, month index 0..11, day of month. */
  datatype CivilDate = CivilDate(year: int, month: int, day: int)

  const MONTH_NAMES: seq<string> := ["January", "February", "March", "April", "May", "June", "July",
                                     "August", "September", "October", "November", "December"]

  /** The parts of `formatWeekRange`'s text, before numbers are printed:
      the end month is shown unless both dates share month and year, and the
      start year only when the years differ. */
  datatype WeekRangeLabel = WeekRangeLabel(startMonth: string, startDay: int, startYear: Option<int>,
                                           endMonth: Option<string>, endDay: int, endYear: int)

  function FormatWeekRange(start: CivilDate, end: CivilDate): (l: WeekRangeLabel)
    requires 0 <= start.month < 12 && 0 <= end.month < 12
    ensures l.startMonth == MONTH_NAMES[start.month] && l.startDay == start.day && l.endDay == end.day
    ensures l.startYear.Some? <==> start.year != end.year
    ensures l.startYear.Some? ==> l.startYear.value == start.year
    ensures l.endMonth.None? <==> start.month == end.month && start.year == end.year
    ensures l.endMonth.Some? ==> l.endMonth.value == MONTH_NAMES[end.month]
    ensures l.endYear == if start.year == end.year then start.year else end.year
  {
    var sameMonth := start.month == end.month;
    var sameYear := start.year == end.year;
    if sameYear then
      WeekRangeLabel(MONTH_NAMES[start.month], start.day, None,
                     if sameMonth then None else Some(MONTH_NAMES[end.month]), end.day, start.year)
    else
      WeekRangeLabel(MONTH_NAMES[start.month], start.day, Some(start.year), Some(MONTH_NAMES[end.month]), end.day, end.year)
  }

  /** The label names one year when the week stays in one year, and two otherwise. */
  lemma LabelYears(start: CivilDate, end: CivilDate)
    requires 0 <= start.month < 12 && 0 <= end.month < 12
    ensures var l := FormatWeekRange(start, end);
            (start.year == end.year ==> l.startYear.None? && l.endYear == start.year)
            && (start.year != end.year ==> l.startYear == Some(start.year) && l.endYear == end.year && l.endMonth.Some?)
  {
  }

  // ---------------------------------------------------------------------------
  // Events

  /** One side of a feed event: a `dateTime` instant, or a `date` (a day,
      read as its local midnight); None when the field is missing or empty. */
  datatype EventPart = EventPart(dateTime: Option<int>, date: Option<int>)

  /** An event as the feed delivers it; a missing side is None, a missing summary or location "". */
  datatype RawEvent = RawEvent(id: string, summary: string, location: string, start: Option<EventPart>, end: Option<EventPart>)

  /** A normalised event. */
  datatype Event = Event(id: string, summary: string, location: string, start: int, end: int, allDay: bool)

  const UNTITLED: string := "Untitled event"

  /** `parseEventDate`. */
  function ParseEventDate(p: Option<EventPart>): (t: Option<int>)
    ensures p.None? ==> t.None?
    ensures p.Some? && p.value.dateTime.Some? ==> t == p.value.dateTime
    ensures p.Some? && p.value.dateTime.None? && p.value.date.Some? ==> t == Some(p.value.date.value * DAY)
    ensures p.Some? && p.value.dateTime.None? && p.value.date.None? ==> t.None?
  {
    match p
    case None => None
    case Some(part) =>
      if part.dateTime.Some? then part.dateTime
      else if part.date.Some? then Some(part.date.value * DAY)
      else None
  }

  /** An event starting on a date and not a date-time is all-day. */
  predicate IsAllDay(ev: RawEvent)
  {
    ev.start.Some? && ev.start.value.date.Some? && ev.start.value.dateTime.None?
  }

  /** One event of `normalizedEvents`: None when either side cannot be read;
      an all-day event's exclusive end moved back by a millisecond. */
  function Normalize(ev: RawEvent): (e: Option<Event>)
    ensures e.None? <==> ParseEventDate(ev.start).None? || ParseEventDate(ev.end).None?
    ensures e.Some? ==> e.value.id == ev.id && e.value.start == ParseEventDate(ev.start).value
    ensures e.Some? ==> e.value.allDay == IsAllDay(ev)
    ensures e.Some? ==> e.value.end == ParseEventDate(ev.end).value - (if IsAllDay(ev) then 1 else 0)
    ensures e.Some? && ev.summary != "" ==> e.value.summary == ev.summary
    ensures e.Some? && ev.summary == "" ==> e.value.summary == UNTITLED
    ensures e.Some? ==> e.value.location == ev.location
  {
    var start := ParseEventDate(ev.start);
    var end := ParseEventDate(ev.end);
    if start.None? || end.None? then None
    else
      var allDay := IsAllDay(ev);
      Some(Event(ev.id, if ev.summary != "" then ev.summary else UNTITLED, ev.location,
                 start.value, if allDay then end.value - 1 else end.value, allDay))
  }

  /** `normalizedEvents`: the readable events, normalised, in feed order. */
  function NormalizeAll(events: seq<RawEvent>): (r: seq<Event>)
    ensures |r| <= |events|
    ensures forall i :: 0 <= i < |events| && Normalize(events[i]).Some? ==> Normalize(events[i]).value in r
    ensures forall e :: e in r ==> exists i :: 0 <= i < |events| && Normalize(events[i]) == Some(e)
  {
    if events == [] then []
    else
      var rest := NormalizeAll(events[1..]);
      assert forall i :: 1 <= i < |events| ==> events[i] == events[1..][i - 1];
      match Normalize(events[0])
      case None => rest
      case Some(e) => [e] + rest
  }

  /** Normalising a feed with one more event at its end: the normalised
      list so far, then that event when it is readable. With the empty feed
      as base, this fixes the result's order and multiplicity as that of a
      map-then-filter over the feed. */
  lemma {:induction false} NormalizeAllAppend(events: seq<RawEvent>, ev: RawEvent)
    ensures NormalizeAll(events + [ev])
         == NormalizeAll(events) + (if Normalize(ev).Some? then [Normalize(ev).value] else [])
  {
    if events != [] {
      assert (events + [ev])[1..] == events[1..] + [ev];
      NormalizeAllAppend(events[1..], ev);
    } else {
      assert [ev][1..] == [];
    }
  }

  /** Feeds that differ only in unreadable events normalise alike. */
  lemma UnreadableEventsDropped(events: seq<RawEvent>, bad: RawEvent)
    requires Normalize(bad).None?
    ensures NormalizeAll(events + [bad]) == NormalizeAll(events)
  {
    NormalizeAllAppend(events, bad);
  }

  // ---------------------------------------------------------------------------
  // Clipping

  /** A timed event with the part of it drawn on one day. */
  datatype Clipped = Clipped(event: Event, displayStart: int, displayEnd: int)

  /** `clampEventToDay`: the event cut to [dayStart, dayEnd); None when
      nothing of it is left; an end at `dayEnd` moved back a millisecond. */
  function ClampEventToDay(e: Event, dayStart: int, dayEnd: int): (c: Option<Clipped>)
    ensures c.None? <==> (if e.end > dayEnd then dayEnd else e.end) <= (if e.start < dayStart then dayStart else e.start)
    ensures c.Some? ==> c.value.event == e
    ensures c.Some? ==> dayStart <= c.value.displayStart <= c.value.displayEnd < dayEnd
    ensures c.Some? ==> c.value.displayStart == (if e.start < dayStart then dayStart else e.start)
    ensures c.Some? && e.end < dayEnd ==> c.value.displayEnd == e.end
    ensures c.Some? && e.end >= dayEnd ==> c.value.displayEnd == dayEnd - 1
  {
    var start := if e.start < dayStart then dayStart else e.start;
    var end := if e.end > dayEnd then dayEnd else e.end;
    if end <= start then None
    else Some(Clipped(e, start, if end == dayEnd then end - 1 else end))
  }

  /** The drawn block of a clipped event: its minutes of the day cut to the
      display window, None when nothing of it falls inside. */
  function TimedBlock(c: Clipped): (b: Option<(int, int)>)
    ensures b.Some? ==> DISPLAY_START_MINUTES <= b.value.0 < b.value.1 <= DISPLAY_END_MINUTES
    ensures b.Some? ==> b.value.0 >= GetMinutes(c.displayStart) && b.value.1 <= GetMinutes(c.displayEnd)
    ensures b.Some? ==> b.value.0 == DISPLAY_START_MINUTES || b.value.0 == GetMinutes(c.displayStart)
    ensures b.Some? ==> b.value.1 == DISPLAY_END_MINUTES || b.value.1 == GetMinutes(c.displayEnd)
    ensures b.None? <==> GetMinutes(c.displayEnd) <= DISPLAY_START_MINUTES || GetMinutes(c.displayEnd) <= GetMinutes(c.displayStart)
  {
    var startMinutes := GetMinutes(c.displayStart);
    var endMinutes := GetMinutes(c.displayEnd);
    var clampedStart := if startMinutes > DISPLAY_START_MINUTES then startMinutes else DISPLAY_START_MINUTES;
    var clampedEnd := if endMinutes < DISPLAY_END_MINUTES then endMinutes else DISPLAY_END_MINUTES;
    if clampedEnd <= clampedStart then None else Some((clampedStart, clampedEnd))
  }

  // ---------------------------------------------------------------------------
  // Day buckets

  /** An event touches the day [dayStart, dayEnd) unless it ends before it or starts at or after its end. */
  predicate Touches(e: Event, dayStart: int, dayEnd: int)
  {
    !(e.end < dayStart || e.start >= dayEnd)
  }

  /** The all-day events of one day, in order: the all-day events touching it, unclipped. */
  function AllDayOf(events: seq<Event>, dayStart: int, dayEnd: int): seq<Event>
  {
    if events == [] then []
    else
      var last := events[|events| - 1];
      AllDayOf(events[..|events| - 1], dayStart, dayEnd) + (if Touches(last, dayStart, dayEnd) && last.allDay then [last] else [])
  }

  /** The timed events of one day, in order: the timed events touching it that keep something after clipping. */
  function TimedOf(events: seq<Event>, dayStart: int, dayEnd: int): seq<Clipped>
  {
    if events == [] then []
    else
      var last := events[|events| - 1];
      var clipped := ClampEventToDay(last, dayStart, dayEnd);
      TimedOf(events[..|events| - 1], dayStart, dayEnd)
        + (if Touches(last, dayStart, dayEnd) && !last.allDay && clipped.Some? then [clipped.value] else [])
  }

  /** An event is in a day's all-day list iff it is an all-day event touching the day. */
  lemma {:induction false} AllDayMembers(events: seq<Event>, dayStart: int, dayEnd: int)
    ensures forall e :: e in AllDayOf(events, dayStart, dayEnd) <==> e in events && e.allDay && Touches(e, dayStart, dayEnd)
  {
    if events != [] {
      AllDayMembers(events[..|events| - 1], dayStart, dayEnd);
      assert events == events[..|events| - 1] + [events[|events| - 1]];
    }
  }

  /** A clipped event is in a day's timed list iff it is a timed event touching the day whose clipping leaves something. */
  lemma {:induction false} TimedMembers(events: seq<Event>, dayStart: int, dayEnd: int)
    ensures forall c :: c in TimedOf(events, dayStart, dayEnd) <==>
              c.event in events && !c.event.allDay && Touches(c.event, dayStart, dayEnd) && ClampEventToDay(c.event, dayStart, dayEnd) == Some(c)
  {
    if events != [] {
      TimedMembers(events[..|events| - 1], dayStart, dayEnd);
      assert events == events[..|events| - 1] + [events[|events| - 1]];
    }
  }

  datatype DayBucket = DayBucket(date: int, allDayEvents: seq<Event>, timedEvents: seq<Clipped>)

  /** One day of `eventsByDay`: the feed walked once, each event pushed to the list it belongs to. */
  method BucketDay(events: seq<Event>, dayStart: int) returns (bucket: DayBucket)
    ensures bucket.date == dayStart
    ensures bucket.allDayEvents == AllDayOf(events, dayStart, AddDays(dayStart, 1))
    ensures bucket.timedEvents == TimedOf(events, dayStart, AddDays(dayStart, 1))
  {
    var dayEnd := AddDays(dayStart, 1);
    var allDayEvents: seq<Event> := [];
    var timedEvents: seq<Clipped> := [];
    for i := 0 to |events|
      invariant allDayEvents == AllDayOf(events[..i], dayStart, dayEnd)
      invariant timedEvents == TimedOf(events[..i], dayStart, dayEnd)
    {
      assert events[..i + 1][..i] == events[..i];
      var event := events[i];
      if event.end < dayStart || event.start >= dayEnd {
        continue;
      }
      if event.allDay {
        allDayEvents := allDayEvents + [event];
        continue;
      }
      var clipped := ClampEventToDay(event, dayStart, dayEnd);
      if clipped.Some? {
        timedEvents := timedEvents + [clipped.value];
      }
    }
    assert events[..|events|] == events;
    bucket := DayBucket(dayStart, allDayEvents, timedEvents);
  }

  /** `eventsByDay`: one bucket for each day of the week. */
  method EventsByDay(events: seq<Event>, weekStart: int) returns (buckets: seq<DayBucket>)
    ensures |buckets| == 7
    ensures forall i :: 0 <= i < 7 ==> buckets[i].date == WeekDays(weekStart)[i]
    ensures forall i :: 0 <= i < 7 ==>
              buckets[i].allDayEvents == AllDayOf(events, WeekDays(weekStart)[i], AddDays(WeekDays(weekStart)[i], 1))
              && buckets[i].timedEvents == TimedOf(events, WeekDays(weekStart)[i], AddDays(WeekDays(weekStart)[i], 1))
  {
    var days := WeekDays(weekStart);
    buckets := [];
    for i := 0 to 7
      invariant |buckets| == i
      invariant forall j :: 0 <= j < i ==> buckets[j].date == days[j]
      invariant forall j :: 0 <= j < i ==>
                  buckets[j].allDayEvents == AllDayOf(events, days[j], AddDays(days[j], 1))
                  && buckets[j].timedEvents == TimedOf(events, days[j], AddDays(days[j], 1))
    {
      var bucket := BucketDay(events, days[i]);
      buckets := buckets + [bucket];
    }
  }

  // ---------------------------------------------------------------------------
  // The page

  const MSG_LOAD_FAILED: string := "Failed to load events"

  class WeekView {
    var weekStart: int
    var events: seq<RawEvent>
    var error: string

    /** The week on show always starts at a Monday midnight. */
    predicate Valid()
      reads this
    {
      weekStart % DAY == 0 && Weekday(DayOf(weekStart)) == 1
    }

    /** The page opens on the week of `now`. */
    constructor (now: int)
      ensures Valid()
      ensures weekStart == StartOfWeek(now) && events == [] && error == ""
    {
      weekStart, events, error := StartOfWeek(now), [], "";
    }

    /** Previous (`offset` -1) and Next (`offset` 1): the week start moves by whole weeks. */
    method HandleWeekChange(offset: int)
      requires Valid()
      modifies this
      ensures Valid()
      ensures weekStart == StartOfWeek(AddDays(old(weekStart), offset * 7))
      ensures weekStart == AddDays(old(weekStart), 7 * offset)
      ensures events == old(events) && error == old(error)
    {
      StartOfWeekShift(weekStart, offset);
      StartOfMonday(weekStart);
      weekStart := StartOfWeek(AddDays(weekStart, offset * 7));
    }

    /** Today: back to the week of `now`. */
    method HandleToday(now: int)
      modifies this
      ensures Valid()
      ensures weekStart == StartOfWeek(now)
      ensures now - 7 * DAY < weekStart <= now
      ensures events == old(events) && error == old(error)
    {
      weekStart := StartOfWeek(now);
    }

    /** The events request for the week ended: the feed, or None on failure. */
    method EventsLoaded(feed: Option<seq<RawEvent>>)
      modifies this
      ensures feed.Some? ==> events == feed.value && error == ""
      ensures feed.None? ==> events == old(events) && error == MSG_LOAD_FAILED
      ensures weekStart == old(weekStart)
    {
      error := "";
      if feed.Some? {
        events := feed.value;
      } else {
        error := MSG_LOAD_FAILED;
      }
    }
  }

  /** Next then Previous shows the week that was shown before. */
  lemma NextThenPreviousRestores(weekStart: int)
    requires weekStart % DAY == 0 && Weekday(DayOf(weekStart)) == 1
    ensures StartOfWeek(AddDays(StartOfWeek(AddDays(weekStart, 7)), -7)) == weekStart
  {
    StartOfWeekShift(weekStart, 1);
    StartOfMonday(weekStart);
    StartOfWeekShift(AddDays(weekStart, 7), -1);
    StartOfWeekIdempotent(AddDays(weekStart, 7));
  }
}
