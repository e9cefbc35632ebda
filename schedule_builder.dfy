/** The session-schedule builder: a sorted, duplicate-free list of session
    start instants, filled by manual adds, by a weekly recurrence and by a
    fixed daily grid, reconciled with the parent's copy by value, and
    annotated with room conflicts by asking an availability oracle.

    Instants are whole minutes since 1970-01-01T00:00 in local wall time
    (the builder's ISO strings all have the same shape, so their string
    order is this numeric order). Calendar days are integers, day 0 being
    1970-01-01, a Thursday. */
module ScheduleBuilder {
  import opened Common

  /** The instant `minutes` after the
      local midnight that starts `day`. */
  function At(day: int, minutes: int): int
  {
    day * MINUTES_PER_DAY + minutes
  }

  // ---------------------------------------------------------------------------
  // Sorted sequences

  predicate Sorted(s: seq<int>)
  {
    forall i, j :: 0 <= i < j < |s| ==> s[i] <= s[j]
  }

  predicate StrictlySorted(s: seq<int>)
  {
    forall i, j :: 0 <= i < j < |s| ==> s[i] < s[j]
  }

  function Insert(s: seq<int>, x: int): (r: seq<int>)
    requires Sorted(s)
    ensures Sorted(r)
    ensures multiset(r) == multiset(s) + multiset{x}
  {
    if s == [] || x <= s[0] then
      ConsSorted(x, s);
      [x] + s
    else
      SortedTail(s);
      var tail := Insert(s[1..], x);
      assert s == [s[0]] + s[1..];
      LowerBound(tail, s[1..], x, s[0]);
      ConsSorted(s[0], tail);
      [s[0]] + tail
  }

  lemma SortedTail(s: seq<int>)
    requires Sorted(s) && s != []
    ensures Sorted(s[1..])
  {
  }

  lemma ConsSorted(lo: int, t: seq<int>)
    requires Sorted(t)
    requires forall k :: 0 <= k < |t| ==> lo <= t[k]
    ensures Sorted([lo] + t)
  {
  }

  lemma HeadTail(s: seq<int>)
    requires s != []
    ensures multiset(s[1..]) == multiset(s) - multiset{s[0]}
  {
    assert s == [s[0]] + s[1..];
  }

  lemma LowerBound(t: seq<int>, s: seq<int>, x: int, lo: int)
    requires multiset(t) == multiset(s) + multiset{x}
    requires Sorted([lo] + s) && lo <= x
    ensures forall k :: 0 <= k < |t| ==> lo <= t[k]
  {
    forall k | 0 <= k < |t|
      ensures lo <= t[k]
    {
      assert t[k] in multiset(t);
      if t[k] != x {
        assert t[k] in multiset(s);
        var i :| 0 <= i < |s| && s[i] == t[k];
        assert ([lo] + s)[0] == lo && ([lo] + s)[i + 1] == s[i];
      }
    }
  }

  /** A sorted copy of the schedule: the same entries, ascending. */
  function SortAsc(s: seq<int>): (r: seq<int>)
    ensures Sorted(r)
    ensures multiset(r) == multiset(s)
  {
    if s == [] then []
    else
      assert s == s[..|s| - 1] + [s[|s| - 1]];
      Insert(SortAsc(s[..|s| - 1]), s[|s| - 1])
  }

  lemma SortedHeadIsLeast(s: seq<int>, y: int)
    requires Sorted(s) && y in multiset(s)
    ensures s[0] <= y
  {
    var i :| 0 <= i < |s| && s[i] == y;
  }

  /** Two ascending sequences with the same entries are the same sequence. */
  lemma {:induction false} SortedUnique(a: seq<int>, b: seq<int>)
    requires Sorted(a) && Sorted(b)
    requires multiset(a) == multiset(b)
    ensures a == b
  {
    if a == [] {
      assert |multiset(b)| == 0;
    } else {
      SameHead(a, b);
      HeadTail(a);
      HeadTail(b);
      SortedTail(a);
      SortedTail(b);
      SortedUnique(a[1..], b[1..]);
      assert a == [a[0]] + a[1..];
      assert b == [b[0]] + b[1..];
    }
  }

  /** Two ascending sequences with the same entries start with the same entry. */
  lemma SameHead(a: seq<int>, b: seq<int>)
    requires Sorted(a) && Sorted(b) && a != []
    requires multiset(a) == multiset(b)
    ensures b != [] && a[0] == b[0]
  {
    assert a[0] in multiset(a);
    assert b != [];
    assert b[0] in multiset(b);
    SortedHeadIsLeast(a, b[0]);
    SortedHeadIsLeast(b, a[0]);
  }

  /** Sorting a list that is already ascending returns it unchanged. */
  lemma SortAscOfSorted(s: seq<int>)
    requires Sorted(s)
    ensures SortAsc(s) == s
  {
    SortedUnique(SortAsc(s), s);
  }

  // ---------------------------------------------------------------------------
  // Deduplication: the distinct entries, ascending

  function InsertUnique(s: seq<int>, x: int): (r: seq<int>)
    requires StrictlySorted(s)
    ensures StrictlySorted(r)
    ensures forall y :: y in r <==> y in s || y == x
  {
    if s == [] || x < s[0] then [x] + s
    else if x == s[0] then s
    else
      var tail := InsertUnique(s[1..], x);
      assert forall k :: 0 <= k < |tail| ==> s[0] < tail[k] by {
        forall k | 0 <= k < |tail|
          ensures s[0] < tail[k]
        {
          assert tail[k] in tail;
          if tail[k] != x {
            var i :| 1 <= i < |s| && s[i] == tail[k];
          }
        }
      }
      [s[0]] + tail
  }

  /** The builder's single merge point: the distinct entries of `s`, ascending. */
  function Dedupe(s: seq<int>): (r: seq<int>)
    ensures StrictlySorted(r)
    ensures forall y :: y in r <==> y in s
    ensures |r| <= |s|
  {
    if s == [] then []
    else
      var init := s[..|s| - 1];
      var r := InsertUnique(Dedupe(init), s[|s| - 1]);
      assert forall y :: y in s <==> y in init || y == s[|s| - 1] by {
        assert s == init + [s[|s| - 1]];
      }
      DistinctBound(r, s);
      r
  }

  /** A strictly ascending sequence has no more entries than any sequence holding all of them. */
  lemma {:induction false} DistinctBound(r: seq<int>, s: seq<int>)
    requires StrictlySorted(r)
    requires forall y :: y in r ==> y in s
    ensures |r| <= |s|
  {
    var rs := set y | y in r;
    var ss := set y | y in s;
    forall y | y in rs
      ensures y in ss
    {
    }
    DistinctCard(r);
    SeqSetCard(s);
    assert |rs| <= |ss| by { SubsetCard(rs, ss); }
  }

  lemma SubsetCard(a: set<int>, b: set<int>)
    requires a <= b
    ensures |a| <= |b|
  {
    assert b == a + (b - a);
  }

  lemma {:induction false} DistinctCard(r: seq<int>)
    requires StrictlySorted(r)
    ensures |set y | y in r| == |r|
  {
    if r != [] {
      DistinctCard(r[1..]);
      assert (set y | y in r) == {r[0]} + (set y | y in r[1..]);
      assert r[0] !in (set y | y in r[1..]);
    }
  }

  lemma {:induction false} SeqSetCard(s: seq<int>)
    ensures |set y | y in s| <= |s|
  {
    if s != [] {
      SeqSetCard(s[1..]);
      assert (set y | y in s) == {s[0]} + (set y | y in s[1..]);
    }
  }

  lemma StrictHeadIsLeast(s: seq<int>, y: int)
    requires StrictlySorted(s) && y in s
    ensures s[0] <= y
  {
    var i :| 0 <= i < |s| && s[i] == y;
  }

  /** Two strictly ascending sequences with the same members are equal. */
  lemma {:induction false} StrictlySortedUnique(a: seq<int>, b: seq<int>)
    requires StrictlySorted(a) && StrictlySorted(b)
    requires forall y :: y in a <==> y in b
    ensures a == b
  {
    assert b != [] ==> b[0] in b && b[0] in a;
    assert a != [] ==> a[0] in a && a[0] in b;
    if a != [] && b != [] {
      StrictHeadIsLeast(a, b[0]);
      StrictHeadIsLeast(b, a[0]);
      forall y
        ensures y in a[1..] <==> y in b[1..]
      {
        assert y in a[1..] <==> y in a && y != a[0];
        assert y in b[1..] <==> y in b && y != b[0];
      }
      StrictlySortedUnique(a[1..], b[1..]);
    }
  }

  /** The merge depends only on which instants occur: not on their order,
      nor on how often each one is repeated. */
  lemma DedupeOrderIndependent(s: seq<int>, t: seq<int>)
    requires forall y :: y in s <==> y in t
    ensures Dedupe(s) == Dedupe(t)
  {
    StrictlySortedUnique(Dedupe(s), Dedupe(t));
  }

  /** Merging an already merged list changes nothing. */
  lemma DedupeIdempotent(s: seq<int>)
    ensures Dedupe(Dedupe(s)) == Dedupe(s)
  {
    DedupeOfStrictlySorted(Dedupe(s));
  }

  lemma DedupeOfStrictlySorted(s: seq<int>)
    requires StrictlySorted(s)
    ensures Dedupe(s) == s
  {
    StrictlySortedUnique(Dedupe(s), s);
  }

  /** Adding an instant that is already listed changes nothing. */
  lemma AddExistingIsNoop(s: seq<int>, t: int)
    requires StrictlySorted(s) && t in s
    ensures Dedupe(s + [t]) == s
  {
    StrictlySortedUnique(Dedupe(s + [t]), s);
  }

  // ---------------------------------------------------------------------------
  // Times of day: parseTimeToMinutes and minutesToDate

  predicate IsDigit(c: char) { '0' <= c <= '9' }

  /** A part made of decimal digits read as a number; the empty part is 0
      and any other text is not a number (None). */
  function ParseDigits(s: string): (r: Option<nat>)
    ensures r.None? <==> exists i :: 0 <= i < |s| && !IsDigit(s[i])
  {
    if s == [] then Some(0)
    else
      var c := s[|s| - 1];
      var init := s[..|s| - 1];
      assert forall i :: 0 <= i < |init| ==> init[i] == s[i];
      match ParseDigits(init)
      case None => None
      case Some(v) => if IsDigit(c) then Some(v * 10 + (c as int - '0' as int)) else None
  }

  /** The text before the first ':' (all of it when there is none). */
  function BeforeColon(t: string): (r: string)
    ensures r <= t && ':' !in r
    ensures |r| < |t| ==> t[|r|] == ':'
  {
    if t == [] || t[0] == ':' then [] else [t[0]] + BeforeColon(t[1..])
  }

  /** The text before the first colon and the text after it; the second is absent when `t` has no colon. */
  function TimeParts(t: string): (string, Option<string>)
  {
    var h := BeforeColon(t);
    if |h| == |t| then (h, None) else (h, Some(BeforeColon(t[|h| + 1..])))
  }

  /** An optional part read as a number, 0 when it is absent or unreadable. */
  function PartValue(p: Option<string>): nat
  {
    if p.None? then 0
    else match ParseDigits(p.value)
      case None => 0
      case Some(v) => v
  }

  /** `parseTimeToMinutes`: "hh:mm" read as hh * 60 + mm, each unreadable part read as 0. */
  function ParseTimeToMinutes(t: string): (r: nat)
    ensures t == "" ==> r == 0
    ensures t != "" && ':' !in t ==> r == PartValue(Some(t)) * 60
    ensures ':' in t ==> var h := BeforeColon(t);
              |h| < |t| && r == PartValue(Some(h)) * 60 + PartValue(Some(BeforeColon(t[|h| + 1..])))
  {
    assert BeforeColon("00:00") == "00" by {
      assert BeforeColon("00:00"[1..]) == "0" by { assert "00:00"[1..][1..] == ":00"; }
    }
    assert "00:00"[3..] == "00";
    assert BeforeColon("00") == "00" by { assert BeforeColon("00"[1..]) == "0" by { assert "00"[1..][1..] == []; } }
    assert ':' !in t ==> BeforeColon(t) == t;
    var s := if t == "" then "00:00" else t;
    var (h, mm) := TimeParts(s);
    PartValue(Some(h)) * 60 + PartValue(mm)
  }

  function Digit(n: nat): (c: char)
    requires n < 10
    ensures IsDigit(c) && c != ':'
    ensures c as int - '0' as int == n
  {
    ('0' as int + n) as char
  }

  /** The value of a time input: two-digit hours, ':', two-digit minutes. */
  function FormatTime(m: nat): (t: string)
    requires m < MINUTES_PER_DAY
    ensures |t| == 5 && t[2] == ':'
  {
    var h := m / 60;
    var mm := m % 60;
    [Digit(h / 10), Digit(h % 10), ':', Digit(mm / 10), Digit(mm % 10)]
  }

  lemma TwoDigits(a: nat, b: nat)
    requires a < 10 && b < 10
    ensures ParseDigits([Digit(a), Digit(b)]) == Some(a * 10 + b)
  {
    assert [Digit(a)][..0] == [];
    assert ParseDigits([Digit(a)]) == Some(a);
    assert [Digit(a), Digit(b)][..1] == [Digit(a)];
  }

  /** Every time a time input can hold reads back as the minutes it shows. */
  lemma ParseFormatTime(m: nat)
    requires m < MINUTES_PER_DAY
    ensures ParseTimeToMinutes(FormatTime(m)) == m
  {
    var t := FormatTime(m);
    var h, mm := m / 60, m % 60;
    assert BeforeColon(t) == t[..2] by {
      assert BeforeColon(t[2..]) == [];
      assert BeforeColon(t[1..]) == [t[1]];
    }
    assert t[3..] == [Digit(mm / 10), Digit(mm % 10)];
    assert BeforeColon(t[3..]) == t[3..] by {
      assert BeforeColon(t[4..]) == [t[4]] by { assert BeforeColon(t[5..]) == []; }
    }
    TwoDigits(h / 10, h % 10);
    TwoDigits(mm / 10, mm % 10);
    assert t[..2] == [Digit(h / 10), Digit(h % 10)];
    assert TimeParts(t) == (t[..2], Some(t[3..]));
    assert PartValue(Some(t[..2])) == h;
    assert PartValue(Some(t[3..])) == mm;
    assert t != "";
    assert ParseTimeToMinutes(t) == h * 60 + mm;
    assert h * 60 + mm == m;
  }

  /** `minutesToDate`: hours `m div 60` and minutes `m mod 60` on `day`. */
  function MinutesToInstant(day: int, m: nat): (t: int)
    ensures t == At(day, m)
  {
    At(day, (m / 60) * 60 + m % 60)
  }

  /** For a time of day, the generated instant lies on `day` and shows that time again. */
  lemma MinutesToInstantRoundTrip(day: int, m: nat)
    requires m < MINUTES_PER_DAY
    ensures MinutesToInstant(day, m) / MINUTES_PER_DAY == day
    ensures MinutesToInstant(day, m) % MINUTES_PER_DAY == m
  {
  }

  // ---------------------------------------------------------------------------
  // Weekly recurrence

  /** The batch `generateWeekly` collects: for each day of [first, last] in
      order whose weekday is selected, the instant `timeOfDay` minutes after
      that day's midnight. */
  function WeeklyBatch(first: int, last: int, days: set<int>, timeOfDay: int): seq<int>
    decreases if last < first then 0 else last - first + 1
  {
    if last < first then []
    else WeeklyBatch(first, last - 1, days, timeOfDay)
         + (if Weekday(last) in days then [At(last, timeOfDay)] else [])
  }

  /** The loop of `generateWeekly`: a cursor walks the days, pushing one instant per selected day. */
  method CollectWeekly(first: int, last: int, days: set<int>, timeOfDay: int) returns (results: seq<int>)
    ensures results == WeeklyBatch(first, last, days, timeOfDay)
  {
    results := [];
    var cur := first;
    while cur <= last
      invariant first <= cur && (cur <= last + 1 || cur == first)
      invariant results == WeeklyBatch(first, cur - 1, days, timeOfDay)
      decreases last - cur
    {
      if Weekday(cur) in days {
        results := results + [At(cur, timeOfDay)];
      }
      cur := cur + 1;
    }
  }

  /** Exactly the selected days of the range get an instant, and only those. */
  lemma {:induction false} WeeklyMembers(first: int, last: int, days: set<int>, timeOfDay: int, t: int)
    ensures t in WeeklyBatch(first, last, days, timeOfDay) <==>
            exists d :: first <= d <= last && Weekday(d) in days && t == At(d, timeOfDay)
    decreases if last < first then 0 else last - first + 1
  {
    if last >= first {
      WeeklyMembers(first, last - 1, days, timeOfDay, t);
      if t == At(last, timeOfDay) && Weekday(last) in days {
        assert first <= last <= last;
      }
      if exists d :: first <= d <= last && Weekday(d) in days && t == At(d, timeOfDay) {
        var d :| first <= d <= last && Weekday(d) in days && t == At(d, timeOfDay);
        if d < last {
          assert first <= d <= last - 1;
        }
      }
    }
  }

  /** Every generated instant lies at or after the first day's set time and
      before the set time of the day after the last. */
  lemma {:induction false} WeeklyWithinRange(first: int, last: int, days: set<int>, timeOfDay: int)
    ensures forall i :: 0 <= i < |WeeklyBatch(first, last, days, timeOfDay)| ==>
              At(first, timeOfDay) <= WeeklyBatch(first, last, days, timeOfDay)[i] < At(last + 1, timeOfDay)
    decreases if last < first then 0 else last - first + 1
  {
    if last >= first {
      WeeklyWithinRange(first, last - 1, days, timeOfDay);
    }
  }

  /** The batch is strictly ascending, so no day contributes twice. */
  lemma {:induction false} WeeklyStrictlySorted(first: int, last: int, days: set<int>, timeOfDay: int)
    ensures StrictlySorted(WeeklyBatch(first, last, days, timeOfDay))
    decreases if last < first then 0 else last - first + 1
  {
    if last >= first {
      WeeklyStrictlySorted(first, last - 1, days, timeOfDay);
      WeeklyWithinRange(first, last - 1, days, timeOfDay);
    }
  }

  /** 2024-01-01 (a Monday, day 19723) to 2024-01-14, Mondays and Wednesdays
      at 18:00: four sessions, on the 1st, 3rd, 8th and 10th. */
  lemma WeeklyExample()
    ensures WeeklyBatch(19723, 19736, {1, 3}, 18 * 60)
         == [At(19723, 1080), At(19725, 1080), At(19730, 1080), At(19732, 1080)]
  {
    var days := {1, 3};
    assert Weekday(19723) == 1 && Weekday(19724) == 2 && Weekday(19725) == 3;
    assert Weekday(19726) == 4 && Weekday(19727) == 5 && Weekday(19728) == 6;
    assert Weekday(19729) == 0 && Weekday(19730) == 1 && Weekday(19731) == 2;
    assert Weekday(19732) == 3 && Weekday(19733) == 4 && Weekday(19734) == 5;
    assert Weekday(19735) == 6 && Weekday(19736) == 0;
    assert WeeklyBatch(19723, 19722, days, 1080) == [];
    assert WeeklyBatch(19723, 19723, days, 1080) == [At(19723, 1080)];
    assert WeeklyBatch(19723, 19724, days, 1080) == [At(19723, 1080)];
    assert WeeklyBatch(19723, 19725, days, 1080) == [At(19723, 1080), At(19725, 1080)];
    assert WeeklyBatch(19723, 19726, days, 1080) == [At(19723, 1080), At(19725, 1080)];
    assert WeeklyBatch(19723, 19727, days, 1080) == [At(19723, 1080), At(19725, 1080)];
    assert WeeklyBatch(19723, 19728, days, 1080) == [At(19723, 1080), At(19725, 1080)];
    assert WeeklyBatch(19723, 19729, days, 1080) == [At(19723, 1080), At(19725, 1080)];
    assert WeeklyBatch(19723, 19730, days, 1080) == [At(19723, 1080), At(19725, 1080), At(19730, 1080)];
    assert WeeklyBatch(19723, 19731, days, 1080) == [At(19723, 1080), At(19725, 1080), At(19730, 1080)];
    assert WeeklyBatch(19723, 19732, days, 1080) == [At(19723, 1080), At(19725, 1080), At(19730, 1080), At(19732, 1080)];
    assert WeeklyBatch(19723, 19733, days, 1080) == WeeklyBatch(19723, 19732, days, 1080);
    assert WeeklyBatch(19723, 19734, days, 1080) == WeeklyBatch(19723, 19732, days, 1080);
    assert WeeklyBatch(19723, 19735, days, 1080) == WeeklyBatch(19723, 19732, days, 1080);
  }

  // ---------------------------------------------------------------------------
  // Fixed daily grid

  /** The slot step as written: any non-zero session length is the step, 90 otherwise. */
  function GridStepAsWritten(sessionLength: Option<int>): (step: int)
    ensures step != 0
    ensures step < 0 <==> sessionLength.Some? && sessionLength.value < 0
    ensures sessionLength.Some? && sessionLength.value > 0 ==> step == sessionLength.value
  {
    if sessionLength.Some? && sessionLength.value != 0 then sessionLength.value else 90
  }

  /** With any negative session length the slot loop never leaves: after
      any number of steps the cursor is still at or below the last start. */
  lemma GridLoopNeverEnds(first: int, last: int, n: int, k: nat)
    requires first <= last && n < 0
    ensures first + k * GridStepAsWritten(Some(n)) <= last
  {
    assert GridStepAsWritten(Some(n)) == n;
    MulNonPositive(k, n);
  }

  lemma MulNonPositive(k: nat, n: int)
    requires n < 0
    ensures k * n <= 0
  {
  }

  /** The step the grid uses: the session length when it is positive, 90 otherwise.
      It agrees with the step as written whenever that one is positive. */
  function GridStep(sessionLength: Option<int>): (step: int)
    ensures step > 0
    ensures GridStepAsWritten(sessionLength) > 0 ==> step == GridStepAsWritten(sessionLength)
    ensures sessionLength.None? || sessionLength == Some(0) ==> step == 90
  {
    if sessionLength.Some? && sessionLength.value > 0 then sessionLength.value else 90
  }

  /** The slots of one day: `m` from the current minute up to `last`, by `step`. */
  function DaySlots(day: int, m: nat, last: int, step: int): seq<int>
    requires step > 0
    decreases if m <= last then last - m + 1 else 0
  {
    if m > last then [] else [MinutesToInstant(day, m)] + DaySlots(day, m + step, last, step)
  }

  /** The batch `generateFixedAllWeek` collects: each day of [firstDay, lastDay] in turn, its slots in order. */
  function GridBatch(firstDay: int, lastDay: int, first: nat, last: int, step: int): seq<int>
    requires step > 0
    decreases if lastDay < firstDay then 0 else lastDay - firstDay + 1
  {
    if lastDay < firstDay then []
    else GridBatch(firstDay, lastDay - 1, first, last, step) + DaySlots(lastDay, first, last, step)
  }

  /** The two nested loops of `generateFixedAllWeek`. */
  method CollectGrid(firstDay: int, lastDay: int, first: nat, last: int, step: int) returns (results: seq<int>)
    requires step > 0
    ensures results == GridBatch(firstDay, lastDay, first, last, step)
  {
    results := [];
    var cur := firstDay;
    while cur <= lastDay
      invariant firstDay <= cur && (cur <= lastDay + 1 || cur == firstDay)
      invariant results == GridBatch(firstDay, cur - 1, first, last, step)
      decreases lastDay - cur
    {
      ghost var before := results;
      var m: nat := first;
      while m <= last
        invariant first <= m
        invariant results + DaySlots(cur, m, last, step) == before + DaySlots(cur, first, last, step)
        decreases last - m + 1
      {
        results := results + [MinutesToInstant(cur, m)];
        m := m + step;
      }
      cur := cur + 1;
    }
  }

  /** A day gets `(last - first) div step + 1` slots, none when `last < first`. */
  lemma {:induction false} DaySlotsCount(day: int, first: nat, last: int, step: int)
    requires step > 0
    ensures first <= last ==> |DaySlots(day, first, last, step)| == (last - first) / step + 1
    ensures first > last ==> DaySlots(day, first, last, step) == []
    decreases if first <= last then last - first + 1 else 0
  {
    if first <= last {
      DaySlotsCount(day, first + step, last, step);
      if first + step <= last {
        assert (last - first) / step == (last - (first + step)) / step + 1 by {
          DivStep(last - first, step);
        }
      } else {
        assert (last - first) / step == 0;
      }
    }
  }

  lemma DivStep(x: int, step: int)
    requires step > 0 && x >= step
    ensures x / step == (x - step) / step + 1
  {
    var q, r := x / step, x % step;
    var q', r' := (x - step) / step, (x - step) % step;
    var a := q - (q' + 1);
    assert a * step == q * step - (q' + 1) * step;
    assert a * step == r' - r;
    if a >= 1 {
      MulAtLeast(a, step);
    } else if a <= -1 {
      MulAtLeast(-a, step);
    }
  }

  lemma {:induction false} MulAtLeast(a: int, step: int)
    requires a >= 1 && step > 0
    ensures a * step >= step
    decreases a
  {
    if a > 1 {
      MulAtLeast(a - 1, step);
      assert a * step == (a - 1) * step + step;
    }
  }

  /** Slot `i` of a day is `first + i * step` minutes after its midnight. */
  lemma {:induction false} DaySlotAt(day: int, first: nat, last: int, step: int, i: nat)
    requires step > 0
    requires i < |DaySlots(day, first, last, step)|
    ensures DaySlots(day, first, last, step)[i] == At(day, first + i * step)
    ensures first + i * step <= last
    decreases i
  {
    if i > 0 {
      DaySlotAt(day, first + step, last, step, i - 1);
      assert first + step + (i - 1) * step == first + i * step;
    }
  }

  /** `last` itself is a slot whenever the steps reach it exactly. */
  lemma LastSlotIncluded(day: int, first: nat, last: int, step: int)
    requires step > 0 && first <= last && (last - first) % step == 0
    ensures At(day, last) in DaySlots(day, first, last, step)
  {
    var k := (last - first) / step;
    DaySlotsCount(day, first, last, step);
    DaySlotAt(day, first, last, step, k);
    assert first + k * step == last;
  }

  /** Every day of the range gets the same number of slots. */
  lemma {:induction false} GridCount(firstDay: int, lastDay: int, first: nat, last: int, step: int)
    requires step > 0 && firstDay <= lastDay + 1 && first <= last
    ensures |GridBatch(firstDay, lastDay, first, last, step)| == (lastDay - firstDay + 1) * ((last - first) / step + 1)
    decreases lastDay - firstDay + 1
  {
    if lastDay >= firstDay {
      GridCount(firstDay, lastDay - 1, first, last, step);
      DaySlotsCount(lastDay, first, last, step);
      var c := (last - first) / step + 1;
      assert (lastDay - firstDay + 1) * c == (lastDay - 1 - firstDay + 1) * c + c;
    }
  }

  /** One day, first start 12:00, last start 13:00, 30-minute sessions: 12:00, 12:30 and 13:00. */
  lemma GridExample(day: int)
    ensures GridBatch(day, day, 720, 780, 30) == [At(day, 720), At(day, 750), At(day, 780)]
  {
    assert DaySlots(day, 810, 780, 30) == [];
    assert DaySlots(day, 780, 780, 30) == [At(day, 780)];
    assert DaySlots(day, 750, 780, 30) == [At(day, 750), At(day, 780)];
    assert GridBatch(day, day - 1, 720, 780, 30) == [];
  }

  // ---------------------------------------------------------------------------
  // Room availability

  /** The `roomId` prop: absent, a plain identifier, or a room object. */
  datatype RoomRef = NoRoom | RoomText(s: string) | RoomObject(oid: string, id: string)

  /** The room id a room reference gives: an object's `_id`, else its `id`, else ""; a plain id as it is. */
  function RoomIdOf(r: RoomRef): (rid: string)
    ensures r.NoRoom? ==> rid == ""
    ensures r.RoomText? ==> rid == r.s
    ensures r.RoomObject? ==> rid == (if r.oid != "" then r.oid else r.id)
  {
    match r
    case NoRoom => ""
    case RoomText(s) => s
    case RoomObject(oid, id) => if oid != "" then oid else id
  }

  /** What one availability query gives back: an answer, or a failure. */
  datatype Answer = Answered(available: bool) | QueryFailed

  /** The oracle: may room `rid` be used in [start, end)? Deterministic here. */
  type Oracle = (string, int, int) -> Answer

  /** A session conflicts unless the oracle says plainly that the room is free. */
  function Conflict(a: Answer): (c: bool)
    ensures c <==> !(a.Answered? && a.available)
  {
    a.QueryFailed? || !a.available
  }

  /** The loop of `checkRoomAvailability`: one query per listed session, each
      answer stored under the session's instant. */
  method FillConflicts(list: seq<int>, rid: string, len: int, oracle: Oracle) returns (next: map<int, bool>)
    ensures forall t :: t in next <==> t in list
    ensures forall t :: t in list ==> next[t] == Conflict(oracle(rid, t, t + len))
  {
    next := map[];
    for i := 0 to |list|
      invariant forall t :: t in next <==> t in list[..i]
      invariant forall t :: t in next ==> next[t] == Conflict(oracle(rid, t, t + len))
    {
      var t := list[i];
      next := next[t := Conflict(oracle(rid, t, t + len))];
    }
    assert list[..|list|] == list;
  }

  /** The badge shown next to a session: nothing until a check has answered
      for it, then "conflict" or "ok". */
  function ConflictBadge(conflicts: map<int, bool>, t: int): (badge: string)
    ensures t !in conflicts ==> badge == ""
    ensures t in conflicts ==> badge == (if conflicts[t] then "conflict" else "ok")
  {
    if t !in conflicts then "" else if conflicts[t] then "conflict" else "ok"
  }

  // ---------------------------------------------------------------------------
  // arraysEqual

  /** `arraysEqual`: same length and equal element by element. */
  method ArraysEqual(a: seq<int>, b: seq<int>) returns (eq: bool)
    ensures eq <==> |a| == |b| && forall i :: 0 <= i < |a| ==> a[i] == b[i]
    ensures eq <==> a == b
  {
    if |a| != |b| {
      return false;
    }
    var i := 0;
    while i < |a|
      invariant 0 <= i <= |a|
      invariant forall k :: 0 <= k < i ==> a[k] == b[k]
    {
      if a[i] != b[i] {
        return false;
      }
      i := i + 1;
    }
    return true;
  }

  // ---------------------------------------------------------------------------
  // The builder

  class Builder {
    /** The session list. */
    var list: seq<int>
    /** The last completed conflict check, by instant. */
    var conflicts: map<int, bool>
    /** A conflict check is running. */
    var checking: bool
    /** Every list handed to the parent's `onChange`, oldest first. */
    var emitted: seq<seq<int>>

    /** The list is always ascending, and no check is left running between events. */
    ghost predicate Valid()
      reads this
    {
      Sorted(list) && !checking
    }

    /** Mounting: the list starts as a copy of the parent's schedule, which the
        parent hears back at once; the sync effect then sorts it, and the
        parent hears the sorted list too unless the schedule was sorted already. */
    constructor (schedule: seq<int>)
      ensures Valid()
      ensures list == SortAsc(schedule) && conflicts == map[] && !checking
      ensures emitted == if SortAsc(schedule) == schedule then [schedule] else [schedule, SortAsc(schedule)]
    {
      list := schedule;
      conflicts := map[];
      checking := false;
      emitted := [schedule];
      var next := SortAsc(schedule);
      var same := ArraysEqual(schedule, next);
      if !same {
        list := next;
        emitted := emitted + [next];
      }
    }

    /** The parent supplied a schedule: adopt its sorted copy unless it equals the list by value. */
    method SyncFromParent(schedule: seq<int>)
      requires Valid()
      modifies this
      ensures Valid()
      ensures list == SortAsc(schedule)
      ensures conflicts == old(conflicts) && checking == old(checking)
      ensures old(list) == SortAsc(schedule) ==> emitted == old(emitted)
      ensures old(list) != SortAsc(schedule) ==> emitted == old(emitted) + [list]
    {
      var next := SortAsc(schedule);
      var same := ArraysEqual(list, next);
      if !same {
        list := next;
        emitted := emitted + [list];
      }
    }

    /** `addSession`: an empty or unreadable input is ignored; otherwise the instant is merged in. */
    method AddSession(dt: Option<int>)
      requires Valid()
      modifies this
      ensures Valid()
      ensures dt.None? ==> list == old(list) && emitted == old(emitted)
      ensures dt.Some? ==> list == Dedupe(old(list) + [dt.value]) && emitted == old(emitted) + [list]
      ensures dt.Some? ==> dt.value in list && forall y :: y in old(list) ==> y in list
      ensures conflicts == old(conflicts) && checking == old(checking)
    {
      if dt.None? {
        return;
      }
      list := Dedupe(list + [dt.value]);
      emitted := emitted + [list];
      StrictlyIsSorted(list);
    }

    /** `removeSession`: every occurrence of `t` goes, everything else stays in order. */
    method RemoveSession(t: int)
      requires Valid()
      modifies this
      ensures Valid()
      ensures list == Filter(old(list), x => x != t) && t !in list
      ensures t !in old(list) ==> list == old(list)
      ensures emitted == old(emitted) + [list]
      ensures conflicts == old(conflicts) && checking == old(checking)
    {
      var was := list;
      list := Filter(list, x => x != t);
      emitted := emitted + [list];
      FilterKeepsSorted(was, x => x != t);
      if t !in was {
        FilterAll(was, x => x != t);
      }
    }

    /** `generateWeekly`. Missing dates, an inverted range or no selected
        weekday leave everything as it is; so does a batch that comes out empty. */
    method GenerateWeekly(startDate: Option<int>, endDate: Option<int>, recDays: set<int>, recTime: string)
      requires Valid()
      modifies this
      ensures Valid()
      ensures conflicts == old(conflicts) && checking == old(checking)
      ensures var batch := if startDate.Some? && endDate.Some?
                           then WeeklyBatch(startDate.value, endDate.value, recDays, ParseTimeToMinutes(recTime))
                           else [];
              if startDate.None? || endDate.None? || endDate.value < startDate.value || recDays == {} || batch == []
              then list == old(list) && emitted == old(emitted)
              else list == Dedupe(old(list) + batch) && emitted == old(emitted) + [list]
    {
      if startDate.None? || endDate.None? {
        return;
      }
      var first, last := startDate.value, endDate.value;
      if last < first {
        return;
      }
      if recDays == {} {
        return;
      }
      var results := CollectWeekly(first, last, recDays, ParseTimeToMinutes(recTime));
      if |results| > 0 {
        list := Dedupe(list + results);
        emitted := emitted + [list];
        StrictlyIsSorted(list);
      }
    }

    /** `generateFixedAllWeek`, with the step taken from `GridStep`. Missing
        dates, an inverted date range or a last start before the first start
        leave everything as it is. */
    method GenerateFixedAllWeek(gridStartDate: Option<int>, gridEndDate: Option<int>,
                                firstStart: string, lastStart: string, sessionLength: Option<int>)
      requires Valid()
      modifies this
      ensures Valid()
      ensures conflicts == old(conflicts) && checking == old(checking)
      ensures var first := ParseTimeToMinutes(firstStart);
              var last := ParseTimeToMinutes(lastStart);
              if gridStartDate.None? || gridEndDate.None? || gridEndDate.value < gridStartDate.value || last < first
              then list == old(list) && emitted == old(emitted)
              else list == Dedupe(old(list) + GridBatch(gridStartDate.value, gridEndDate.value, first, last, GridStep(sessionLength)))
                   && emitted == old(emitted) + [list]
    {
      if gridStartDate.None? || gridEndDate.None? {
        return;
      }
      var firstDay, lastDay := gridStartDate.value, gridEndDate.value;
      if lastDay < firstDay {
        return;
      }
      var step := GridStep(sessionLength);
      var first := ParseTimeToMinutes(firstStart);
      var last := ParseTimeToMinutes(lastStart);
      if last < first {
        return;
      }
      var results := CollectGrid(firstDay, lastDay, first, last, step);
      GridCount(firstDay, lastDay, first, last, step);
      assert |results| > 0;
      list := Dedupe(list + results);
      emitted := emitted + [list];
      StrictlyIsSorted(list);
    }

    /** `checkRoomAvailability`. Without a room id, with a zero or unreadable
        session length, or with no sessions nothing happens; otherwise the
        conflict map is replaced by one answer per listed session and the
        check is over again when the method returns. */
    method CheckRoomAvailability(roomId: RoomRef, sessionLength: Option<int>, oracle: Oracle)
      requires Valid()
      modifies this
      ensures Valid()
      ensures list == old(list) && emitted == old(emitted) && checking == old(checking)
      ensures var rid := RoomIdOf(roomId);
              if rid == "" || sessionLength.None? || sessionLength.value == 0 || list == []
              then conflicts == old(conflicts)
              else (forall t :: t in conflicts <==> t in list)
                   && forall t :: t in list ==> conflicts[t] == Conflict(oracle(rid, t, t + sessionLength.value))
    {
      var rid := RoomIdOf(roomId);
      if rid == "" || sessionLength.None? || sessionLength.value == 0 || list == [] {
        return;
      }
      checking := true;
      var next := FillConflicts(list, rid, sessionLength.value, oracle);
      conflicts := next;
      checking := false;
    }
  }

  lemma StrictlyIsSorted(s: seq<int>)
    requires StrictlySorted(s)
    ensures Sorted(s)
  {
  }

  lemma {:induction false} FilterKeepsSorted(s: seq<int>, p: int -> bool)
    requires Sorted(s)
    ensures Sorted(Filter(s, p))
  {
    if s != [] {
      SortedTail(s);
      FilterKeepsSorted(s[1..], p);
      var rest := Filter(s[1..], p);
      forall k | 0 <= k < |rest|
        ensures s[0] <= rest[k]
      {
        assert rest[k] in s[1..];
      }
      ConsSorted(s[0], rest);
    }
  }
}
