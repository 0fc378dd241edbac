/**
 Slot generation: a cursor walks through each day's windows in steps of the service's duration and keeps
 the starts whose buffered block fits the window and meets nothing that blocks the provider.
 */
module Slots {
  import opened Options
  import opened Calendar

  const MAX_QUERY_DAYS := 31

  datatype Slot = Slot(start: int, end: int)

  datatype Timing = Timing(duration: Positive, before: nat, after: nat)

  /**
   The organization's time zone: the instant of a local wall-clock tick (day number times `DAY` plus the
   time of day), and the local day of an instant.
   */
  datatype Zone = Zone(utc: int -> int, dayOf: int -> int)

  /** Local time runs forward over the days `first` up to `last`, midnight after `last` included. */
  ghost predicate Increasing(zone: Zone, first: int, last: int) {
    forall a, b {:trigger zone.utc(a), zone.utc(b)} :: first * DAY <= a < b <= (last + 1) * DAY
        ==> zone.utc(a) < zone.utc(b)
  }

  predicate InDay(zone: Zone, day: int, t: int) {
    zone.utc(day * DAY) <= t < zone.utc((day + 1) * DAY)
  }

  /** The day number of an instant is the day whose midnights enclose it. */
  ghost predicate DaysAgree(zone: Zone) {
    forall d, t :: InDay(zone, d, t) ==> zone.dayOf(t) == d
  }

  /** Wall-clock time runs forward, and the day of an instant is the day whose midnights enclose it. */
  ghost predicate ForwardZone(zone: Zone) {
    DaysAgree(zone) && forall first, last :: Increasing(zone, first, last)
  }

  // ----- Service timing -------------------------------------------------------------------------

  function FindAssignment(assignments: seq<Assignment>, provider: int, service: int): (r: Option<Assignment>)
    ensures r.Some? <==> IsAssigned(assignments, provider, service)
  {
    if assignments == [] then None
    else
      var last := assignments[|assignments| - 1];
      if last.provider == provider && last.service == service then Some(last)
      else FindAssignment(assignments[..|assignments| - 1], provider, service)
  }

  /** The provider works at this active location of its own organization. */
  predicate PlacedAt(cat: Catalogue, provider: int, location: int)
    requires provider in cat.providers
  {
    && location in cat.locations && cat.locations[location].isActive
    && cat.locations[location].organization == cat.providers[provider].organization
    && (provider, location) in cat.providerLocations
  }

  /** An active service of the provider's organization, assigned to the provider and offered at the location. */
  predicate Bookable(cat: Catalogue, provider: int, location: int, service: int)
    requires provider in cat.providers
  {
    && service in cat.services && cat.services[service].isActive
    && cat.services[service].organization == cat.providers[provider].organization
    && IsAssigned(cat.assignments, provider, service)
    && (service, location) in cat.serviceLocations
  }

  /** An assignment may override the service's duration. */
  function OwnDuration(a: Assignment, s: Service): Positive {
    if a.duration.Some? then a.duration.value else s.duration
  }

  function ResolveTiming(cat: Catalogue, provider: int, location: int, service: Option<int>): (r: Result<Timing>)
    ensures r.Ok? && service.Some? ==>
              && service.value in cat.services && IsAssigned(cat.assignments, provider, service.value)
              && r.value.before == cat.services[service.value].before
              && r.value.after == cat.services[service.value].after
    ensures r.Ok? && service.None? ==> r.value.before == 0 && r.value.after == 0
  {
    if provider !in cat.providers then Err(NotFound)
    else if location !in cat.locations || !cat.locations[location].isActive then Err(NotFound)
    else if cat.locations[location].organization != cat.providers[provider].organization then Err(Mismatch)
    else if (provider, location) !in cat.providerLocations then Err(Invalid)
    else if service.None? then Ok(Timing(cat.providers[provider].duration, 0, 0))
    else if service.value !in cat.services || !cat.services[service.value].isActive then Err(NotFound)
    else
      var s := cat.services[service.value];
      var assignment := FindAssignment(cat.assignments, provider, service.value);
      if s.organization != cat.providers[provider].organization then Err(Mismatch)
      else if assignment.None? then Err(Invalid)
      else if (service.value, location) !in cat.serviceLocations then Err(Invalid)
      else
        Ok(Timing(OwnDuration(assignment.value, s), s.before, s.after))
  }

  lemma {:induction false} FoundAssignment(assignments: seq<Assignment>, provider: int, service: int)
    requires IsAssigned(assignments, provider, service)
    ensures FindAssignment(assignments, provider, service).Some?
    ensures var a := FindAssignment(assignments, provider, service).value;
            a in assignments && a.provider == provider && a.service == service
  {
    var n := |assignments| - 1;
    if !(assignments[n].provider == provider && assignments[n].service == service) {
      FoundAssignment(assignments[..n], provider, service);
    }
  }

  /** When a timing resolves, and to what: the provider's own without a service, else the assignment's or service's. */
  lemma TimingExact(cat: Catalogue, provider: int, location: int, service: Option<int>)
    ensures ResolveTiming(cat, provider, location, service).Ok? <==>
            && provider in cat.providers && PlacedAt(cat, provider, location)
            && (service.Some? ==> Bookable(cat, provider, location, service.value))
    ensures var r := ResolveTiming(cat, provider, location, service);
            r.Ok? ==>
              if service.None? then r.value == Timing(cat.providers[provider].duration, 0, 0)
              else
                exists a :: a in cat.assignments && a.provider == provider && a.service == service.value
                  && var s := cat.services[service.value];
                     r.value == Timing(if a.duration.Some? then a.duration.value else s.duration, s.before, s.after)
  {
    if service.Some? && IsAssigned(cat.assignments, provider, service.value) {
      FoundAssignment(cat.assignments, provider, service.value);
    }
  }

  // ----- Day windows ----------------------------------------------------------------------------

  function Weekday(day: int): int {
    (day + 6) % 7
  }

  function WeeklyWindows(rows: seq<Availability>, provider: int, weekday: int): seq<Window> {
    if rows == [] then []
    else
      var before, last := WeeklyWindows(rows[..|rows| - 1], provider, weekday), rows[|rows| - 1];
      if last.provider == provider && last.weekday == weekday && last.isActive then before + [last.window] else before
  }

  lemma {:induction false} WeeklyWindowsExact(rows: seq<Availability>, provider: int, weekday: int, w: Window)
    ensures w in WeeklyWindows(rows, provider, weekday) <==> Availability(provider, weekday, w, true) in rows
  {
    if rows != [] {
      var n := |rows| - 1;
      WeeklyWindowsExact(rows[..n], provider, weekday, w);
      assert rows == rows[..n] + [rows[n]];
    }
  }

  function OverrideWindows(rows: seq<DateOverride>, provider: int, day: int): seq<Window> {
    if rows == [] then []
    else
      var before, last := OverrideWindows(rows[..|rows| - 1], provider, day), rows[|rows| - 1];
      if last.provider == provider && last.date == day && last.isActive && last.hours.Some?
      then before + [last.hours.value] else before
  }

  lemma {:induction false} OverrideWindowsExact(rows: seq<DateOverride>, provider: int, day: int, w: Window)
    ensures w in OverrideWindows(rows, provider, day) <==> DateOverride(provider, day, Some(w), true) in rows
  {
    if rows != [] {
      var n := |rows| - 1;
      OverrideWindowsExact(rows[..n], provider, day, w);
      assert rows == rows[..n] + [rows[n]];
    }
  }

  predicate Closed(rows: seq<DateOverride>, provider: int, day: int) {
    exists i :: 0 <= i < |rows| && rows[i] == DateOverride(provider, day, None, true)
  }

  /** An unavailable override empties the day; other active overrides replace the weekly windows. */
  function DayWindows(cat: Catalogue, provider: int, day: int): seq<Window> {
    var overrides := OverrideWindows(cat.overrides, provider, day);
    if Closed(cat.overrides, provider, day) then []
    else if overrides != [] then overrides
    else WeeklyWindows(cat.availabilities, provider, Weekday(day))
  }

  // ----- What blocks ----------------------------------------------------------------------------

  /** One call's fixed inputs: the tables, and the span of instants it prefilters with. */
  datatype Query = Query(cat: Catalogue, appointments: seq<Appointment>, provider: int, span: Interval, timing: Timing)

  function ListTimeOff(rows: seq<TimeOff>, provider: int, span: Interval): (r: seq<Interval>)
    ensures forall b :: b in r <==>
              exists i :: 0 <= i < |rows| && rows[i] == TimeOff(provider, b) && b.end > span.start && b.start < span.end
  {
    if rows == [] then []
    else
      var before, last := ListTimeOff(rows[..|rows| - 1], provider, span), rows[|rows| - 1];
      if last.provider == provider && last.span.end > span.start && last.span.start < span.end
      then before + [last.span] else before
  }

  predicate TimeOffMeets(rows: seq<TimeOff>, provider: int, span: Interval, block: Interval) {
    exists i :: 0 <= i < |rows| && rows[i].provider == provider
      && rows[i].span.end > span.start && rows[i].span.start < span.end && Overlaps(block, rows[i].span)
  }

  /** Blocked according to the prefiltered tables. */
  predicate Blocked(q: Query, block: Interval) {
    || TimeOffMeets(q.cat.timeOffs, q.provider, q.span, block)
    || exists i :: 0 <= i < |q.appointments|
         && InQuery(q.appointments[i], q.provider, Widened(q.span, MaxProviderBuffers(q.cat, q.provider)))
         && Overlaps(block, OwnBlock(q.appointments[i], q.cat.services))
  }

  /** Blocked according to the whole tables. */
  predicate FullyBlocked(cat: Catalogue, appointments: seq<Appointment>, provider: int, block: Interval) {
    || (exists i ::
            0 <= i < |cat.timeOffs| && cat.timeOffs[i].provider == provider && Overlaps(block, cat.timeOffs[i].span))
    || ScanOverlap(cat, appointments, provider, block, None)
  }

  lemma PrefilterExact(q: Query, block: Interval)
    requires q.span.start <= block.start && block.end <= q.span.end
    ensures BuffersCovered(q.cat, q.appointments, q.provider)
            ==> (Blocked(q, block) <==> FullyBlocked(q.cat, q.appointments, q.provider, block))
  {
    if BuffersCovered(q.cat, q.appointments, q.provider) {
      forall i | 0 <= i < |q.appointments| && BlockingFor(q.appointments[i], q.provider)
                 && Overlaps(block, OwnBlock(q.appointments[i], q.cat.services))
        ensures InQuery(q.appointments[i], q.provider, Widened(q.span, MaxProviderBuffers(q.cat, q.provider)))
      {
      }
      forall i | 0 <= i < |q.cat.timeOffs| && Overlaps(block, q.cat.timeOffs[i].span)
        ensures q.cat.timeOffs[i].span.end > q.span.start && q.cat.timeOffs[i].span.start < q.span.end
      {
      }
    }
  }

  // ----- The specification of the slot list -------------------------------------------------------

  function Duration(t: Timing): (d: int)
    ensures d > 0
  {
    t.duration * MINUTE
  }

  function SlotAt(t: Timing, cursor: int): Slot {
    Slot(cursor, cursor + Duration(t))
  }

  function BlockOf(t: Timing, s: Slot): Interval {
    BlockedInterval(Interval(s.start, s.end), t.before, t.after)
  }

  function SlotsFrom(q: Query, cursor: int, windowEnd: int): seq<Slot>
    decreases windowEnd - cursor
  {
    var s := SlotAt(q.timing, cursor);
    var block := BlockOf(q.timing, s);
    if block.end > windowEnd then []
    else
      var later := SlotsFrom(q, s.end, windowEnd);
      if Blocked(q, block) then later else [s] + later
  }

  function WindowSlots(q: Query, zone: Zone, day: int, w: Window): seq<Slot> {
    SlotsFrom(q, zone.utc(day * DAY + w.start) + q.timing.before * MINUTE, zone.utc(day * DAY + w.end))
  }

  function WindowsSlots(q: Query, zone: Zone, day: int, windows: seq<Window>): seq<Slot> {
    if windows == [] then []
    else WindowsSlots(q, zone, day, windows[..|windows| - 1]) + WindowSlots(q, zone, day, windows[|windows| - 1])
  }

  function DaySlots(q: Query, zone: Zone, day: int): seq<Slot> {
    WindowsSlots(q, zone, day, DayWindows(q.cat, q.provider, day))
  }

  /** The slots of the days from `first` up to but not including `end`. */
  function DaysSlots(q: Query, zone: Zone, first: int, end: int): seq<Slot>
    decreases end - first
  {
    if end <= first then [] else DaysSlots(q, zone, first, end - 1) + DaySlots(q, zone, end - 1)
  }

  function RangeSpan(zone: Zone, first: int, last: int): Interval {
    Interval(zone.utc(first * DAY), zone.utc((last + 1) * DAY))
  }

  function InsertSlot(x: Slot, s: seq<Slot>): (r: seq<Slot>)
    ensures multiset(r) == multiset(s) + multiset{x}
  {
    if s == [] || x.start <= s[0].start then [x] + s
    else
      assert s == [s[0]] + s[1..];
      [s[0]] + InsertSlot(x, s[1..])
  }

  /** The library's stable sort by start. */
  function SortByStart(s: seq<Slot>): (r: seq<Slot>)
    ensures multiset(r) == multiset(s)
  {
    if s == [] then []
    else
      assert s == [s[0]] + s[1..];
      InsertSlot(s[0], SortByStart(s[1..]))
  }

  function AvailableSlots(cat: Catalogue, appointments: seq<Appointment>, zone: Zone, provider: int, location: int,
                          first: int, last: int, service: Option<int>): Result<seq<Slot>>
  {
    if last < first then Err(Invalid)
    else if last - first + 1 > MAX_QUERY_DAYS then Err(Invalid)
    else if provider !in cat.providers then Err(NotFound)
    else if !cat.providers[provider].isActive then Ok([])
    else
      var timing := ResolveTiming(cat, provider, location, service);
      if timing.Err? then Err(timing.error)
      else
        Ok(SortByStart(DaysSlots(Query(cat, appointments, provider, RangeSpan(zone, first, last), timing.value),
                                 zone, first, last + 1)))
  }

  /** The slot is in the list for the days `first` to `last`. */
  predicate OnList(cat: Catalogue, appointments: seq<Appointment>, zone: Zone, provider: int, location: int,
                   first: int, last: int, service: Option<int>, s: Slot)
  {
    var r := AvailableSlots(cat, appointments, zone, provider, location, first, last, service);
    r.Ok? && s in r.value
  }

  // ----- The loops ------------------------------------------------------------------------------

  /** `blocked` stands for the query's prefiltered tables. */
  ghost predicate Represents(blocked: seq<Interval>, q: Query) {
    forall block :: Blocked(q, block) <==> Meets(blocked, block)
  }

  predicate Meets(blocked: seq<Interval>, block: Interval) {
    exists n :: 0 <= n < |blocked| && Overlaps(block, blocked[n])
  }

  /** The list of intervals a query subtracts: time off first, then appointments with their own buffers. */
  method BlockedIntervals(q: Query) returns (blocked: seq<Interval>)
    ensures Represents(blocked, q)
  {
    var offs := ListTimeOff(q.cat.timeOffs, q.provider, q.span);
    var rows := RelevantBlocking(q.cat, q.appointments, q.provider, q.span, None);
    var blocks := [];
    for n := 0 to |rows|
      invariant |blocks| == n
      invariant forall m :: 0 <= m < n ==> blocks[m] == OwnBlock(rows[m], q.cat.services)
    {
      blocks := blocks + [OwnBlock(rows[n], q.cat.services)];
    }
    blocked := offs + blocks;
    ListsRepresent(q, blocks);
  }

  lemma ListsRepresent(q: Query, blocks: seq<Interval>)
    requires var rows := RelevantBlocking(q.cat, q.appointments, q.provider, q.span, None);
             |blocks| == |rows| && forall m :: 0 <= m < |rows| ==> blocks[m] == OwnBlock(rows[m], q.cat.services)
    ensures Represents(ListTimeOff(q.cat.timeOffs, q.provider, q.span) + blocks, q)
  {
    var offs := ListTimeOff(q.cat.timeOffs, q.provider, q.span);
    forall block ensures Blocked(q, block) <==> Meets(offs + blocks, block) {
      TimeOffListed(q, block);
      AppointmentsListed(q, blocks, block);
      MeetsEither(offs, blocks, block);
    }
  }

  lemma MeetsEither(a: seq<Interval>, b: seq<Interval>, block: Interval)
    ensures Meets(a + b, block) <==> Meets(a, block) || Meets(b, block)
  {
    if Meets(a, block) {
      var n :| 0 <= n < |a| && Overlaps(block, a[n]);
      assert Overlaps(block, (a + b)[n]);
    }
    if Meets(b, block) {
      var n :| 0 <= n < |b| && Overlaps(block, b[n]);
      assert Overlaps(block, (a + b)[|a| + n]);
    }
  }

  lemma TimeOffListed(q: Query, block: Interval)
    ensures Meets(ListTimeOff(q.cat.timeOffs, q.provider, q.span), block)
            <==> TimeOffMeets(q.cat.timeOffs, q.provider, q.span, block)
  {
    var rows, offs := q.cat.timeOffs, ListTimeOff(q.cat.timeOffs, q.provider, q.span);
    if i :| 0 <= i < |rows| && rows[i].provider == q.provider && rows[i].span.end > q.span.start
            && rows[i].span.start < q.span.end && Overlaps(block, rows[i].span) {
      assert rows[i] == TimeOff(q.provider, rows[i].span);
      assert rows[i].span in offs;
    }
    if n :| 0 <= n < |offs| && Overlaps(block, offs[n]) {
      assert offs[n] in offs;
    }
  }

  lemma AppointmentsListed(q: Query, blocks: seq<Interval>, block: Interval)
    requires var rows := RelevantBlocking(q.cat, q.appointments, q.provider, q.span, None);
             |blocks| == |rows| && forall m :: 0 <= m < |rows| ==> blocks[m] == OwnBlock(rows[m], q.cat.services)
    ensures Meets(blocks, block) <==>
            exists i :: 0 <= i < |q.appointments|
              && InQuery(q.appointments[i], q.provider, Widened(q.span, MaxProviderBuffers(q.cat, q.provider)))
              && Overlaps(block, OwnBlock(q.appointments[i], q.cat.services))
  {
    var rows := RelevantBlocking(q.cat, q.appointments, q.provider, q.span, None);
    var wide := Widened(q.span, MaxProviderBuffers(q.cat, q.provider));
    if i :| 0 <= i < |q.appointments| && InQuery(q.appointments[i], q.provider, wide)
            && Overlaps(block, OwnBlock(q.appointments[i], q.cat.services)) {
      assert q.appointments[i] in rows;
      var m :| 0 <= m < |rows| && rows[m] == q.appointments[i];
      assert Overlaps(block, blocks[m]);
    }
    if n :| 0 <= n < |blocks| && Overlaps(block, blocks[n]) {
      assert rows[n] in rows;
    }
  }

  /** The cursor's walk through one window. */
  method WalkWindow(q: Query, blocked: seq<Interval>, windowStart: int, windowEnd: int) returns (slots: seq<Slot>)
    requires Represents(blocked, q)
    ensures slots == SlotsFrom(q, windowStart + q.timing.before * MINUTE, windowEnd)
  {
    slots := [];
    var cursor := windowStart + q.timing.before * MINUTE;
    ghost var all := SlotsFrom(q, cursor, windowEnd);
    while true
      invariant slots + SlotsFrom(q, cursor, windowEnd) == all
      decreases windowEnd - cursor
    {
      var s := SlotAt(q.timing, cursor);
      var block := BlockOf(q.timing, s);
      if block.end > windowEnd {
        break;
      }
      if !Meets(blocked, block) {
        slots := slots + [s];
      }
      cursor := s.end;
    }
  }

  method GetAvailableSlots(cat: Catalogue, appointments: seq<Appointment>, zone: Zone, provider: int, location: int,
                           first: int, last: int, service: Option<int>)
    returns (r: Result<seq<Slot>>)
    ensures r == AvailableSlots(cat, appointments, zone, provider, location, first, last, service)
  {
    if last < first || last - first + 1 > MAX_QUERY_DAYS {
      return Err(Invalid);
    }
    if provider !in cat.providers {
      return Err(NotFound);
    }
    if !cat.providers[provider].isActive {
      return Ok([]);
    }
    var timing := ResolveTiming(cat, provider, location, service);
    if timing.Err? {
      return Err(timing.error);
    }
    if NoWindows(cat, provider, first, last) {
      NoWindowsNoSlots(Query(cat, appointments, provider, RangeSpan(zone, first, last), timing.value), zone, first,
                       last, last + 1);
      return Ok([]);
    }
    var q := Query(cat, appointments, provider, RangeSpan(zone, first, last), timing.value);
    var blocked := BlockedIntervals(q);
    var slots := WalkDays(q, blocked, zone, first, last);
    return Ok(SortByStart(slots));
  }

  lemma NextDay(q: Query, zone: Zone, first: int, day: int)
    requires first <= day
    ensures DaysSlots(q, zone, first, day + 1) == DaysSlots(q, zone, first, day) + DaySlots(q, zone, day)
  {
  }

  method WalkDays(q: Query, blocked: seq<Interval>, zone: Zone, first: int, last: int) returns (slots: seq<Slot>)
    requires Represents(blocked, q) && first <= last
    ensures slots == DaysSlots(q, zone, first, last + 1)
  {
    slots := [];
    var day := first;
    while day <= last
      invariant first <= day <= last + 1
      invariant slots == DaysSlots(q, zone, first, day)
    {
      var found := WalkDay(q, blocked, zone, day);
      NextDay(q, zone, first, day);
      slots := slots + found;
      day := day + 1;
    }
  }

  lemma NextWindow(q: Query, zone: Zone, day: int, windows: seq<Window>, n: nat)
    requires n < |windows|
    ensures WindowsSlots(q, zone, day, windows[..n + 1])
            == WindowsSlots(q, zone, day, windows[..n]) + WindowSlots(q, zone, day, windows[n])
  {
    assert windows[..n + 1][..n] == windows[..n];
  }

  method WalkDay(q: Query, blocked: seq<Interval>, zone: Zone, day: int) returns (slots: seq<Slot>)
    requires Represents(blocked, q)
    ensures slots == DaySlots(q, zone, day)
  {
    var windows := DayWindows(q.cat, q.provider, day);
    slots := [];
    for n := 0 to |windows|
      invariant slots == WindowsSlots(q, zone, day, windows[..n])
    {
      NextWindow(q, zone, day, windows, n);
      var found := WalkWindow(q, blocked, zone.utc(day * DAY + windows[n].start), zone.utc(day * DAY + windows[n].end));
      slots := slots + found;
    }
    assert windows[..|windows|] == windows;
  }

  /** The early exit: no active weekly row at all, and no active override in the range. */
  predicate NoWindows(cat: Catalogue, provider: int, first: int, last: int) {
    && (forall i ::
            0 <= i < |cat.availabilities|
            ==> !(cat.availabilities[i].provider == provider && cat.availabilities[i].isActive))
    && (forall i :: 0 <= i < |cat.overrides| ==>
          !(cat.overrides[i].provider == provider && cat.overrides[i].isActive
              && first <= cat.overrides[i].date <= last))
  }

  lemma {:induction false} NoWindowsNoSlots(q: Query, zone: Zone, first: int, last: int, end: int)
    requires NoWindows(q.cat, q.provider, first, last) && end <= last + 1
    ensures DaysSlots(q, zone, first, end) == []
    decreases end - first
  {
    if first < end {
      NoWindowsNoSlots(q, zone, first, last, end - 1);
      NoWindowsThatDay(q.cat, q.provider, first, last, end - 1);
    }
  }

  lemma NoWindowsThatDay(cat: Catalogue, provider: int, first: int, last: int, day: int)
    requires NoWindows(cat, provider, first, last) && first <= day <= last
    ensures DayWindows(cat, provider, day) == []
  {
    var windows := DayWindows(cat, provider, day);
    if windows != [] {
      OverrideWindowsExact(cat.overrides, provider, day, windows[0]);
      WeeklyWindowsExact(cat.availabilities, provider, Weekday(day), windows[0]);
    }
  }
}
