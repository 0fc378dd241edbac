/**
 The hours of a day, the slot list and the checks of a booking, written out on the rows of the tables: minutes are
 ticks, statuses are values, and the weekday is counted from a Monday.
 */
module DayHours {
  import opened Options
  import opened Statuses
  import opened Calendar
  import opened Slots
  import opened SlotTheorems
  import opened Desk

  // ----- The hours of a day ---------------------------------------------------------------------------

  /**
   A closing row empties the day; the hours of the day's own rows replace the weekly ones; otherwise the weekly rows of
   its weekday count. Day 1 is a Monday, and Monday is weekday 0.
   */
  ghost predicate OpenHours(cat: Catalogue, provider: int, day: int, w: Window) {
    && DateOverride(provider, day, None, true) !in cat.overrides
    && if exists v :: DateOverride(provider, day, Some(v), true) in cat.overrides
       then DateOverride(provider, day, Some(w), true) in cat.overrides
       else
         exists k :: 0 <= k <= 6 && (day - 1 - k) % 7 == 0 && Availability(provider, k, w, true) in cat.availabilities
  }

  lemma WeekdayOf(day: int, k: int)
    requires 0 <= k <= 6
    ensures Weekday(day) == k <==> (day - 1 - k) % 7 == 0
  {
  }

  lemma DayWindowsExact(cat: Catalogue, provider: int, day: int, w: Window)
    ensures w in DayWindows(cat, provider, day) <==> OpenHours(cat, provider, day, w)
  {
    var overrides := OverrideWindows(cat.overrides, provider, day);
    OverrideWindowsExact(cat.overrides, provider, day, w);
    WeeklyWindowsExact(cat.availabilities, provider, Weekday(day), w);
    WeekdayOf(day, Weekday(day));
    if overrides != [] {
      OverrideWindowsExact(cat.overrides, provider, day, overrides[0]);
    }
    if v :| DateOverride(provider, day, Some(v), true) in cat.overrides {
      OverrideWindowsExact(cat.overrides, provider, day, v);
    }
    if k :| 0 <= k <= 6 && (day - 1 - k) % 7 == 0 && Availability(provider, k, w, true) in cat.availabilities {
      WeekdayOf(day, k);
    }
  }

  lemma ClosedDayHasNoHours(cat: Catalogue, provider: int, day: int)
    requires DateOverride(provider, day, None, true) in cat.overrides
    ensures DayWindows(cat, provider, day) == []
  {
    assert Closed(cat.overrides, provider, day);
  }

  /** A closed day has no listed slot, whatever its weekly rows and other overrides say. */
  lemma ClosedDayListsNothing(cat: Catalogue, appointments: seq<Appointment>, zone: Zone, provider: int, location: int,
                              first: int, last: int, service: Option<int>, day: int, s: Slot)
    requires Increasing(zone, if day < first then day else first, if day > last then day else last)
    requires DateOverride(provider, day, None, true) in cat.overrides && InDay(zone, day, s.start)
    ensures !OnList(cat, appointments, zone, provider, location, first, last, service, s)
  {
    if OnList(cat, appointments, zone, provider, location, first, last, service, s) {
      var lo, hi := if day < first then day else first, if day > last then day else last;
      var q, d := ListedSomeDay(cat, appointments, zone, provider, location, first, last, service, s);
      DaySlotsWithinDay(q, zone, lo, hi, d, s);
      ClosedDayHasNoHours(cat, provider, day);
      assert d != day;
      if d < day {
        DaysInOrder(zone, lo, hi, d, day);
      } else {
        DaysInOrder(zone, lo, hi, day, d);
      }
      assert false;
    }
  }

  /** Nothing can be booked onto a closed day. */
  lemma ClosedDayIsNotBooked(cat: Catalogue, appointments: seq<Appointment>, zone: Zone, r: Request)
    requires DateOverride(r.provider, zone.dayOf(r.start), None, true) in cat.overrides
    ensures Created(cat, appointments, zone, r).Err?
  {
    if Created(cat, appointments, zone, r).Ok? {
      BookedWasListed(cat, appointments, zone, r);
      var t, day := ResolveTiming(cat, r.provider, r.location, r.service).value, zone.dayOf(r.start);
      var q, d := ListedSomeDay(cat, appointments, zone, r.provider, r.location, day, day, r.service,
                                SlotAt(t, r.start));
      ClosedDayHasNoHours(cat, r.provider, day);
      assert false;
    }
  }

  // ----- The slot list ----------------------------------------------------------------------------------

  /** PENDING, PENDING_PAYMENT and CONFIRMED appointments occupy their provider. */
  predicate Occupies(a: Appointment, provider: int) {
    a.provider == provider && (a.status == Pending || a.status == PendingPayment || a.status == Confirmed)
  }

  /** The ticks from `from` up to `to` meet the appointment's time with its own service's buffers. */
  predicate MeetsRow(cat: Catalogue, a: Appointment, from: int, to: int) {
    var known := a.service.Some? && a.service.value in cat.services;
    var before := if known then cat.services[a.service.value].before else 0;
    var after := if known then cat.services[a.service.value].after else 0;
    from < a.visible.end + 60_000_000 * after && a.visible.start - 60_000_000 * before < to
  }

  /** No time off and no occupying appointment meets the ticks from `from` up to `to`. */
  predicate FreeTime(cat: Catalogue, appointments: seq<Appointment>, provider: int, from: int, to: int) {
    && (forall i :: 0 <= i < |cat.timeOffs| && cat.timeOffs[i].provider == provider ==>
          to <= cat.timeOffs[i].span.start || cat.timeOffs[i].span.end <= from)
    && (forall i :: 0 <= i < |appointments| && Occupies(appointments[i], provider) ==>
          !MeetsRow(cat, appointments[i], from, to))
  }

  /** The `k`-th stop in the window `w` of the day; the block with its buffers ends within the window. */
  predicate StopIn(zone: Zone, t: Timing, day: int, w: Window, k: nat, s: Slot) {
    && s.start == zone.utc(86_400_000_000 * day + w.start) + 60_000_000 * t.before + k * (60_000_000 * t.duration)
    && s.end == s.start + 60_000_000 * t.duration
    && s.end + 60_000_000 * t.after <= zone.utc(86_400_000_000 * day + w.end)
  }

  lemma FreeIsUnblocked(cat: Catalogue, appointments: seq<Appointment>, provider: int, block: Interval)
    ensures FreeTime(cat, appointments, provider, block.start, block.end)
            <==> !FullyBlocked(cat, appointments, provider, block)
  {
  }

  lemma StopIsOffered(cat: Catalogue, zone: Zone, provider: int, t: Timing, day: int, w: Window, k: nat, s: Slot)
    ensures OpenHours(cat, provider, day, w) && StopIn(zone, t, day, w, k, s)
            <==> Offered(cat, zone, provider, t, day, w, k, s)
  {
    DayWindowsExact(cat, provider, day, w);
    assert day * DAY == 86_400_000_000 * day && Duration(t) == 60_000_000 * t.duration;
  }

  lemma StopsAreOffered(cat: Catalogue, zone: Zone, provider: int, t: Timing, first: int, last: int, s: Slot)
    ensures (exists day, w, k: nat ::
               first <= day <= last && OpenHours(cat, provider, day, w) && StopIn(zone, t, day, w, k, s))
            <==> (exists day, w, k: nat :: first <= day <= last && Offered(cat, zone, provider, t, day, w, k, s))
  {
    if day, w, k: nat :| first <= day <= last && OpenHours(cat, provider, day, w) && StopIn(zone, t, day, w, k, s) {
      StopIsOffered(cat, zone, provider, t, day, w, k, s);
      assert first <= day <= last && Offered(cat, zone, provider, t, day, w, k, s);
    }
    if day, w, k: nat :| first <= day <= last && Offered(cat, zone, provider, t, day, w, k, s) {
      StopIsOffered(cat, zone, provider, t, day, w, k, s);
      assert first <= day <= last && OpenHours(cat, provider, day, w) && StopIn(zone, t, day, w, k, s);
    }
  }

  /**
   The slot list on the rows: while booked services stay assigned, a slot is listed if and only if it is a stop within
   the open hours of a day asked for and its time with both buffers is free.
   */
  lemma SlotsWrittenOut(cat: Catalogue, appointments: seq<Appointment>, zone: Zone, provider: int, location: int,
                        first: int, last: int, service: Option<int>, s: Slot)
    requires AvailableSlots(cat, appointments, zone, provider, location, first, last, service).Ok?
    requires cat.providers[provider].isActive && Increasing(zone, first, last)
    requires BookedStillAssigned(cat, appointments, provider)
    ensures var t := ResolveTiming(cat, provider, location, service).value;
            s in AvailableSlots(cat, appointments, zone, provider, location, first, last, service).value
            <==> FreeStop(cat, appointments, zone, provider, t, first, last, s)
  {
    var t := ResolveTiming(cat, provider, location, service).value;
    AssignedIsCovered(cat, appointments, provider);
    if OnList(cat, appointments, zone, provider, location, first, last, service, s) {
      ListedIsFreeStop(cat, appointments, zone, provider, location, first, last, service, s);
    }
    if FreeStop(cat, appointments, zone, provider, t, first, last, s) {
      FreeStopIsListed(cat, appointments, zone, provider, location, first, last, service, s);
    }
  }

  lemma ListedIsFreeStop(cat: Catalogue, appointments: seq<Appointment>, zone: Zone, provider: int, location: int,
                         first: int, last: int, service: Option<int>, s: Slot)
    requires OnList(cat, appointments, zone, provider, location, first, last, service, s)
    requires Increasing(zone, first, last) && BuffersCovered(cat, appointments, provider)
    ensures FreeStop(cat, appointments, zone, provider, ResolveTiming(cat, provider, location, service).value, first,
                     last, s)
  {
    ListedIsOffered(cat, appointments, zone, provider, location, first, last, service, s);
    OfferedIsFreeStop(cat, appointments, zone, provider, ResolveTiming(cat, provider, location, service).value, first,
                      last, s);
  }

  lemma FreeStopIsListed(cat: Catalogue, appointments: seq<Appointment>, zone: Zone, provider: int, location: int,
                         first: int, last: int, service: Option<int>, s: Slot)
    requires AvailableSlots(cat, appointments, zone, provider, location, first, last, service).Ok?
    requires cat.providers[provider].isActive
    requires Increasing(zone, first, last) && BuffersCovered(cat, appointments, provider)
    requires FreeStop(cat, appointments, zone, provider, ResolveTiming(cat, provider, location, service).value, first,
                      last, s)
    ensures OnList(cat, appointments, zone, provider, location, first, last, service, s)
  {
    OfferedIsFreeStop(cat, appointments, zone, provider, ResolveTiming(cat, provider, location, service).value, first,
                      last, s);
    OfferedIsListed(cat, appointments, zone, provider, location, first, last, service, s);
  }

  /** A stop within the open hours of a day asked for, whose time with both buffers is free. */
  ghost predicate FreeStop(cat: Catalogue, appointments: seq<Appointment>, zone: Zone, provider: int, t: Timing,
                           first: int, last: int, s: Slot)
  {
    && (exists day, w, k: nat ::
          first <= day <= last && OpenHours(cat, provider, day, w) && StopIn(zone, t, day, w, k, s))
    && FreeTime(cat, appointments, provider, s.start - 60_000_000 * t.before, s.end + 60_000_000 * t.after)
  }

  lemma OfferedIsFreeStop(cat: Catalogue, appointments: seq<Appointment>, zone: Zone, provider: int, t: Timing,
                          first: int, last: int, s: Slot)
    ensures FreeStop(cat, appointments, zone, provider, t, first, last, s) <==>
            (exists day, w, k: nat :: first <= day <= last && Offered(cat, zone, provider, t, day, w, k, s))
            && !FullyBlocked(cat, appointments, provider, BlockOf(t, s))
  {
    StopsAreOffered(cat, zone, provider, t, first, last, s);
    FreeIsUnblocked(cat, appointments, provider, BlockOf(t, s));
  }

  /** What a query answers: at most 31 days, a known provider, and a timing unless the provider is inactive. */
  lemma QueryAnswers(cat: Catalogue, appointments: seq<Appointment>, zone: Zone, provider: int, location: int,
                     first: int, last: int, service: Option<int>)
    ensures AvailableSlots(cat, appointments, zone, provider, location, first, last, service).Ok? <==>
            && first <= last <= first + 30 && provider in cat.providers
            && (cat.providers[provider].isActive ==> ResolveTiming(cat, provider, location, service).Ok?)
    ensures provider in cat.providers && !cat.providers[provider].isActive && first <= last <= first + 30 ==>
              AvailableSlots(cat, appointments, zone, provider, location, first, last, service) == Ok([])
  {
  }

  /** The conflict check on the rows: while booked services stay assigned it finds exactly the meeting rows. */
  lemma ConflictWrittenOut(cat: Catalogue, appointments: seq<Appointment>, provider: int, block: Interval,
                           excluded: Option<int>)
    requires BookedStillAssigned(cat, appointments, provider)
    ensures PrefilteredOverlap(cat, appointments, provider, block, excluded) <==>
            exists i :: 0 <= i < |appointments| && excluded != Some(i) && Occupies(appointments[i], provider)
                        && MeetsRow(cat, appointments[i], block.start, block.end)
  {
    AssignedIsCovered(cat, appointments, provider);
    PrefilterRefinesScan(cat, appointments, provider, block, excluded);
  }
}
