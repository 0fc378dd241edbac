/**
 What an accepted booking avoids on any catalogue. The slot check queries the whole local day and blocks with each
 found row's own buffers, assigned or not, so a row can only be missed from across midnight.
 */
module DayChecks {
  import opened Options
  import opened Statuses
  import opened Calendar
  import opened Slots
  import opened SlotTheorems
  import opened Desk

  /** The instants slots of the day can touch: windows end at the last tick of the local day at the latest. */
  function Reach(zone: Zone, day: int): Interval {
    Interval(zone.utc(day * DAY), zone.utc(day * DAY + DAY - 1))
  }

  /** The day's query, widened by the largest assigned buffers, returns the row. */
  predicate Seen(a: Appointment, zone: Zone, day: int, buffers: (nat, nat)) {
    InQuery(a, a.provider, Widened(RangeSpan(zone, day, day), buffers))
  }

  predicate OutOfReach(a: Appointment, zone: Zone, day: int, own: (nat, nat)) {
    !Overlaps(Reach(zone, day), BlockedInterval(a.visible, own.0, own.1))
  }

  lemma UnblockedAvoids(q: Query, zone: Zone, day: int, block: Interval, i: int)
    requires q.span == RangeSpan(zone, day, day) && !Blocked(q, block)
    requires Reach(zone, day).start <= block.start && block.end <= Reach(zone, day).end
    requires 0 <= i < |q.appointments| && q.appointments[i].provider == q.provider
    requires || Seen(q.appointments[i], zone, day, MaxProviderBuffers(q.cat, q.provider))
             || OutOfReach(q.appointments[i], zone, day, OwnBuffers(q.appointments[i], q.cat.services))
    ensures !Overlaps(block, OwnBlock(q.appointments[i], q.cat.services))
  {
  }

  /** A listed slot avoids every row the day's query sees, and every row whose block does not reach the day. */
  lemma ListedAvoids(cat: Catalogue, appointments: seq<Appointment>, zone: Zone, provider: int, location: int,
                     day: int, service: Option<int>, s: Slot, i: int)
    requires Increasing(zone, day, day)
    requires OnList(cat, appointments, zone, provider, location, day, day, service, s)
    requires 0 <= i < |appointments| && appointments[i].provider == provider
    requires || Seen(appointments[i], zone, day, MaxProviderBuffers(cat, provider))
             || OutOfReach(appointments[i], zone, day, OwnBuffers(appointments[i], cat.services))
    ensures var t := ResolveTiming(cat, provider, location, service);
            t.Ok? && !Overlaps(BlockAt(s.start, t.value), OwnBlock(appointments[i], cat.services))
  {
    var q := ListedIsStop(cat, appointments, zone, provider, location, day, service, s);
    UnblockedAvoids(q, zone, day, BlockAt(s.start, q.timing), i);
  }

  /** So does an accepted create, */
  lemma CreatedAvoids(cat: Catalogue, appointments: seq<Appointment>, zone: Zone, r: Request, i: int)
    requires Created(cat, appointments, zone, r).Ok?
    requires Increasing(zone, zone.dayOf(r.start), zone.dayOf(r.start))
    requires 0 <= i < |appointments| && appointments[i].provider == r.provider
    requires var a := appointments[i];
             || Seen(a, zone, zone.dayOf(r.start), MaxProviderBuffers(cat, r.provider))
             || OutOfReach(a, zone, zone.dayOf(r.start), OwnBuffers(a, cat.services))
    ensures var t := ResolveTiming(cat, r.provider, r.location, r.service);
            t.Ok? && !Overlaps(BlockAt(r.start, t.value), OwnBlock(appointments[i], cat.services))
  {
    BookedWasListed(cat, appointments, zone, r);
    var t := ResolveTiming(cat, r.provider, r.location, r.service).value;
    ListedAvoids(cat, appointments, zone, r.provider, r.location, zone.dayOf(r.start), r.service, SlotAt(t, r.start),
                 i);
  }

  /** so a create whose block would meet a row that is seen is refused; */
  lemma MeetingSeenIsRefused(cat: Catalogue, appointments: seq<Appointment>, zone: Zone, r: Request, t: Timing, i: int)
    requires ResolveTiming(cat, r.provider, r.location, r.service) == Ok(t)
    requires Increasing(zone, zone.dayOf(r.start), zone.dayOf(r.start))
    requires 0 <= i < |appointments| && appointments[i].provider == r.provider
    requires Seen(appointments[i], zone, zone.dayOf(r.start), MaxProviderBuffers(cat, r.provider))
    requires Overlaps(BlockAt(r.start, t), OwnBlock(appointments[i], cat.services))
    ensures Created(cat, appointments, zone, r).Err?
  {
    if Created(cat, appointments, zone, r).Ok? {
      CreatedAvoids(cat, appointments, zone, r, i);
    }
  }

  /** and an accepted reschedule, which avoids the appointment's own old block too. */
  lemma RescheduledAvoids(cat: Catalogue, appointments: seq<Appointment>, zone: Zone, id: int, start: int, i: int)
    requires Rescheduled(cat, appointments, zone, id, start).Ok?
    requires Increasing(zone, zone.dayOf(start), zone.dayOf(start))
    requires 0 <= i < |appointments| && appointments[i].provider == appointments[id].provider
    requires var a := appointments[i];
             || Seen(a, zone, zone.dayOf(start), MaxProviderBuffers(cat, a.provider))
             || OutOfReach(a, zone, zone.dayOf(start), OwnBuffers(a, cat.services))
    ensures var a := appointments[id];
            var t := ResolveTiming(cat, a.provider, a.location, a.service);
            t.Ok? && !Overlaps(BlockAt(start, t.value), OwnBlock(appointments[i], cat.services))
  {
    var a := appointments[id];
    MovedWasListed(cat, appointments, zone, id, start);
    var t := ResolveTiming(cat, a.provider, a.location, a.service).value;
    ListedAvoids(cat, appointments, zone, a.provider, a.location, zone.dayOf(start), a.service, SlotAt(t, start), i);
  }

  /** A row whose buffers are covered by the assigned ones is seen or out of reach, on every day. */
  lemma CoveredIsAvoided(a: Appointment, zone: Zone, day: int, own: (nat, nat), buffers: (nat, nat))
    requires Blocking(a.status) && Increasing(zone, day, day)
    requires own.0 <= buffers.0 && own.1 <= buffers.1
    ensures Seen(a, zone, day, buffers) || OutOfReach(a, zone, day, own)
  {
    assert day * DAY + DAY - 1 < (day + 1) * DAY;
  }

  /** The first stop of a window is accepted when its block fits and nothing the day's query sees meets it. */
  lemma FirstStopAccepted(cat: Catalogue, appointments: seq<Appointment>, zone: Zone, day: int, w: Window, r: Request,
                          t: Timing)
    requires Increasing(zone, day, day) && DaysAgree(zone)
    requires r.provider in cat.providers && cat.providers[r.provider].isActive
    requires ResolveTiming(cat, r.provider, r.location, r.service) == Ok(t) && Admitted(cat, r).Ok?
    requires w in DayWindows(cat, r.provider, day)
    requires r.start == zone.utc(day * DAY + w.start) + t.before * MINUTE
    requires BlockAt(r.start, t).end <= zone.utc(day * DAY + w.end)
    requires !Blocked(Query(cat, appointments, r.provider, RangeSpan(zone, day, day), t), BlockAt(r.start, t))
    ensures Created(cat, appointments, zone, r) == Ok(appointments + [Stored(r, t)])
    ensures zone.dayOf(r.start) == day
  {
    var q := Query(cat, appointments, r.provider, RangeSpan(zone, day, day), t);
    var s := SlotAt(t, r.start);
    assert Offered(cat, zone, r.provider, t, day, w, 0, s);
    assert BlockOf(t, s) == BlockAt(r.start, t);
    DaySlotsAreStops(q, zone, day, s);
    DayIsListed(cat, appointments, zone, r.provider, r.location, day, r.service, q, s);
    OfferedWithinDay(cat, zone, r.provider, t, day, day, day, w, 0, s);
    assert InDay(zone, day, r.start);
    ListedIsBookable(cat, appointments, zone, day, day, s, r);
  }

  // ----- The condition is exact -----------------------------------------------------------------

  /** The clock does not change during the day. */
  ghost predicate FixedOffset(zone: Zone, day: int, offset: int) {
    forall l :: day * DAY <= l <= (day + 1) * DAY ==> zone.utc(l) == l + offset
  }

  /** No create accepted on the day meets the row's block, whatever else the catalogue holds. */
  ghost predicate AlwaysAvoided(zone: Zone, day: int, a: Appointment, own: (nat, nat), buffers: (nat, nat)) {
    forall cat: Catalogue, r: Request ::
      && Created(cat, [a], zone, r).Ok? && r.provider == a.provider && zone.dayOf(r.start) == day
      && OwnBuffers(a, cat.services) == own && MaxProviderBuffers(cat, a.provider) == buffers
      ==> !Meeting(cat, a, r)
  }

  predicate Meeting(cat: Catalogue, a: Appointment, r: Request) {
    var t := ResolveTiming(cat, r.provider, r.location, r.service);
    t.Ok? && Overlaps(BlockAt(r.start, t.value), OwnBlock(a, cat.services))
  }

  /** The id of a service the provider is assigned, other than the row's own. */
  function OtherService(a: Appointment): int {
    if a.service.Some? then a.service.value + 1 else 0
  }

  /** A catalogue with these buffers, the row's own service unassigned, and one window on the day. */
  function Crossing(a: Appointment, own: (nat, nat), buffers: (nat, nat), day: int, w: Window): Catalogue {
    var other := Service(1, 1, buffers.0, buffers.1, true);
    Catalogue({1}, {1}, map[a.provider := Provider(1, true, 1)], map[1 := Location(1, true)],
              (if a.service.Some? then map[a.service.value := Service(1, 1, own.0, own.1, true)]
                  else map[])[OtherService(a) := other],
              [Assignment(a.provider, OtherService(a), None)], {(a.provider, 1)}, {},
              [], [DateOverride(a.provider, day, Some(w), true)], [])
  }

  function CrossingRequest(a: Appointment, start: int): Request {
    Request(a.provider, 1, None, 1, None, start, Confirmed)
  }

  lemma CrossingBuffers(a: Appointment, own: (nat, nat), buffers: (nat, nat), day: int, w: Window)
    requires a.service.None? ==> own == (0, 0)
    ensures OwnBuffers(a, Crossing(a, own, buffers, day, w).services) == own
    ensures MaxProviderBuffers(Crossing(a, own, buffers, day, w), a.provider) == buffers
  {
    var cat := Crossing(a, own, buffers, day, w);
    OneAssigned(cat, Assignment(a.provider, OtherService(a), None));
  }

  lemma OnlyWindow(a: Appointment, own: (nat, nat), buffers: (nat, nat), day: int, w: Window)
    ensures w in DayWindows(Crossing(a, own, buffers, day, w), a.provider, day)
  {
    var overrides := Crossing(a, own, buffers, day, w).overrides;
    assert overrides[0] == DateOverride(a.provider, day, Some(w), true);
    OverrideWindowsExact(overrides, a.provider, day, w);
  }

  lemma UnseenIsUnblocked(q: Query, zone: Zone, day: int, a: Appointment, block: Interval)
    requires q.appointments == [a] && q.provider == a.provider && q.cat.timeOffs == []
    requires q.span == RangeSpan(zone, day, day) && !Seen(a, zone, day, MaxProviderBuffers(q.cat, a.provider))
    ensures !Blocked(q, block)
  {
  }

  /** A row that the day's query does not see does not keep a create from the first stop of the window. */
  lemma CrossingAccepted(zone: Zone, day: int, offset: int, a: Appointment, own: (nat, nat), buffers: (nat, nat),
      w: Window)
    requires Increasing(zone, day, day) && DaysAgree(zone) && FixedOffset(zone, day, offset)
    requires a.service.None? ==> own == (0, 0)
    requires !Seen(a, zone, day, buffers) && w.start + MINUTE <= w.end
    ensures var cat, r := Crossing(a, own, buffers, day, w), CrossingRequest(a, day * DAY + w.start + offset);
            && Created(cat, [a], zone, r).Ok? && zone.dayOf(r.start) == day
            && ResolveTiming(cat, r.provider, r.location, r.service) == Ok(Timing(1, 0, 0))
  {
    var cat, r := Crossing(a, own, buffers, day, w), CrossingRequest(a, day * DAY + w.start + offset);
    var t := Timing(1, 0, 0);
    var q := Query(cat, [a], a.provider, RangeSpan(zone, day, day), t);
    CrossingBuffers(a, own, buffers, day, w);
    OnlyWindow(a, own, buffers, day, w);
    UnseenIsUnblocked(q, zone, day, a, BlockAt(r.start, t));
    FirstStopAccepted(cat, [a], zone, day, w, r, t);
  }

  /**
   On a day without a clock change, a row is avoided by every create the day can accept, on every catalogue with these
   buffers, if and only if the day's query sees it or its block does not reach the day. Covered buffers are one way
   to meet that, and not the only one: an uncovered row that ends well before midnight meets it too.
   */
  lemma AvoidedExactly(zone: Zone, day: int, offset: int, a: Appointment, own: (nat, nat), buffers: (nat, nat))
    requires Increasing(zone, day, day) && DaysAgree(zone) && FixedOffset(zone, day, offset)
    requires Blocking(a.status) && a.visible.start < a.visible.end && (a.service.None? ==> own == (0, 0))
    ensures AlwaysAvoided(zone, day, a, own, buffers) <==> Seen(a, zone, day, buffers) || OutOfReach(a, zone, day, own)
  {
    if Seen(a, zone, day, buffers) || OutOfReach(a, zone, day, own) {
      forall cat: Catalogue, r: Request | && Created(cat, [a], zone, r).Ok? && r.provider == a.provider
          && zone.dayOf(r.start) == day && OwnBuffers(a, cat.services) == own
          && MaxProviderBuffers(cat, a.provider) == buffers
        ensures !Meeting(cat, a, r)
      {
        assert [a][0] == a;
        CreatedAvoids(cat, [a], zone, r, 0);
      }
    } else {
      var w := CollidingWindow(zone, day, offset, a, own, buffers);
      CrossingBuffers(a, own, buffers, day, w);
      CrossingAccepted(zone, day, offset, a, own, buffers, w);
      var cat, r := Crossing(a, own, buffers, day, w), CrossingRequest(a, day * DAY + w.start + offset);
      assert Created(cat, [a], zone, r).Ok? && Meeting(cat, a, r);
    }
  }

  /** The first or the last minute of the day, on the side the unseen row's block reaches in from. */
  lemma CollidingWindow(zone: Zone, day: int, offset: int, a: Appointment, own: (nat, nat), buffers: (nat, nat))
    returns (w: Window)
    requires FixedOffset(zone, day, offset) && Blocking(a.status) && a.visible.start < a.visible.end
    requires !Seen(a, zone, day, buffers) && !OutOfReach(a, zone, day, own)
    ensures w.start + MINUTE <= w.end
    ensures var start := day * DAY + w.start + offset;
            Overlaps(Interval(start, start + MINUTE), BlockedInterval(a.visible, own.0, own.1))
  {
    var first: TimeOfDay, last: TimeOfDay := 0, DAY - 1;
    if a.visible.end <= zone.utc(day * DAY) {
      w := Window(first, MINUTE);
    } else {
      w := Window(DAY - 1 - MINUTE, last);
    }
  }
}
