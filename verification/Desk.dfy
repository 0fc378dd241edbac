/**
 Creating, rescheduling and cancelling appointments, and how accepted bookings relate to listed slots.
 */
module Desk {
  import opened Options
  import opened Statuses
  import opened Calendar
  import opened Slots
  import opened SlotTheorems

  datatype Request = Request(provider: int, location: int, service: Option<int>, customer: int,
                             organization: Option<int>, start: int, status: AppointmentStatus)

  /** The slot check: the exact interval is in the list of the local day of its start. */
  predicate SlotListed(cat: Catalogue, appointments: seq<Appointment>, zone: Zone, provider: int, location: int,
                       service: Option<int>, visible: Interval)
  {
    var day := zone.dayOf(visible.start);
    OnList(cat, appointments, zone, provider, location, day, day, service, Slot(visible.start, visible.end))
  }

  /** The checks of a create before any time is looked at. */
  function Admitted(cat: Catalogue, r: Request): (t: Result<Timing>)
    ensures t.Ok? ==> t == ResolveTiming(cat, r.provider, r.location, r.service) && r.provider in cat.providers
  {
    if r.provider !in cat.providers || !cat.providers[r.provider].isActive then Err(NotFound)
    else if !Blocking(r.status) then Err(Invalid)
    else
      var organization := cat.providers[r.provider].organization;
      if r.organization.Some? && r.organization.value != organization then Err(Mismatch)
      else if organization !in cat.activeOrganizations then Err(Inactive)
      else if r.location !in cat.locations || !cat.locations[r.location].isActive then Err(NotFound)
      else if cat.locations[r.location].organization != organization then Err(Mismatch)
      else if (r.provider, r.location) !in cat.providerLocations then Err(Invalid)
      else if r.customer !in cat.customers then Err(NotFound)
      else ResolveTiming(cat, r.provider, r.location, r.service)
  }

  function VisibleAt(start: int, t: Timing): Interval {
    Interval(start, start + Duration(t))
  }

  function BlockAt(start: int, t: Timing): Interval {
    BlockedInterval(VisibleAt(start, t), t.before, t.after)
  }

  function Placed(cat: Catalogue, appointments: seq<Appointment>, zone: Zone, provider: int, location: int,
      service: Option<int>, start: int, t: Timing, excluded: Option<int>): Result<Interval>
  {
    if PrefilteredOverlap(cat, appointments, provider, BlockAt(start, t), excluded) then Err(Overlapping)
    else if !SlotListed(cat, appointments, zone, provider, location, service, VisibleAt(start, t))
        then Err(OutsideAvailability)
    else Ok(VisibleAt(start, t))
  }

  /** The row a create stores. */
  function Stored(r: Request, t: Timing): Appointment {
    Appointment(r.provider, r.location, r.service, r.customer, VisibleAt(r.start, t), r.status)
  }

  /** The table after a create; an error leaves it as it was. */
  function Created(cat: Catalogue, appointments: seq<Appointment>, zone: Zone, r: Request): Result<seq<Appointment>> {
    var t := Admitted(cat, r);
    if t.Err? then Err(t.error)
    else
      var placed := Placed(cat, appointments, zone, r.provider, r.location, r.service, r.start, t.value, None);
      if placed.Err? then Err(placed.error)
      else Ok(appointments + [Stored(r, t.value)])
  }

  function Rescheduled(cat: Catalogue, appointments: seq<Appointment>, zone: Zone, id: int, start: int)
      : Result<seq<Appointment>> {
    if !(0 <= id < |appointments|) then Err(NotFound)
    else if !Blocking(appointments[id].status) then Err(Invalid)
    else
      var a := appointments[id];
      if a.provider !in cat.providers || !cat.providers[a.provider].isActive then Err(NotFound)
      else
        var t := ResolveTiming(cat, a.provider, a.location, a.service);
        if t.Err? then Err(t.error)
        else
          var placed := Placed(cat, appointments, zone, a.provider, a.location, a.service, start, t.value, Some(id));
          if placed.Err? then Err(placed.error)
          else Ok(appointments[id := a.(visible := placed.value)])
  }

  function CancelledAt(appointments: seq<Appointment>, id: int): Result<seq<Appointment>> {
    if !(0 <= id < |appointments|) then Err(NotFound)
    else if appointments[id].status == Cancelled then Ok(appointments)
    else if appointments[id].status == AppointmentCompleted || appointments[id].status == NoShow then Err(Invalid)
    else Ok(appointments[id := appointments[id].(status := Cancelled)])
  }

  method ContainsSlot(slots: seq<Slot>, visible: Interval) returns (found: bool)
    ensures found <==> Slot(visible.start, visible.end) in slots
  {
    for n := 0 to |slots|
      invariant Slot(visible.start, visible.end) !in slots[..n]
    {
      if slots[n].start == visible.start && slots[n].end == visible.end {
        assert slots[n] == Slot(visible.start, visible.end);
        return true;
      }
    }
    return false;
  }

  class BookingDesk {
    var cat: Catalogue
    var appointments: seq<Appointment>
    const zone: Zone

    constructor (cat: Catalogue, zone: Zone)
      ensures this.cat == cat && this.zone == zone && appointments == []
    {
      this.cat, this.zone, appointments := cat, zone, [];
    }

    /** Raises unless the interval is one of the day's slots. */
    method AssertSlotIsAvailable(provider: int, location: int, service: Option<int>, visible: Interval)
        returns (ok: bool)
      ensures ok <==> SlotListed(cat, appointments, zone, provider, location, service, visible)
    {
      var day := zone.dayOf(visible.start);
      var slots := GetAvailableSlots(cat, appointments, zone, provider, location, day, day, service);
      if slots.Err? {
        return false;
      }
      ok := ContainsSlot(slots.value, visible);
    }

    method CreateAppointment(r: Request) returns (id: Result<int>)
      modifies this`appointments
      ensures var result := Created(cat, old(appointments), zone, r);
              && id.Ok? == result.Ok?
              && appointments == if result.Ok? then result.value else old(appointments)
      ensures id.Ok? ==> id.value == |old(appointments)|
    {
      var t := Admitted(cat, r);
      if t.Err? {
        return Err(t.error);
      }
      var overlap := HasBlockedOverlap(cat, appointments, r.provider, BlockAt(r.start, t.value), None);
      if overlap {
        return Err(Overlapping);
      }
      var listed := AssertSlotIsAvailable(r.provider, r.location, r.service, VisibleAt(r.start, t.value));
      if !listed {
        return Err(OutsideAvailability);
      }
      appointments := appointments + [
        Appointment(r.provider, r.location, r.service, r.customer, VisibleAt(r.start, t.value), r.status)];
      return Ok(|appointments| - 1);
    }

    method RescheduleAppointment(id: int, start: int) returns (ok: bool)
      modifies this`appointments
      ensures var result := Rescheduled(cat, old(appointments), zone, id, start);
              && ok == result.Ok?
              && appointments == if result.Ok? then result.value else old(appointments)
    {
      if !(0 <= id < |appointments|) || !Blocking(appointments[id].status) {
        return false;
      }
      var a := appointments[id];
      if a.provider !in cat.providers || !cat.providers[a.provider].isActive {
        return false;
      }
      var t := ResolveTiming(cat, a.provider, a.location, a.service);
      if t.Err? {
        return false;
      }
      var overlap := HasBlockedOverlap(cat, appointments, a.provider, BlockAt(start, t.value), Some(id));
      if overlap {
        return false;
      }
      var listed := AssertSlotIsAvailable(a.provider, a.location, a.service, VisibleAt(start, t.value));
      if !listed {
        return false;
      }
      appointments := appointments[id := a.(visible := VisibleAt(start, t.value))];
      return true;
    }

    method CancelAppointment(id: int) returns (ok: bool)
      modifies this`appointments
      ensures var result := CancelledAt(old(appointments), id);
              && ok == result.Ok?
              && appointments == if result.Ok? then result.value else old(appointments)
    {
      if !(0 <= id < |appointments|) {
        return false;
      }
      var a := appointments[id];
      if a.status == Cancelled {
        return true;
      }
      if a.status == AppointmentCompleted || a.status == NoShow {
        return false;
      }
      appointments := appointments[id := a.(status := Cancelled)];
      return true;
    }
  }

  // ----- Listed is bookable ---------------------------------------------------------------------

  /** Membership in a day's list alone rules out a conflict, whatever the catalogue says. */
  lemma ListedIsFree(cat: Catalogue, appointments: seq<Appointment>, zone: Zone, provider: int, location: int,
                     day: int, service: Option<int>, s: Slot)
    requires Increasing(zone, day, day)
    requires OnList(cat, appointments, zone, provider, location, day, day, service, s)
    ensures var t := ResolveTiming(cat, provider, location, service);
            && t.Ok? && s == SlotAt(t.value, s.start)
            && forall excluded :: !PrefilteredOverlap(cat, appointments, provider, BlockAt(s.start, t.value), excluded)
  {
    var q := ListedIsStop(cat, appointments, zone, provider, location, day, service, s);
    UnblockedInSpanIsFree(q, BlockAt(s.start, q.timing));
  }

  /** A listed slot's block lies in its local day, to its last tick, and nothing the day's query sees meets it. */
  lemma ListedIsStop(cat: Catalogue, appointments: seq<Appointment>, zone: Zone, provider: int, location: int,
                     day: int, service: Option<int>, s: Slot) returns (q: Query)
    requires Increasing(zone, day, day)
    requires OnList(cat, appointments, zone, provider, location, day, day, service, s)
    ensures provider in cat.providers && cat.providers[provider].isActive
    ensures ResolveTiming(cat, provider, location, service) == Ok(q.timing) && s == SlotAt(q.timing, s.start)
    ensures q == Query(cat, appointments, provider, RangeSpan(zone, day, day), q.timing)
    ensures BlockOf(q.timing, s) == BlockAt(s.start, q.timing) && !Blocked(q, BlockAt(s.start, q.timing))
    ensures zone.utc(day * DAY) <= BlockAt(s.start, q.timing).start
    ensures BlockAt(s.start, q.timing).end <= zone.utc(day * DAY + DAY - 1) < zone.utc((day + 1) * DAY)
  {
    var d;
    q, d := ListedSomeDay(cat, appointments, zone, provider, location, day, day, service, s);
    DaySlotIsStop(q, zone, day, s);
  }

  lemma DaySlotIsStop(q: Query, zone: Zone, day: int, s: Slot)
    requires Increasing(zone, day, day) && s in DaySlots(q, zone, day)
    ensures s == SlotAt(q.timing, s.start)
    ensures BlockOf(q.timing, s) == BlockAt(s.start, q.timing) && !Blocked(q, BlockAt(s.start, q.timing))
    ensures zone.utc(day * DAY) <= BlockAt(s.start, q.timing).start
    ensures BlockAt(s.start, q.timing).end <= zone.utc(day * DAY + DAY - 1) < zone.utc((day + 1) * DAY)
  {
    DaySlotsAreStops(q, zone, day, s);
    var w, k: nat :| Offered(q.cat, zone, q.provider, q.timing, day, w, k, s);
    OfferedWithinDay(q.cat, zone, q.provider, q.timing, day, day, day, w, k, s);
    assert day * DAY + w.end <= day * DAY + DAY - 1 < (day + 1) * DAY;
  }

  /** What the query's tables leave free within its span, the conflict check finds free. */
  lemma UnblockedInSpanIsFree(q: Query, block: Interval)
    requires q.span.start <= block.start && block.end <= q.span.end && !Blocked(q, block)
    ensures forall excluded :: !PrefilteredOverlap(q.cat, q.appointments, q.provider, block, excluded)
  {
    var buffers := MaxProviderBuffers(q.cat, q.provider);
    forall i | 0 <= i < |q.appointments| && InQuery(q.appointments[i], q.provider, Widened(block, buffers))
      ensures !Overlaps(block, OwnBlock(q.appointments[i], q.cat.services))
    {
      assert InQuery(q.appointments[i], q.provider, Widened(q.span, buffers));
    }
  }

  /**
   A slot listed for any range is accepted by a create on the same state, for an existing customer of an
   active organization, an allowed status and a matching organization id.
   */
  lemma ListedIsBookable(cat: Catalogue, appointments: seq<Appointment>, zone: Zone, first: int, last: int, s: Slot,
                         r: Request)
    requires Increasing(zone, first, last) && DaysAgree(zone)
    requires OnList(cat, appointments, zone, r.provider, r.location, first, last, r.service, s)
    requires r.start == s.start && Blocking(r.status) && r.customer in cat.customers
    requires cat.providers[r.provider].organization in cat.activeOrganizations
    requires r.organization == None || r.organization == Some(cat.providers[r.provider].organization)
    ensures var t := ResolveTiming(cat, r.provider, r.location, r.service);
            && t.Ok? && VisibleAt(r.start, t.value) == Interval(s.start, s.end)
            && Created(cat, appointments, zone, r) == Ok(appointments + [Stored(r, t.value)])
  {
    var day := ListedDay(cat, appointments, zone, r.provider, r.location, first, last, r.service, s);
    ListedIsPlaced(cat, appointments, zone, r.provider, r.location, day, r.service, s, None);
    ListedIsAdmitted(cat, r);
  }

  /** The same for a reschedule of a blocking appointment onto a slot listed for its own rows. */
  lemma ListedIsReschedulable(cat: Catalogue, appointments: seq<Appointment>, zone: Zone, first: int, last: int,
      s: Slot, id: int)
    requires Increasing(zone, first, last) && DaysAgree(zone)
    requires 0 <= id < |appointments| && Blocking(appointments[id].status)
    requires var a := appointments[id];
             OnList(cat, appointments, zone, a.provider, a.location, first, last, a.service, s)
    ensures Rescheduled(cat, appointments, zone, id, s.start)
            == Ok(appointments[id := appointments[id].(visible := Interval(s.start, s.end))])
  {
    var a := appointments[id];
    var day := ListedDay(cat, appointments, zone, a.provider, a.location, first, last, a.service, s);
    var q, d := ListedSomeDay(cat, appointments, zone, a.provider, a.location, first, last, a.service, s);
    ListedIsPlaced(cat, appointments, zone, a.provider, a.location, day, a.service, s, Some(id));
  }

  /** The day whose own list contains the slot, which is the local day of its start. */
  lemma ListedDay(cat: Catalogue, appointments: seq<Appointment>, zone: Zone, provider: int, location: int,
                  first: int, last: int, service: Option<int>, s: Slot) returns (day: int)
    requires Increasing(zone, first, last) && DaysAgree(zone)
    requires OnList(cat, appointments, zone, provider, location, first, last, service, s)
    ensures first <= day <= last && Increasing(zone, day, day) && zone.dayOf(s.start) == day
    ensures OnList(cat, appointments, zone, provider, location, day, day, service, s)
  {
    RangeListedIsDayListed(cat, appointments, zone, provider, location, first, last, service, s);
    day :| first <= day <= last && InDay(zone, day, s.start)
      && OnList(cat, appointments, zone, provider, location, day, day, service, s);
    NarrowIncreasing(zone, first, last, day);
  }

  lemma ListedIsPlaced(cat: Catalogue, appointments: seq<Appointment>, zone: Zone, provider: int, location: int,
                       day: int, service: Option<int>, s: Slot, excluded: Option<int>)
    requires Increasing(zone, day, day) && zone.dayOf(s.start) == day
    requires OnList(cat, appointments, zone, provider, location, day, day, service, s)
    ensures provider in cat.providers && cat.providers[provider].isActive
    ensures var t := ResolveTiming(cat, provider, location, service);
            && t.Ok?
            && Placed(cat, appointments, zone, provider, location, service, s.start, t.value, excluded)
               == Ok(Interval(s.start, s.end))
  {
    var q := ListedIsStop(cat, appointments, zone, provider, location, day, service, s);
    ListedIsFree(cat, appointments, zone, provider, location, day, service, s);
    assert VisibleAt(s.start, q.timing) == Interval(s.start, s.end);
  }

  lemma ListedIsAdmitted(cat: Catalogue, r: Request)
    requires r.provider in cat.providers && cat.providers[r.provider].isActive
    requires ResolveTiming(cat, r.provider, r.location, r.service).Ok?
    requires Blocking(r.status) && r.customer in cat.customers
    requires cat.providers[r.provider].organization in cat.activeOrganizations
    requires r.organization == None || r.organization == Some(cat.providers[r.provider].organization)
    ensures Admitted(cat, r) == ResolveTiming(cat, r.provider, r.location, r.service)
  {
  }

  lemma NarrowIncreasing(zone: Zone, first: int, last: int, day: int)
    requires Increasing(zone, first, last) && first <= day <= last
    ensures Increasing(zone, day, day)
  {
    assert first * DAY <= day * DAY && (day + 1) * DAY <= (last + 1) * DAY;
  }

  /** What an accepted create stores, and that it was listed for its day just before, on any catalogue. */
  lemma BookedWasListed(cat: Catalogue, appointments: seq<Appointment>, zone: Zone, r: Request)
    requires Created(cat, appointments, zone, r).Ok?
    ensures var t, day := ResolveTiming(cat, r.provider, r.location, r.service), zone.dayOf(r.start);
            && t.Ok?
            && Created(cat, appointments, zone, r).value == appointments + [Stored(r, t.value)]
            && OnList(cat, appointments, zone, r.provider, r.location, day, day, r.service, SlotAt(t.value, r.start))
  {
  }

  lemma MovedWasListed(cat: Catalogue, appointments: seq<Appointment>, zone: Zone, id: int, start: int)
    requires Rescheduled(cat, appointments, zone, id, start).Ok?
    ensures 0 <= id < |appointments|
    ensures var a := appointments[id];
            var t, day := ResolveTiming(cat, a.provider, a.location, a.service), zone.dayOf(start);
            && t.Ok?
            && Rescheduled(cat, appointments, zone, id, start).value
               == appointments[id := a.(visible := VisibleAt(start, t.value))]
            && OnList(cat, appointments, zone, a.provider, a.location, day, day, a.service, SlotAt(t.value, start))
  {
  }

  /** While booked services stay assigned it is also free of everything in the whole tables. */
  lemma BookedWasFree(cat: Catalogue, appointments: seq<Appointment>, zone: Zone, r: Request)
    requires Created(cat, appointments, zone, r).Ok?
    requires Increasing(zone, zone.dayOf(r.start), zone.dayOf(r.start))
    requires BookedStillAssigned(cat, appointments, r.provider)
    ensures var t := ResolveTiming(cat, r.provider, r.location, r.service).value;
            !FullyBlocked(cat, appointments, r.provider, BlockAt(r.start, t))
  {
    var day, t := zone.dayOf(r.start), ResolveTiming(cat, r.provider, r.location, r.service).value;
    BookedWasListed(cat, appointments, zone, r);
    var q := ListedIsStop(cat, appointments, zone, r.provider, r.location, day, r.service, SlotAt(t, r.start));
    AssignedIsCovered(cat, appointments, r.provider);
    PrefilterExact(q, BlockAt(r.start, t));
  }
}
