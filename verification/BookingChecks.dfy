/**
 When a create, a reschedule or a cancellation is accepted, and the row it leaves, written out on the tables.
 */
module BookingChecks {
  import opened Options
  import opened Statuses
  import opened Calendar
  import opened Slots
  import opened SlotTheorems
  import opened Desk

  /** PENDING, PENDING_PAYMENT or CONFIRMED. */
  predicate Open(s: AppointmentStatus) {
    s == Pending || s == PendingPayment || s == Confirmed
  }

  /** The provider works at the location, and offers the service there if one is named. */
  predicate Served(cat: Catalogue, provider: int, location: int, service: Option<int>) {
    && provider in cat.providers && location in cat.locations && cat.locations[location].isActive
    && cat.locations[location].organization == cat.providers[provider].organization
    && (provider, location) in cat.providerLocations
    && (service.Some? ==>
          && service.value in cat.services && cat.services[service.value].isActive
          && cat.services[service.value].organization == cat.providers[provider].organization
          && (exists a :: a in cat.assignments && a.provider == provider && a.service == service.value)
          && (service.value, location) in cat.serviceLocations)
  }

  /** What a create asks of the rows, before any time is looked at. */
  predicate MayBook(cat: Catalogue, r: Request) {
    && Served(cat, r.provider, r.location, r.service) && cat.providers[r.provider].isActive && Open(r.status)
    && cat.providers[r.provider].organization in cat.activeOrganizations && r.customer in cat.customers
    && (r.organization.Some? ==> r.organization.value == cat.providers[r.provider].organization)
  }

  lemma ServedExact(cat: Catalogue, provider: int, location: int, service: Option<int>)
    ensures ResolveTiming(cat, provider, location, service).Ok? <==> Served(cat, provider, location, service)
  {
    TimingExact(cat, provider, location, service);
    if service.Some? && IsAssigned(cat.assignments, provider, service.value) {
      FoundAssignment(cat.assignments, provider, service.value);
    }
    if service.Some? {
      if a :| a in cat.assignments && a.provider == provider && a.service == service.value {
        assert IsAssigned(cat.assignments, provider, service.value);
      }
    }
  }

  lemma AdmittedExact(cat: Catalogue, r: Request)
    ensures Admitted(cat, r).Ok? <==> MayBook(cat, r)
  {
    ServedExact(cat, r.provider, r.location, r.service);
  }

  /** The minutes a visible time lasts: the service's or the provider's own. */
  function Minutes(cat: Catalogue, provider: int, location: int, service: Option<int>): int
    requires ResolveTiming(cat, provider, location, service).Ok?
  {
    ResolveTiming(cat, provider, location, service).value.duration
  }

  /**
   A create is accepted if and only if its rows allow it and the day's list has a slot of its length at its start; the
   conflict check before that never decides. It stores exactly what was asked for.
   */
  lemma CreateExact(cat: Catalogue, appointments: seq<Appointment>, zone: Zone, r: Request)
    requires Increasing(zone, zone.dayOf(r.start), zone.dayOf(r.start))
    ensures Created(cat, appointments, zone, r).Ok? <==>
            MayBook(cat, r)
            && var day, length := zone.dayOf(r.start), 60_000_000 * Minutes(cat, r.provider, r.location, r.service);
               OnList(cat, appointments, zone, r.provider, r.location, day, day, r.service,
                      Slot(r.start, r.start + length))
    ensures Created(cat, appointments, zone, r).Ok? ==>
              var length := 60_000_000 * Minutes(cat, r.provider, r.location, r.service);
              Created(cat, appointments, zone, r).value
              == appointments + [Appointment(r.provider, r.location, r.service, r.customer,
                                             Interval(r.start, r.start + length), r.status)]
  {
    AdmittedExact(cat, r);
    if MayBook(cat, r) {
      AdmittedIsPlaced(cat, appointments, zone, r);
    }
  }

  lemma AdmittedIsPlaced(cat: Catalogue, appointments: seq<Appointment>, zone: Zone, r: Request)
    requires Increasing(zone, zone.dayOf(r.start), zone.dayOf(r.start)) && Admitted(cat, r).Ok?
    ensures var day, end := zone.dayOf(r.start),
              r.start + 60_000_000 * Minutes(cat, r.provider, r.location, r.service);
            if OnList(cat, appointments, zone, r.provider, r.location, day, day, r.service, Slot(r.start, end)) then
              Created(cat, appointments, zone, r)
              == Ok(appointments + [Appointment(r.provider, r.location, r.service, r.customer, Interval(r.start, end),
                                                r.status)])
            else Created(cat, appointments, zone, r).Err?
  {
    var t := Admitted(cat, r).value;
    assert Duration(t) == 60_000_000 * t.duration;
    PlacedExact(cat, appointments, zone, r.provider, r.location, r.service, r.start, None);
  }

  lemma PlacedExact(cat: Catalogue, appointments: seq<Appointment>, zone: Zone, provider: int, location: int,
                    service: Option<int>, start: int, excluded: Option<int>)
    requires Increasing(zone, zone.dayOf(start), zone.dayOf(start))
    requires ResolveTiming(cat, provider, location, service).Ok?
    ensures var t, day := ResolveTiming(cat, provider, location, service).value, zone.dayOf(start);
            var s := Slot(start, start + Duration(t));
            Placed(cat, appointments, zone, provider, location, service, start, t, excluded)
            == if OnList(cat, appointments, zone, provider, location, day, day, service, s)
               then Ok(Interval(s.start, s.end))
               else
                 Err(if PrefilteredOverlap(cat, appointments, provider, BlockAt(start, t), excluded) then Overlapping
                     else OutsideAvailability)
  {
    var t, day := ResolveTiming(cat, provider, location, service).value, zone.dayOf(start);
    var s := Slot(start, start + Duration(t));
    if OnList(cat, appointments, zone, provider, location, day, day, service, s) {
      ListedIsFree(cat, appointments, zone, provider, location, day, service, s);
    }
  }

  /** The same for a reschedule, which moves the visible time of one open appointment and nothing else. */
  lemma RescheduleExact(cat: Catalogue, appointments: seq<Appointment>, zone: Zone, id: int, start: int)
    requires Increasing(zone, zone.dayOf(start), zone.dayOf(start))
    ensures Rescheduled(cat, appointments, zone, id, start).Ok? <==>
            0 <= id < |appointments| && Open(appointments[id].status)
            && var a := appointments[id];
               Served(cat, a.provider, a.location, a.service) && cat.providers[a.provider].isActive
               && var day, length := zone.dayOf(start), 60_000_000 * Minutes(cat, a.provider, a.location, a.service);
                  OnList(cat, appointments, zone, a.provider, a.location, day, day, a.service,
                         Slot(start, start + length))
    ensures Rescheduled(cat, appointments, zone, id, start).Ok? ==>
              var a, after := appointments[id], Rescheduled(cat, appointments, zone, id, start).value;
              && |after| == |appointments|
              && (forall i :: 0 <= i < |appointments| && i != id ==> after[i] == appointments[i])
              && after[id].visible
                 == Interval(start, start + 60_000_000 * Minutes(cat, a.provider, a.location, a.service))
              && after[id] == Appointment(a.provider, a.location, a.service, a.customer, after[id].visible, a.status)
  {
    if 0 <= id < |appointments| {
      var a := appointments[id];
      ServedExact(cat, a.provider, a.location, a.service);
      if Served(cat, a.provider, a.location, a.service) {
        var t := ResolveTiming(cat, a.provider, a.location, a.service).value;
        assert Duration(t) == 60_000_000 * t.duration;
        PlacedExact(cat, appointments, zone, a.provider, a.location, a.service, start, Some(id));
      }
    }
  }

  /** A cancellation succeeds on anything but a completed or missed appointment, and writes that row's status alone. */
  lemma CancelExact(appointments: seq<Appointment>, id: int)
    ensures CancelledAt(appointments, id).Ok? <==>
            0 <= id < |appointments| && appointments[id].status != AppointmentCompleted
            && appointments[id].status != NoShow
    ensures CancelledAt(appointments, id).Ok? ==>
              var a, after := appointments[id], CancelledAt(appointments, id).value;
              && |after| == |appointments|
              && (forall i :: 0 <= i < |appointments| && i != id ==> after[i] == appointments[i])
              && after[id] == Appointment(a.provider, a.location, a.service, a.customer, a.visible, Cancelled)
  {
  }

  /** A cancelled row no longer keeps anyone out: the list is that of the tables without it. */
  lemma CancelFrees(cat: Catalogue, appointments: seq<Appointment>, provider: int, block: Interval, id: int)
    requires 0 <= id < |appointments| && Open(appointments[id].status)
    ensures var after := CancelledAt(appointments, id).value;
            ScanOverlap(cat, after, provider, block, None)
            <==> ScanOverlap(cat, appointments, provider, block, Some(id))
  {
    var after := CancelledAt(appointments, id).value;
    forall i | 0 <= i < |appointments| && i != id ensures after[i] == appointments[i] {
    }
  }
}
