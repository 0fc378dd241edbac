/**
 Bookings under concurrency, with buffers, when services may be unassigned at any moment. Every stored block lies in
 the local day of its start, and the slot check sees every row of that day, so as long as buffers stay as they are and
 wall-clock time runs forward, the blocks of a provider's appointments stay disjoint.
 */
module DayRuns {
  import opened Options
  import opened Statuses
  import opened Calendar
  import opened Slots
  import opened SlotTheorems
  import opened Desk
  import opened DayChecks
  import opened BookingRuns
  import opened BufferedRuns

  /** A catalogue change leaves the service's buffers as they are; assignments, windows and all else may change. */
  predicate KeepsBuffers(before: Catalogue, after: Catalogue, service: Option<int>) {
    service.Some? ==>
      var id := service.value;
      && (id in before.services <==> id in after.services)
      && (id in before.services ==>
            && after.services[id].before == before.services[id].before
            && after.services[id].after == before.services[id].after)
  }

  /** The services in use: of blocking appointments, and of transactions that have resolved their timing. */
  predicate KeepsUsedBuffers(s: State, after: Catalogue) {
    && (forall i :: 0 <= i < |s.appointments| && Blocking(s.appointments[i].status)
                    ==> KeepsBuffers(s.cat, after, s.appointments[i].service))
    && (forall x :: x in s.txns && Order(s.txns[x].stage) >= Order(Timed)
                    ==> KeepsBuffers(s.cat, after, s.txns[x].request.service))
  }

  predicate SteadyRun(s: State, actions: seq<Action>)
    decreases |actions|
  {
    actions == [] ||
    (var before, a := actions[..|actions| - 1], actions[|actions| - 1];
     SteadyRun(s, before) && (a.ChangeCatalogue? ==> KeepsUsedBuffers(Run(s, before), a.cat)))
  }

  // ----- The invariant ----------------------------------------------------------------------------

  /** The block lies in the local day of `start`. */
  predicate InOwnDay(zone: Zone, start: int, block: Interval) {
    var day := zone.dayOf(start);
    zone.utc(day * DAY) <= block.start && block.start <= start < block.end <= zone.utc((day + 1) * DAY)
  }

  predicate RowsInOwnDays(s: State) {
    forall i :: 0 <= i < |s.appointments| && Blocking(s.appointments[i].status) ==>
      && s.appointments[i].visible.start < s.appointments[i].visible.end
      && InOwnDay(s.zone, s.appointments[i].visible.start, OwnBlock(s.appointments[i], s.cat.services))
  }

  /** The block a transaction resolved is the block the stored row will have. */
  predicate BlockMatches(cat: Catalogue, t: Txn) {
    Order(t.stage) >= Order(Timed) ==>
      && t.block == OwnBlock(RowOf(t), cat.services)
      && (t.request.service.Some? ==> t.request.service.value in cat.services)
  }

  /** Once approved, the block lies in its day and meets no rival's block. */
  ghost predicate TxnInDay(s: State, t: Txn) {
    && BlockMatches(s.cat, t)
    && (t.stage == Approved ==>
          && InOwnDay(s.zone, t.visible.start, t.block)
          && forall i ::
                 Rival(s.appointments, t, i) ==> !Overlaps(t.block, OwnBlock(s.appointments[i], s.cat.services)))
  }

  ghost predicate DaySound(s: State) {
    && BufferedDisjoint(s.cat.services, s.appointments)
    && RowsInOwnDays(s)
    && forall x :: x in s.txns ==> TxnInDay(s, s.txns[x])
  }

  // ----- The slot check ---------------------------------------------------------------------------

  /** Blocks of two different days lie apart. */
  lemma DaysApart(zone: Zone, start: int, block: Interval, other: int, otherBlock: Interval)
    requires ForwardZone(zone) && InOwnDay(zone, start, block) && InOwnDay(zone, other, otherBlock)
    requires zone.dayOf(start) != zone.dayOf(other)
    ensures !Overlaps(block, otherBlock)
  {
    var d, e := zone.dayOf(start), zone.dayOf(other);
    if d < e {
      assert Increasing(zone, d, e);
      DaysInOrder(zone, d, e, d, e);
    } else {
      assert Increasing(zone, e, d);
      DaysInOrder(zone, e, d, e, d);
    }
  }

  /** A row of the day is seen by the day's query, whatever is assigned. */
  lemma OwnDayIsSeen(zone: Zone, a: Appointment, own: (nat, nat), buffers: (nat, nat))
    requires Blocking(a.status) && a.visible.start < a.visible.end
    requires InOwnDay(zone, a.visible.start, BlockedInterval(a.visible, own.0, own.1))
    ensures Seen(a, zone, zone.dayOf(a.visible.start), buffers)
  {
  }

  /** What the slot check approves lies in its day and meets no blocking row of the provider. */
  lemma ApprovedIsFree(s: State, t: Txn, i: int)
    requires ForwardZone(s.zone) && RowsInOwnDays(s) && BlockMatches(s.cat, t) && t.stage == Decided
    requires t.visible.start < t.visible.end
    requires SlotListed(s.cat, s.appointments, s.zone, t.request.provider, t.request.location, t.request.service,
                        t.visible)
    requires 0 <= i < |s.appointments| && BlockingFor(s.appointments[i], t.request.provider)
    ensures InOwnDay(s.zone, t.visible.start, t.block)
    ensures !Overlaps(t.block, OwnBlock(s.appointments[i], s.cat.services))
  {
    var day, a := s.zone.dayOf(t.visible.start), s.appointments[i];
    ApprovedInDay(s, t);
    if s.zone.dayOf(a.visible.start) == day {
      OwnDayIsSeen(s.zone, a, OwnBuffers(a, s.cat.services), MaxProviderBuffers(s.cat, t.request.provider));
      ListedAvoids(s.cat, s.appointments, s.zone, t.request.provider, t.request.location, day, t.request.service,
                   Slot(t.visible.start, t.visible.end), i);
    } else {
      DaysApart(s.zone, t.visible.start, t.block, a.visible.start, OwnBlock(a, s.cat.services));
    }
  }

  lemma ApprovedInDay(s: State, t: Txn)
    requires ForwardZone(s.zone) && BlockMatches(s.cat, t) && t.stage == Decided && t.visible.start < t.visible.end
    requires SlotListed(s.cat, s.appointments, s.zone, t.request.provider, t.request.location, t.request.service,
                        t.visible)
    ensures InOwnDay(s.zone, t.visible.start, t.block)
    ensures var timing := ResolveTiming(s.cat, t.request.provider, t.request.location, t.request.service);
            timing.Ok? && t.block == BlockAt(t.visible.start, timing.value)
  {
    var r := t.request;
    var timing := ListedInOwnDay(s.cat, s.appointments, s.zone, r.provider, r.location, r.service, t.visible);
    SameBlock(s.cat, t, timing);
  }

  lemma ListedInOwnDay(cat: Catalogue, appointments: seq<Appointment>, zone: Zone, provider: int, location: int,
                       service: Option<int>, visible: Interval) returns (timing: Timing)
    requires ForwardZone(zone) && SlotListed(cat, appointments, zone, provider, location, service, visible)
    ensures ResolveTiming(cat, provider, location, service) == Ok(timing)
    ensures SlotAt(timing, visible.start) == Slot(visible.start, visible.end)
    ensures InOwnDay(zone, visible.start, BlockAt(visible.start, timing))
  {
    var day, slot := zone.dayOf(visible.start), Slot(visible.start, visible.end);
    assert Increasing(zone, day, day);
    var q := ListedIsStop(cat, appointments, zone, provider, location, day, service, slot);
    timing := q.timing;
  }

  /** The slot check resolves the buffers the transaction resolved, because they have not changed. */
  lemma SameBlock(cat: Catalogue, t: Txn, timing: Timing)
    requires BlockMatches(cat, t) && t.stage == Decided
    requires ResolveTiming(cat, t.request.provider, t.request.location, t.request.service) == Ok(timing)
    requires SlotAt(timing, t.visible.start) == Slot(t.visible.start, t.visible.end)
    ensures t.block == BlockAt(t.visible.start, timing)
  {
    assert VisibleAt(t.visible.start, timing) == t.visible;
  }

  // ----- Steps ------------------------------------------------------------------------------------

  lemma StepInDay(s: State, x: int, t: Txn)
    requires DaySound(s) && TxnInDay(s, t)
    ensures DaySound(s.(txns := s.txns[x := t]))
  {
  }

  lemma EndedInDay(s: State, x: int)
    requires DaySound(s)
    ensures DaySound(Ended(s, x))
  {
  }

  lemma ResolvedInDay(s: State, x: int)
    requires DaySound(s) && x in s.txns
    ensures DaySound(Next(s, ResolveTime(x)))
  {
    var t := s.txns[x];
    EndedInDay(s, x);
    var timing := TimingOf(s.cat, t);
    if t.stage == ProviderLocked && timing.Ok? && Blocking(t.request.status) {
      assert timing == ResolveTiming(s.cat, t.request.provider, t.request.location, t.request.service);
      StepInDay(s, x, t.(stage := Timed, visible := VisibleAt(t.request.start, timing.value),
                         block := BlockAt(t.request.start, timing.value)));
    }
  }

  /** The conflict check's reads and decision add nothing the slot check does not find again. */
  lemma ReadsInDay(s: State, x: int)
    requires DaySound(s) && x in s.txns
    ensures DaySound(Next(s, ReadBuffers(x))) && DaySound(Next(s, ReadRows(x))) && DaySound(Next(s, Decide(x)))
  {
    var t := s.txns[x];
    EndedInDay(s, x);
    if t.stage == Timed {
      StepInDay(s, x, t.(stage := BuffersRead, buffers := MaxProviderBuffers(s.cat, t.request.provider)));
    }
    if t.stage == BuffersRead {
      StepInDay(s, x, t.(stage := RowsRead, rows := QueriedRows(s.appointments, t)));
    }
    if t.stage == RowsRead {
      StepInDay(s, x, t.(stage := Decided));
    }
  }

  lemma CheckedInDay(s: State, x: int)
    requires Sound(s) && DaySound(s) && ForwardZone(s.zone) && x in s.txns
    ensures DaySound(Next(s, CheckSlot(x)))
  {
    var t := s.txns[x];
    EndedInDay(s, x);
    if t.stage == Decided
      && SlotListed(s.cat, s.appointments, s.zone, t.request.provider, t.request.location, t.request.service,
                    t.visible) {
      assert TxnSound(s.appointments, t) && TxnInDay(s, t);
      ApprovedInDay(s, t);
      var u := t.(stage := Approved);
      forall i | Rival(s.appointments, u, i) ensures !Overlaps(u.block, OwnBlock(s.appointments[i], s.cat.services)) {
        ApprovedIsFree(s, t, i);
      }
      StepInDay(s, x, u);
    }
  }

  lemma CommitInDay(s: State, x: int)
    requires Sound(s) && DaySound(s) && x in s.txns && s.txns[x].stage == Approved
    ensures DaySound(Next(s, Commit(x)))
  {
    var t := s.txns[x];
    var rows := Written(s.appointments, t);
    var k := if t.moving.Some? then t.moving.value else |s.appointments|;
    assert MovingSound(s.appointments, t) && TxnSound(s.appointments, t) && TxnInDay(s, t);
    assert OwnBlock(rows[k], s.cat.services) == t.block && rows[k].visible == t.visible;
    assert forall i :: 0 <= i < |rows| && i != k ==> i < |s.appointments| && rows[i] == s.appointments[i];
    forall i | Rival(s.appointments, t, i) ensures !Overlaps(t.block, OwnBlock(s.appointments[i], s.cat.services)) {
    }
    CommitDisjoint(s.cat.services, s.appointments, rows, t, k);
    var u := s.(appointments := rows);
    assert RowsInOwnDays(u);
    OthersStayInDay(s, x, rows, k);
  }

  /** Under the provider's lock a commit changes no rival of another approved transaction. */
  lemma OthersStayInDay(s: State, x: int, rows: seq<Appointment>, k: int)
    requires Sound(s) && DaySound(s) && x in s.txns && s.txns[x].stage == Approved
    requires rows == Written(s.appointments, s.txns[x])
    requires k == if s.txns[x].moving.Some? then s.txns[x].moving.value else |s.appointments|
    ensures forall y :: y in s.txns && y != x ==> TxnInDay(s.(appointments := rows), s.txns[y])
  {
    forall y | y in s.txns && y != x ensures TxnInDay(s.(appointments := rows), s.txns[y]) {
      assert TxnInDay(s, s.txns[y]) && !HoldsProvider(s.txns[y], s.txns[x].request.provider);
      assert MovingSound(s.appointments, s.txns[x]);
      forall i | Rival(rows, s.txns[y], i) && s.txns[y].stage == Approved
        ensures Rival(s.appointments, s.txns[y], i) && rows[i] == s.appointments[i]
      {
      }
    }
  }

  lemma StatusInDay(s: State, id: int, status: AppointmentStatus)
    requires DaySound(s) && 0 <= id < |s.appointments|
    requires Blocking(status) ==> Blocking(s.appointments[id].status)
    ensures DaySound(SetStatus(s, id, status))
  {
    var u := SetStatus(s, id, status);
    forall y | y in s.txns ensures TxnInDay(u, s.txns[y]) {
      assert TxnInDay(s, s.txns[y]);
      forall i | Rival(u.appointments, s.txns[y], i)
        ensures Rival(s.appointments, s.txns[y], i)
        ensures OwnBlock(u.appointments[i], s.cat.services) == OwnBlock(s.appointments[i], s.cat.services)
      {
      }
    }
  }

  lemma CatalogueInDay(s: State, after: Catalogue)
    requires DaySound(s) && KeepsUsedBuffers(s, after)
    ensures DaySound(s.(cat := after))
  {
    forall i | 0 <= i < |s.appointments| && Blocking(s.appointments[i].status)
      ensures OwnBlock(s.appointments[i], after.services) == OwnBlock(s.appointments[i], s.cat.services)
    {
      assert KeepsBuffers(s.cat, after, s.appointments[i].service);
    }
    forall x | x in s.txns ensures TxnInDay(s.(cat := after), s.txns[x]) {
      assert TxnInDay(s, s.txns[x]);
      if Order(s.txns[x].stage) >= Order(Timed) {
        assert KeepsBuffers(s.cat, after, s.txns[x].request.service);
      }
    }
  }

  /** The steps that belong to no transaction. */
  lemma OutsideInDay(s: State, a: Action)
    requires DaySound(s) && (a.ChangeCatalogue? ==> KeepsUsedBuffers(s, a.cat))
    requires a.BeginCreate? || a.BeginReschedule? || a.Cancel? || a.PaymentSucceeds? || a.PaymentLapses?
             || a.ChangeCatalogue?
    ensures DaySound(Next(s, a))
  {
    match a
    case BeginCreate(x, r) => StepInDay(s, x, NewTxn(r, None));
    case BeginReschedule(x, id, start) =>
      StepInDay(s, x, NewTxn(Request(0, 0, None, 0, None, start, Pending), Some(id)));
    case Cancel(id) =>
      if 0 <= id < |s.appointments| {
        StatusInDay(s, id, Cancelled);
      }
    case PaymentSucceeds(id) =>
      if 0 <= id < |s.appointments|
          && (s.appointments[id].status == PendingPayment || s.appointments[id].status == Pending) {
        StatusInDay(s, id, Confirmed);
      }
    case PaymentLapses(id) =>
      if 0 <= id < |s.appointments| && s.appointments[id].status == PendingPayment {
        StatusInDay(s, id, Cancelled);
      }
    case ChangeCatalogue(cat) => CatalogueInDay(s, cat);
  }

  lemma LocksInDay(s: State, x: int)
    requires DaySound(s) && x in s.txns
    ensures DaySound(Next(s, LockRow(x))) && DaySound(Next(s, LockProvider(x))) && DaySound(Next(s, Abort(x)))
  {
    EndedInDay(s, x);
  }

  lemma NextInDay(s: State, a: Action)
    requires Sound(s) && DaySound(s) && ForwardZone(s.zone)
    requires a.ChangeCatalogue? ==> KeepsUsedBuffers(s, a.cat)
    ensures DaySound(Next(s, a)) && Next(s, a).zone == s.zone
  {
    match a
    case LockRow(x) => if x in s.txns { LocksInDay(s, x); }
    case LockProvider(x) => if x in s.txns { LocksInDay(s, x); }
    case Abort(x) => if x in s.txns { LocksInDay(s, x); }
    case ResolveTime(x) => if x in s.txns { ResolvedInDay(s, x); }
    case ReadBuffers(x) => if x in s.txns { ReadsInDay(s, x); }
    case ReadRows(x) => if x in s.txns { ReadsInDay(s, x); }
    case Decide(x) => if x in s.txns { ReadsInDay(s, x); }
    case CheckSlot(x) => if x in s.txns { CheckedInDay(s, x); }
    case Commit(x) => if x in s.txns && s.txns[x].stage == Approved { CommitInDay(s, x); }
    case _ => OutsideInDay(s, a);
    ZoneStays(s, a);
  }

  lemma ZoneStays(s: State, a: Action)
    ensures Next(s, a).zone == s.zone
  {
  }

  lemma {:induction false} SteadyRunKeeps(s: State, actions: seq<Action>)
    requires Sound(s) && DaySound(s) && ForwardZone(s.zone) && SteadyRun(s, actions)
    ensures Sound(Run(s, actions)) && DaySound(Run(s, actions)) && Run(s, actions).zone == s.zone
    decreases |actions|
  {
    if actions != [] {
      var before := actions[..|actions| - 1];
      SteadyRunKeeps(s, before);
      BookingRuns.NextKeeps(Run(s, before), actions[|actions| - 1]);
      NextInDay(Run(s, before), actions[|actions| - 1]);
    }
  }

  /**
   In every interleaving whose catalogue changes spare the buffers in use, with services unassigned, windows edited
   and everything else changed at will, the blocks of a provider's appointments are pairwise disjoint, and each lies
   in the local day of its start.
   */
  lemma BlocksNeverOverlap(cat: Catalogue, zone: Zone, actions: seq<Action>, i: int, j: int)
    requires ForwardZone(zone) && SteadyRun(Empty(cat, zone), actions)
    requires var rows := Run(Empty(cat, zone), actions).appointments;
             && 0 <= i < |rows| && 0 <= j < |rows| && i != j && rows[i].provider == rows[j].provider
             && rows[i].status in {Pending, PendingPayment, Confirmed}
             && rows[j].status in {Pending, PendingPayment, Confirmed}
    ensures var s := Run(Empty(cat, zone), actions);
            var a, b := OwnBlock(s.appointments[i], s.cat.services), OwnBlock(s.appointments[j], s.cat.services);
            && (a.end <= b.start || b.end <= a.start)
            && InOwnDay(zone, s.appointments[i].visible.start, OwnBlock(s.appointments[i], s.cat.services))
  {
    SteadyRunKeeps(Empty(cat, zone), actions);
  }
}
