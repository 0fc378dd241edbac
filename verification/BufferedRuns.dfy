/**
 Bookings under concurrency, with buffers. As long as catalogue changes leave the buffers and assignments
 of services in use alone, the buffered blocks of a provider's appointments stay disjoint too; one buffer
 edit can make any two of them collide.
 */
module BufferedRuns {
  import opened Options
  import opened Statuses
  import opened Calendar
  import opened Slots
  import opened Desk
  import opened BookingRuns

  /** A catalogue change leaves the service's buffers, and its assignment to the provider, as they are. */
  predicate KeepsService(before: Catalogue, after: Catalogue, provider: int, service: Option<int>) {
    service.Some? ==>
      var id := service.value;
      && (id in before.services <==> id in after.services)
      && (id in before.services ==> after.services[id].before == before.services[id].before
                                    && after.services[id].after == before.services[id].after)
      && (IsAssigned(before.assignments, provider, id) ==> IsAssigned(after.assignments, provider, id))
  }

  /** The services in use: of blocking appointments, and of transactions that have resolved their timing. */
  predicate KeepsInUse(s: State, after: Catalogue) {
    && (forall i :: 0 <= i < |s.appointments| && Blocking(s.appointments[i].status)
                    ==> KeepsService(s.cat, after, s.appointments[i].provider, s.appointments[i].service))
    && (forall x :: x in s.txns && Order(s.txns[x].stage) >= Order(Timed)
                    ==> KeepsService(s.cat, after, s.txns[x].request.provider, s.txns[x].request.service))
  }

  predicate Gentle(s: State, a: Action) {
    a.ChangeCatalogue? ==> KeepsInUse(s, a.cat)
  }

  predicate GentleRun(s: State, actions: seq<Action>)
    decreases |actions|
  {
    actions == [] ||
    (var before := actions[..|actions| - 1];
     GentleRun(s, before) && Gentle(Run(s, before), actions[|actions| - 1]))
  }

  predicate BufferedDisjoint(services: map<int, Service>, appointments: seq<Appointment>) {
    forall i, j :: 0 <= i < j < |appointments| && Blocking(appointments[i].status) && Blocking(appointments[j].status)
                   && appointments[i].provider == appointments[j].provider
                   ==> !Overlaps(OwnBlock(appointments[i], services), OwnBlock(appointments[j], services))
  }

  predicate AllAssigned(cat: Catalogue, appointments: seq<Appointment>) {
    forall i :: 0 <= i < |appointments| && Blocking(appointments[i].status) && appointments[i].service.Some? ==>
      appointments[i].service.value in cat.services
      && IsAssigned(cat.assignments, appointments[i].provider, appointments[i].service.value)
  }

  predicate Within(own: (nat, nat), buffers: (nat, nat)) {
    own.0 <= buffers.0 && own.1 <= buffers.1
  }

  /** The block a transaction resolved is the block the stored row will have. */
  predicate BlockSound(cat: Catalogue, t: Txn) {
    Order(t.stage) >= Order(Timed) ==>
      && (t.request.service.Some? ==>
            && t.request.service.value in cat.services
            && IsAssigned(cat.assignments, t.request.provider, t.request.service.value))
      && t.block == OwnBlock(RowOf(t), cat.services)
  }

  function RowOf(t: Txn): Appointment {
    Appointment(t.request.provider, t.request.location, t.request.service, t.request.customer, t.visible,
                t.request.status)
  }

  ghost predicate TxnBuffered(cat: Catalogue, appointments: seq<Appointment>, t: Txn) {
    && BlockSound(cat, t)
    && (Order(t.stage) >= Order(BuffersRead) ==>
          forall i :: Rival(appointments, t, i) ==> Within(OwnBuffers(appointments[i], cat.services), t.buffers))
    && (t.stage == RowsRead ==>
          forall i :: Rival(appointments, t, i) && Overlaps(t.block, OwnBlock(appointments[i], cat.services))
            ==> i in t.rows && t.rows[i].visible == appointments[i].visible
                && t.rows[i].service == appointments[i].service)
    && (Order(t.stage) >= Order(Decided) ==>
          forall i :: Rival(appointments, t, i) ==> !Overlaps(t.block, OwnBlock(appointments[i], cat.services)))
  }

  ghost predicate Buffered(s: State) {
    && BufferedDisjoint(s.cat.services, s.appointments)
    && AllAssigned(s.cat, s.appointments)
    && (forall x :: x in s.txns ==> TxnBuffered(s.cat, s.appointments, s.txns[x]))
  }

  lemma StepBuffered(s: State, x: int, t: Txn)
    requires Buffered(s) && TxnBuffered(s.cat, s.appointments, t)
    ensures Buffered(s.(txns := s.txns[x := t]))
  {
  }

  lemma EndedBuffered(s: State, x: int)
    requires Buffered(s)
    ensures Buffered(Ended(s, x))
  {
  }

  lemma ResolvedBuffered(s: State, x: int)
    requires Buffered(s) && x in s.txns
    ensures Buffered(Next(s, ResolveTime(x)))
  {
    var t := s.txns[x];
    EndedBuffered(s, x);
    var timing := TimingOf(s.cat, t);
    if t.stage == ProviderLocked && timing.Ok? && Blocking(t.request.status) {
      assert timing == ResolveTiming(s.cat, t.request.provider, t.request.location, t.request.service);
      StepBuffered(s, x, t.(stage := Timed, visible := VisibleAt(t.request.start, timing.value),
                            block := BlockAt(t.request.start, timing.value)));
    }
  }

  lemma BuffersReadTxn(cat: Catalogue, appointments: seq<Appointment>, t: Txn)
    requires AllAssigned(cat, appointments) && TxnBuffered(cat, appointments, t) && t.stage == Timed
    ensures TxnBuffered(cat, appointments,
                        t.(stage := BuffersRead, buffers := MaxProviderBuffers(cat, t.request.provider)))
  {
    AssignedIsCovered(cat, appointments, t.request.provider);
  }

  lemma BuffersReadBuffered(s: State, x: int)
    requires Buffered(s) && x in s.txns
    ensures Buffered(Next(s, ReadBuffers(x)))
  {
    var t := s.txns[x];
    if t.stage == Timed {
      BuffersReadTxn(s.cat, s.appointments, t);
      StepBuffered(s, x, t.(stage := BuffersRead, buffers := MaxProviderBuffers(s.cat, t.request.provider)));
    }
  }

  lemma RowsReadTxn(cat: Catalogue, appointments: seq<Appointment>, t: Txn)
    requires TxnBuffered(cat, appointments, t) && t.stage == BuffersRead
    ensures TxnBuffered(cat, appointments, t.(stage := RowsRead, rows := QueriedRows(appointments, t)))
  {
    forall i | Rival(appointments, t, i) && Overlaps(t.block, OwnBlock(appointments[i], cat.services))
      ensures i in QueriedRows(appointments, t)
    {
      assert Within(OwnBuffers(appointments[i], cat.services), t.buffers);
      assert InQuery(appointments[i], t.request.provider, Widened(t.block, t.buffers));
    }
    var u := t.(stage := RowsRead, rows := QueriedRows(appointments, t));
    assert forall i :: Rival(appointments, u, i) <==> Rival(appointments, t, i);
  }

  lemma RowsReadBuffered(s: State, x: int)
    requires Buffered(s) && x in s.txns
    ensures Buffered(Next(s, ReadRows(x)))
  {
    var t := s.txns[x];
    if t.stage == BuffersRead {
      RowsReadTxn(s.cat, s.appointments, t);
      StepBuffered(s, x, t.(stage := RowsRead, rows := QueriedRows(s.appointments, t)));
    }
  }

  lemma DecidedBuffered(s: State, x: int)
    requires Buffered(s) && x in s.txns
    ensures Buffered(Next(s, Decide(x)))
  {
    var t := s.txns[x];
    EndedBuffered(s, x);
    if t.stage == RowsRead && !RowsMeet(t, s.cat.services) {
      var u := t.(stage := Decided);
      forall i | Rival(s.appointments, u, i) ensures !Overlaps(u.block, OwnBlock(s.appointments[i], s.cat.services)) {
        assert Rival(s.appointments, t, i);
      }
      forall i | Rival(s.appointments, u, i) ensures Within(OwnBuffers(s.appointments[i], s.cat.services), u.buffers) {
        assert Rival(s.appointments, t, i);
      }
      StepBuffered(s, x, u);
    }
  }

  lemma CheckedBuffered(s: State, x: int)
    requires Buffered(s) && x in s.txns
    ensures Buffered(Next(s, CheckSlot(x)))
  {
    var t := s.txns[x];
    EndedBuffered(s, x);
    if t.stage == Decided {
      var u := t.(stage := Approved);
      assert forall i :: Rival(s.appointments, u, i) <==> Rival(s.appointments, t, i);
      StepBuffered(s, x, u);
    }
  }

  lemma CommitBuffered(s: State, x: int)
    requires Sound(s) && Buffered(s) && x in s.txns && s.txns[x].stage == Approved
    ensures Buffered(Next(s, Commit(x)))
  {
    var t := s.txns[x];
    var rows := Written(s.appointments, t);
    assert MovingSound(s.appointments, t) && BlockSound(s.cat, t);
    forall y | y in s.txns && y != x ensures TxnBuffered(s.cat, rows, s.txns[y]) {
      assert TxnBuffered(s.cat, s.appointments, s.txns[y]);
      assert !HoldsProvider(s.txns[y], t.request.provider);
      forall i | Rival(rows, s.txns[y], i) && Order(s.txns[y].stage) >= Order(ProviderLocked)
        ensures Rival(s.appointments, s.txns[y], i) && rows[i] == s.appointments[i]
      {
      }
    }
    var k := if t.moving.Some? then t.moving.value else |s.appointments|;
    assert OwnBlock(rows[k], s.cat.services) == t.block;
    forall i | Rival(s.appointments, t, i) ensures !Overlaps(t.block, OwnBlock(s.appointments[i], s.cat.services)) {
    }
    assert forall i :: 0 <= i < |rows| && i != k ==> i < |s.appointments| && rows[i] == s.appointments[i];
    CommitDisjoint(s.cat.services, s.appointments, rows, t, k);
  }

  lemma CommitDisjoint(services: map<int, Service>, appointments: seq<Appointment>, rows: seq<Appointment>, t: Txn,
      k: int)
    requires BufferedDisjoint(services, appointments) && |appointments| <= |rows| && 0 <= k < |rows|
    requires t.moving == if k < |appointments| then Some(k) else None
    requires forall i :: 0 <= i < |rows| && i != k ==> i < |appointments| && rows[i] == appointments[i]
    requires rows[k].provider == t.request.provider && OwnBlock(rows[k], services) == t.block
    requires forall i :: Rival(appointments, t, i) ==> !Overlaps(t.block, OwnBlock(appointments[i], services))
    ensures BufferedDisjoint(services, rows)
  {
    forall i, j | 0 <= i < j < |rows| && Blocking(rows[i].status) && Blocking(rows[j].status)
        && rows[i].provider == rows[j].provider
      ensures !Overlaps(OwnBlock(rows[i], services), OwnBlock(rows[j], services))
    {
      if i == k {
        assert Rival(appointments, t, j);
      } else if j == k {
        assert Rival(appointments, t, i);
      }
    }
  }

  lemma StatusBuffered(s: State, id: int, status: AppointmentStatus)
    requires Buffered(s) && 0 <= id < |s.appointments|
    requires Blocking(status) ==> Blocking(s.appointments[id].status)
    ensures Buffered(SetStatus(s, id, status))
  {
    var rows := SetStatus(s, id, status).appointments;
    forall y | y in s.txns ensures TxnBuffered(s.cat, rows, s.txns[y]) {
      assert TxnBuffered(s.cat, s.appointments, s.txns[y]);
      forall i | Rival(rows, s.txns[y], i)
        ensures Rival(s.appointments, s.txns[y], i)
        ensures rows[i].visible == s.appointments[i].visible && rows[i].service == s.appointments[i].service
      {
      }
    }
  }

  lemma CatalogueBuffered(s: State, after: Catalogue)
    requires Buffered(s) && KeepsInUse(s, after)
    ensures Buffered(s.(cat := after))
  {
    forall i | 0 <= i < |s.appointments| && Blocking(s.appointments[i].status)
      ensures OwnBuffers(s.appointments[i], after.services) == OwnBuffers(s.appointments[i], s.cat.services)
    {
      assert KeepsService(s.cat, after, s.appointments[i].provider, s.appointments[i].service);
    }
    forall x | x in s.txns ensures TxnBuffered(after, s.appointments, s.txns[x]) {
      var t := s.txns[x];
      assert TxnBuffered(s.cat, s.appointments, t);
      if Order(t.stage) >= Order(Timed) {
        assert KeepsService(s.cat, after, t.request.provider, t.request.service);
      }
      forall i | Rival(s.appointments, t, i)
        ensures OwnBlock(s.appointments[i], after.services) == OwnBlock(s.appointments[i], s.cat.services)
      {
      }
    }
  }

  lemma LockBuffered(s: State, x: int, a: Action)
    requires Buffered(s) && x in s.txns && (a == LockRow(x) || a == LockProvider(x) || a == Abort(x))
    ensures Buffered(Next(s, a))
  {
    EndedBuffered(s, x);
  }

  lemma BeginBuffered(s: State, x: int, t: Txn)
    requires Buffered(s) && t.stage == Begun
    ensures Buffered(s.(txns := s.txns[x := t]))
  {
    StepBuffered(s, x, t);
  }

  lemma NextBuffered(s: State, a: Action)
    requires Sound(s) && Buffered(s) && Gentle(s, a)
    ensures Buffered(Next(s, a))
  {
    match a
    case BeginCreate(x, r) => BeginBuffered(s, x, NewTxn(r, None));
    case BeginReschedule(x, id, start) =>
      BeginBuffered(s, x, NewTxn(Request(0, 0, None, 0, None, start, Pending), Some(id)));
    case Cancel(id) =>
      if 0 <= id < |s.appointments| {
        StatusBuffered(s, id, Cancelled);
      }
    case PaymentSucceeds(id) =>
      if 0 <= id < |s.appointments|
          && (s.appointments[id].status == PendingPayment || s.appointments[id].status == Pending) {
        StatusBuffered(s, id, Confirmed);
      }
    case PaymentLapses(id) =>
      if 0 <= id < |s.appointments| && s.appointments[id].status == PendingPayment {
        StatusBuffered(s, id, Cancelled);
      }
    case ChangeCatalogue(cat) => CatalogueBuffered(s, cat);
    case ResolveTime(x) => if x in s.txns { ResolvedBuffered(s, x); }
    case ReadBuffers(x) => if x in s.txns { BuffersReadBuffered(s, x); }
    case ReadRows(x) => if x in s.txns { RowsReadBuffered(s, x); }
    case Decide(x) => if x in s.txns { DecidedBuffered(s, x); }
    case CheckSlot(x) => if x in s.txns { CheckedBuffered(s, x); }
    case Commit(x) =>
      if x in s.txns && s.txns[x].stage == Approved {
        CommitBuffered(s, x);
      }
    case _ => if a.x in s.txns { LockBuffered(s, a.x, a); }
  }

  lemma {:induction false} GentleRunKeeps(s: State, actions: seq<Action>)
    requires Sound(s) && Buffered(s) && GentleRun(s, actions)
    ensures Sound(Run(s, actions)) && Buffered(Run(s, actions))
    decreases |actions|
  {
    if actions != [] {
      var before := actions[..|actions| - 1];
      GentleRunKeeps(s, before);
      BookingRuns.NextKeeps(Run(s, before), actions[|actions| - 1]);
      NextBuffered(Run(s, before), actions[|actions| - 1]);
    }
  }

  /**
   In every interleaving whose catalogue changes spare the services in use, the blocks of a provider's
   appointments, with the buffers each service has at the end, are pairwise disjoint.
   */
  lemma BlocksNeverOverlap(cat: Catalogue, zone: Zone, actions: seq<Action>, i: int, j: int)
    requires GentleRun(Empty(cat, zone), actions)
    requires var rows := Run(Empty(cat, zone), actions).appointments;
             && 0 <= i < |rows| && 0 <= j < |rows| && i != j && rows[i].provider == rows[j].provider
             && Blocking(rows[i].status) && Blocking(rows[j].status)
    ensures var s := Run(Empty(cat, zone), actions);
            && !Overlaps(OwnBlock(s.appointments[i], s.cat.services), OwnBlock(s.appointments[j], s.cat.services))
            && BookedStillAssigned(s.cat, s.appointments, s.appointments[i].provider)
  {
    GentleRunKeeps(Empty(cat, zone), actions);
  }

  /**
   The premise is needed: whenever a provider has two blocking appointments, the earlier of a booked
   service, enlarging that service's buffer alone makes their blocks overlap.
   */
  lemma BufferEditCollides(s: State, i: int, j: int) returns (after: Catalogue)
    requires 0 <= i < |s.appointments| && 0 <= j < |s.appointments| && i != j
    requires BlockingFor(s.appointments[i], s.appointments[j].provider) && Blocking(s.appointments[j].status)
    requires s.appointments[i].visible.start < s.appointments[j].visible.end
    requires s.appointments[i].service.Some? && s.appointments[i].service.value in s.cat.services
    ensures after.assignments == s.cat.assignments && after.services.Keys == s.cat.services.Keys
    ensures forall id ::
                id in after.services && id != s.appointments[i].service.value
                ==> after.services[id] == s.cat.services[id]
    ensures !BufferedDisjoint(Next(s, ChangeCatalogue(after)).cat.services,
                              Next(s, ChangeCatalogue(after)).appointments)
  {
    var a, b := s.appointments[i], s.appointments[j];
    var id := a.service.value;
    var gap := b.visible.start - a.visible.end;
    var enough := if gap < 0 then 0 else gap + 1;
    after := s.cat.(services := s.cat.services[id := s.cat.services[id].(after := enough)]);
    assert Overlaps(OwnBlock(a, after.services), OwnBlock(b, after.services));
    if i < j {
      assert !BufferedDisjoint(after.services, s.appointments);
    } else {
      assert Overlaps(OwnBlock(b, after.services), OwnBlock(a, after.services));
    }
  }
}
