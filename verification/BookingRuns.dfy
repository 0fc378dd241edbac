/**
 Bookings under concurrency. A create or reschedule is a transaction of separate steps: it locks, reads the
 catalogue and the appointments in several queries, decides, and commits. Any number of transactions
 interleave with cancellations, payment results, expiry and changes to the catalogue, in any order.
 */
module BookingRuns {
  import opened Options
  import opened Statuses
  import opened Calendar
  import opened Slots
  import opened Desk

  datatype Stage = Begun | RowLocked | ProviderLocked | Timed | BuffersRead | RowsRead | Decided | Approved

  /** A transaction in progress; the fields after `stage` are filled in as it proceeds. */
  datatype Txn = Txn(
    stage: Stage,
    request: Request,
    moving: Option<int>,
    visible: Interval,
    block: Interval,
    buffers: (nat, nat),
    rows: map<int, Appointment>)

  datatype State = State(cat: Catalogue, appointments: seq<Appointment>, zone: Zone, txns: map<int, Txn>)

  datatype Action =
    | BeginCreate(x: int, request: Request)
    | BeginReschedule(x: int, id: int, start: int)
    | LockRow(x: int)
    | LockProvider(x: int)
    | ResolveTime(x: int)
    | ReadBuffers(x: int)
    | ReadRows(x: int)
    | Decide(x: int)
    | CheckSlot(x: int)
    | Commit(x: int)
    | Abort(x: int)
    | Cancel(id: int)
    | PaymentSucceeds(id: int)
    | PaymentLapses(id: int)
    | ChangeCatalogue(cat: Catalogue)

  function Order(s: Stage): nat {
    match s
    case Begun => 0 case RowLocked => 1 case ProviderLocked => 2 case Timed => 3
    case BuffersRead => 4 case RowsRead => 5 case Decided => 6 case Approved => 7
  }

  predicate HoldsProvider(t: Txn, provider: int) {
    Order(t.stage) >= Order(ProviderLocked) && t.request.provider == provider
  }

  predicate HoldsRow(t: Txn, id: int) {
    Order(t.stage) >= Order(RowLocked) && t.moving == Some(id)
  }

  predicate ProviderFree(s: State, provider: int) {
    forall x :: x in s.txns ==> !HoldsProvider(s.txns[x], provider)
  }

  predicate RowFree(s: State, id: int) {
    forall x :: x in s.txns ==> !HoldsRow(s.txns[x], id)
  }

  function Ended(s: State, x: int): State {
    s.(txns := map y | y in s.txns && y != x :: s.txns[y])
  }

  function SetStatus(s: State, id: int, status: AppointmentStatus): State
    requires 0 <= id < |s.appointments|
  {
    s.(appointments := s.appointments[id := s.appointments[id].(status := status)])
  }

  /** The rows a query returns, with what they held when they were read. */
  function QueriedRows(appointments: seq<Appointment>, t: Txn): map<int, Appointment> {
    map i | 0 <= i < |appointments| && t.moving != Some(i)
            && InQuery(appointments[i], t.request.provider, Widened(t.block, t.buffers)) :: appointments[i]
  }

  predicate RowsMeet(t: Txn, services: map<int, Service>) {
    exists i :: i in t.rows && Overlaps(t.block, OwnBlock(t.rows[i], services))
  }

  /** The request a reschedule amounts to: the row's own provider, location and service, at the new start. */
  function MoveRequest(a: Appointment, start: int): Request {
    Request(a.provider, a.location, a.service, a.customer, None, start, a.status)
  }

  function TimingOf(cat: Catalogue, t: Txn): Result<Timing> {
    if t.moving.None? then Admitted(cat, t.request)
    else if t.request.provider !in cat.providers || !cat.providers[t.request.provider].isActive then Err(NotFound)
    else ResolveTiming(cat, t.request.provider, t.request.location, t.request.service)
  }

  function Written(appointments: seq<Appointment>, t: Txn): seq<Appointment> {
    match t.moving
    case None =>
      var r := t.request;
      appointments + [Appointment(r.provider, r.location, r.service, r.customer, t.visible, r.status)]
    case Some(id) =>
      if 0 <= id < |appointments| then appointments[id := appointments[id].(visible := t.visible)] else appointments
  }

  /** One step of transaction `x`. A step whose lock is taken waits: it changes nothing. */
  function Advance(s: State, x: int, a: Action): State
    requires x in s.txns
  {
    var t := s.txns[x];
    match a
    case LockRow(_) =>
      if t.stage != Begun || t.moving.None? || !RowFree(s, t.moving.value) then s
      else if !(0 <= t.moving.value < |s.appointments|) || !Blocking(s.appointments[t.moving.value].status)
          then Ended(s, x)
      else
        s.(txns := s.txns[x := t.(stage := RowLocked,
                                  request := MoveRequest(s.appointments[t.moving.value], t.request.start))])
    case LockProvider(_) =>
      if t.stage != (if t.moving.None? then Begun else RowLocked) || !ProviderFree(s, t.request.provider) then s
      else s.(txns := s.txns[x := t.(stage := ProviderLocked)])
    case ResolveTime(_) =>
      if t.stage != ProviderLocked then s
      else
        var timing := TimingOf(s.cat, t);
        if timing.Err? || !Blocking(t.request.status) then Ended(s, x)
        else
          s.(txns := s.txns[x := t.(stage := Timed, visible := VisibleAt(t.request.start, timing.value),
                                    block := BlockAt(t.request.start, timing.value))])
    case ReadBuffers(_) =>
      if t.stage != Timed then s
      else s.(txns := s.txns[x := t.(stage := BuffersRead, buffers := MaxProviderBuffers(s.cat, t.request.provider))])
    case ReadRows(_) =>
      if t.stage != BuffersRead then s
      else s.(txns := s.txns[x := t.(stage := RowsRead, rows := QueriedRows(s.appointments, t))])
    case Decide(_) =>
      if t.stage != RowsRead then s
      else if RowsMeet(t, s.cat.services) then Ended(s, x)
      else s.(txns := s.txns[x := t.(stage := Decided)])
    case CheckSlot(_) =>
      if t.stage != Decided then s
      else if !SlotListed(s.cat, s.appointments, s.zone, t.request.provider, t.request.location, t.request.service,
                          t.visible)
      then Ended(s, x)
      else s.(txns := s.txns[x := t.(stage := Approved)])
    case Commit(_) =>
      if t.stage != Approved then s
      else Ended(s.(appointments := Written(s.appointments, t)), x)
    case _ => Ended(s, x)
  }

  function NewTxn(r: Request, moving: Option<int>): Txn {
    Txn(Begun, r, moving, Interval(0, 0), Interval(0, 0), (0, 0), map[])
  }

  function Next(s: State, a: Action): State {
    match a
    case BeginCreate(x, r) => if x in s.txns then s else s.(txns := s.txns[x := NewTxn(r, None)])
    case BeginReschedule(x, id, start) =>
      if x in s.txns then s
      else s.(txns := s.txns[x := NewTxn(Request(0, 0, None, 0, None, start, Pending), Some(id))])
    case Cancel(id) =>
      if 0 <= id < |s.appointments| && RowFree(s, id) && ProviderFree(s, s.appointments[id].provider)
         && CancelledAt(s.appointments, id).Ok?
      then s.(appointments := CancelledAt(s.appointments, id).value) else s
    case PaymentSucceeds(id) =>
      if 0 <= id < |s.appointments| && RowFree(s, id)
         && (s.appointments[id].status == PendingPayment || s.appointments[id].status == Pending)
      then SetStatus(s, id, Confirmed) else s
    case PaymentLapses(id) =>
      if 0 <= id < |s.appointments| && RowFree(s, id) && s.appointments[id].status == PendingPayment
      then SetStatus(s, id, Cancelled) else s
    case ChangeCatalogue(cat) => s.(cat := cat)
    case _ => if a.x in s.txns then Advance(s, a.x, a) else s
  }

  function Run(s: State, actions: seq<Action>): State
    decreases |actions|
  {
    if actions == [] then s else Next(Run(s, actions[..|actions| - 1]), actions[|actions| - 1])
  }

  function Empty(cat: Catalogue, zone: Zone): State {
    State(cat, [], zone, map[])
  }

  // ----- Visible times: no premise on the catalogue -------------------------------------------------

  predicate VisibleDisjoint(appointments: seq<Appointment>) {
    forall i, j :: 0 <= i < j < |appointments| && Blocking(appointments[i].status) && Blocking(appointments[j].status)
                   && appointments[i].provider == appointments[j].provider
                   ==> !Overlaps(appointments[i].visible, appointments[j].visible)
  }

  /** The rows that compete with a transaction for its provider's time. */
  predicate Rival(appointments: seq<Appointment>, t: Txn, i: int) {
    0 <= i < |appointments| && t.moving != Some(i) && BlockingFor(appointments[i], t.request.provider)
  }

  predicate MovingSound(appointments: seq<Appointment>, t: Txn) {
    t.moving.Some? && Order(t.stage) >= Order(RowLocked) ==>
      && 0 <= t.moving.value < |appointments|
      && Blocking(appointments[t.moving.value].status)
      && appointments[t.moving.value].provider == t.request.provider
      && appointments[t.moving.value].service == t.request.service
  }

  ghost predicate TxnSound(appointments: seq<Appointment>, t: Txn) {
    && MovingSound(appointments, t)
    && (Order(t.stage) >= Order(Timed) ==>
          && Blocking(t.request.status)
          && t.visible.start < t.visible.end
          && t.block.start <= t.visible.start && t.visible.end <= t.block.end)
    && (t.stage == RowsRead ==> forall i :: Rival(appointments, t, i) && Overlaps(t.visible, appointments[i].visible)
                                  ==> i in t.rows && t.rows[i].visible == appointments[i].visible)
    && (Order(t.stage) >= Order(Decided) ==>
          forall i :: Rival(appointments, t, i) ==> !Overlaps(t.visible, appointments[i].visible))
  }

  ghost predicate LocksSound(s: State) {
    forall x, y :: x in s.txns && y in s.txns && x != y ==>
      && !(Order(s.txns[x].stage) >= Order(ProviderLocked) && HoldsProvider(s.txns[y], s.txns[x].request.provider))
      && !(Order(s.txns[x].stage) >= Order(RowLocked) && s.txns[x].moving.Some?
           && HoldsRow(s.txns[y], s.txns[x].moving.value))
  }

  ghost predicate Sound(s: State) {
    && VisibleDisjoint(s.appointments)
    && LocksSound(s)
    && (forall x :: x in s.txns ==> TxnSound(s.appointments, s.txns[x]))
  }

  lemma EndedKeeps(s: State, x: int)
    requires Sound(s)
    ensures Sound(Ended(s, x))
  {
  }

  /** A transaction that takes no lock and writes nothing keeps the rest as it was. */
  lemma StepKeeps(s: State, x: int, t: Txn)
    requires Sound(s) && x in s.txns && TxnSound(s.appointments, t)
    requires t.moving == s.txns[x].moving && t.request == s.txns[x].request
    requires Order(t.stage) >= Order(ProviderLocked) ==> Order(s.txns[x].stage) >= Order(ProviderLocked)
    requires Order(t.stage) >= Order(RowLocked) ==> Order(s.txns[x].stage) >= Order(RowLocked)
    ensures Sound(s.(txns := s.txns[x := t]))
  {
  }

  lemma RowsReadSound(appointments: seq<Appointment>, t: Txn)
    requires TxnSound(appointments, t) && t.stage == BuffersRead
    ensures TxnSound(appointments, t.(stage := RowsRead, rows := QueriedRows(appointments, t)))
  {
    var u := t.(stage := RowsRead, rows := QueriedRows(appointments, t));
    forall i | Rival(appointments, u, i) && Overlaps(u.visible, appointments[i].visible)
      ensures i in u.rows && u.rows[i].visible == appointments[i].visible
    {
      assert InQuery(appointments[i], t.request.provider, Widened(t.block, t.buffers));
    }
  }

  lemma DecidedSound(appointments: seq<Appointment>, t: Txn, services: map<int, Service>)
    requires TxnSound(appointments, t) && t.stage == RowsRead && !RowsMeet(t, services)
    ensures TxnSound(appointments, t.(stage := Decided))
  {
    forall i | Rival(appointments, t, i) ensures !Overlaps(t.visible, appointments[i].visible) {
      if Overlaps(t.visible, appointments[i].visible) {
        assert Overlaps(t.block, OwnBlock(t.rows[i], services));
      }
    }
  }

  lemma CommitKeeps(s: State, x: int)
    requires Sound(s) && x in s.txns && s.txns[x].stage == Approved
    ensures Sound(Next(s, Commit(x)))
  {
    var t := s.txns[x];
    var rows := Written(s.appointments, t);
    forall y | y in s.txns && y != x ensures TxnSound(rows, s.txns[y]) {
      assert TxnSound(s.appointments, s.txns[y]);
      assert !HoldsProvider(s.txns[y], t.request.provider);
      forall i | Rival(rows, s.txns[y], i) && Order(s.txns[y].stage) >= Order(ProviderLocked)
        ensures Rival(s.appointments, s.txns[y], i) && rows[i] == s.appointments[i]
      {
      }
    }
    assert forall i :: 0 <= i < |s.appointments| && t.moving != Some(i) ==> rows[i] == s.appointments[i];
    assert forall i :: Rival(s.appointments, t, i) ==> !Overlaps(t.visible, s.appointments[i].visible);
  }

  /** A status change that makes no row blocking, under a free row lock. */
  lemma StatusKeeps(s: State, id: int, status: AppointmentStatus)
    requires Sound(s) && 0 <= id < |s.appointments| && RowFree(s, id)
    requires Blocking(status) ==> Blocking(s.appointments[id].status)
    ensures Sound(SetStatus(s, id, status))
  {
    var rows := SetStatus(s, id, status).appointments;
    forall y | y in s.txns ensures TxnSound(rows, s.txns[y]) {
      assert TxnSound(s.appointments, s.txns[y]) && !HoldsRow(s.txns[y], id);
      forall i | Rival(rows, s.txns[y], i)
          ensures Rival(s.appointments, s.txns[y], i) && rows[i].visible == s.appointments[i].visible {
      }
    }
  }

  lemma LockRowKeeps(s: State, x: int)
    requires Sound(s) && x in s.txns
    ensures Sound(Next(s, LockRow(x)))
  {
    EndedKeeps(s, x);
  }

  lemma LockProviderKeeps(s: State, x: int)
    requires Sound(s) && x in s.txns
    ensures Sound(Next(s, LockProvider(x)))
  {
  }

  lemma ResolveTimeKeeps(s: State, x: int)
    requires Sound(s) && x in s.txns
    ensures Sound(Next(s, ResolveTime(x)))
  {
    var t := s.txns[x];
    EndedKeeps(s, x);
    var timing := TimingOf(s.cat, t);
    if t.stage == ProviderLocked && timing.Ok? && Blocking(t.request.status) {
      StepKeeps(s, x, t.(stage := Timed, visible := VisibleAt(t.request.start, timing.value),
                         block := BlockAt(t.request.start, timing.value)));
    }
  }

  /** The reads and the two decisions. */
  lemma ReadsKeep(s: State, x: int)
    requires Sound(s) && x in s.txns
    ensures Sound(Next(s, ReadBuffers(x))) && Sound(Next(s, ReadRows(x)))
  {
    var t := s.txns[x];
    if t.stage == Timed {
      StepKeeps(s, x, t.(stage := BuffersRead, buffers := MaxProviderBuffers(s.cat, t.request.provider)));
    }
    if t.stage == BuffersRead {
      RowsReadSound(s.appointments, t);
      StepKeeps(s, x, t.(stage := RowsRead, rows := QueriedRows(s.appointments, t)));
    }
  }

  lemma DecisionsKeep(s: State, x: int)
    requires Sound(s) && x in s.txns
    ensures Sound(Next(s, Decide(x))) && Sound(Next(s, CheckSlot(x)))
  {
    var t := s.txns[x];
    EndedKeeps(s, x);
    if t.stage == RowsRead && !RowsMeet(t, s.cat.services) {
      DecidedSound(s.appointments, t, s.cat.services);
      StepKeeps(s, x, t.(stage := Decided));
    }
    if t.stage == Decided {
      StepKeeps(s, x, t.(stage := Approved));
    }
  }

  lemma EndsKeep(s: State, x: int)
    requires Sound(s) && x in s.txns
    ensures Sound(Next(s, Commit(x))) && Sound(Next(s, Abort(x)))
  {
    EndedKeeps(s, x);
    if s.txns[x].stage == Approved {
      CommitKeeps(s, x);
    }
  }

  lemma BeginKeeps(s: State, x: int, t: Txn)
    requires Sound(s) && x !in s.txns && t.stage == Begun
    ensures Sound(s.(txns := s.txns[x := t]))
  {
  }

  /** The steps that belong to no transaction: beginnings, status changes, catalogue changes. */
  lemma OutsideKeeps(s: State, a: Action)
    requires Sound(s)
    requires a.BeginCreate? || a.BeginReschedule? || a.Cancel? || a.PaymentSucceeds? || a.PaymentLapses?
             || a.ChangeCatalogue?
    ensures Sound(Next(s, a))
  {
    match a
    case BeginCreate(x, r) =>
      if x !in s.txns {
        BeginKeeps(s, x, NewTxn(r, None));
      }
    case BeginReschedule(x, id, start) =>
      if x !in s.txns {
        BeginKeeps(s, x, NewTxn(Request(0, 0, None, 0, None, start, Pending), Some(id)));
      }
    case Cancel(id) =>
      if 0 <= id < |s.appointments| && RowFree(s, id) {
        StatusKeeps(s, id, Cancelled);
      }
    case PaymentSucceeds(id) =>
      if 0 <= id < |s.appointments| && RowFree(s, id)
         && (s.appointments[id].status == PendingPayment || s.appointments[id].status == Pending) {
        StatusKeeps(s, id, Confirmed);
      }
    case PaymentLapses(id) =>
      if 0 <= id < |s.appointments| && RowFree(s, id) && s.appointments[id].status == PendingPayment {
        StatusKeeps(s, id, Cancelled);
      }
    case ChangeCatalogue(cat) =>
  }

  lemma NextKeeps(s: State, a: Action)
    requires Sound(s)
    ensures Sound(Next(s, a))
  {
    match a
    case LockRow(x) => if x in s.txns { LockRowKeeps(s, x); }
    case LockProvider(x) => if x in s.txns { LockProviderKeeps(s, x); }
    case ResolveTime(x) => if x in s.txns { ResolveTimeKeeps(s, x); }
    case ReadBuffers(x) => if x in s.txns { ReadsKeep(s, x); }
    case ReadRows(x) => if x in s.txns { ReadsKeep(s, x); }
    case Decide(x) => if x in s.txns { DecisionsKeep(s, x); }
    case CheckSlot(x) => if x in s.txns { DecisionsKeep(s, x); }
    case Commit(x) => if x in s.txns { EndsKeep(s, x); }
    case Abort(x) => if x in s.txns { EndsKeep(s, x); }
    case _ => OutsideKeeps(s, a);
  }

  lemma {:induction false} RunKeeps(s: State, actions: seq<Action>)
    requires Sound(s)
    ensures Sound(Run(s, actions))
    decreases |actions|
  {
    if actions != [] {
      RunKeeps(s, actions[..|actions| - 1]);
      NextKeeps(Run(s, actions[..|actions| - 1]), actions[|actions| - 1]);
    }
  }

  /**
   In every interleaving, with the catalogue changing arbitrarily between any two steps, no two blocking
   appointments of one provider have overlapping visible times: the exclusion constraint never fires.
   */
  lemma VisibleTimesNeverOverlap(cat: Catalogue, zone: Zone, actions: seq<Action>, i: int, j: int)
    requires var rows := Run(Empty(cat, zone), actions).appointments;
             && 0 <= i < |rows| && 0 <= j < |rows| && i != j && rows[i].provider == rows[j].provider
             && rows[i].status in {Pending, PendingPayment, Confirmed}
             && rows[j].status in {Pending, PendingPayment, Confirmed}
    ensures var rows := Run(Empty(cat, zone), actions).appointments;
            rows[i].visible.end <= rows[j].visible.start || rows[j].visible.end <= rows[i].visible.start
  {
    RunKeeps(Empty(cat, zone), actions);
  }

  // ----- What a step may change -------------------------------------------------------------------

  /** How a step may change an appointment: its status by a cancellation or a payment, its time by a reschedule. */
  predicate RowChange(s: State, a: Action, i: int, before: Appointment, after: Appointment) {
    && after == before.(status := after.status, visible := after.visible)
    && (|| after.status == before.status
        || (after.status == Cancelled && a == Cancel(i) && before.status in {Pending, PendingPayment, Confirmed})
        || (after.status == Cancelled && a == PaymentLapses(i) && before.status == PendingPayment)
        || (after.status == Confirmed && a == PaymentSucceeds(i) && before.status in {Pending, PendingPayment}))
    && (|| after.visible == before.visible
        || (a.Commit? && a.x in s.txns && s.txns[a.x].stage == Approved && s.txns[a.x].moving == Some(i)
            && after.visible == s.txns[a.x].visible))
  }

  /** The one row a step may add: what a create that passed its checks asked for. */
  predicate RowAdded(s: State, a: Action, row: Appointment) {
    && a.Commit? && a.x in s.txns && s.txns[a.x].stage == Approved && s.txns[a.x].moving == None
    && var r := s.txns[a.x].request;
       row == Appointment(r.provider, r.location, r.service, r.customer, s.txns[a.x].visible, r.status)
  }

  lemma StepsChangeRows(s: State, a: Action)
    ensures var n, after := |s.appointments|, Next(s, a).appointments;
            && n <= |after| <= n + 1
            && (forall i :: 0 <= i < n ==> RowChange(s, a, i, s.appointments[i], after[i]))
            && (|after| == n + 1 ==> RowAdded(s, a, after[n]))
  {
  }
}
