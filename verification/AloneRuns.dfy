/**
 One undisturbed transaction: run alone from a state whose locks are free, its steps are the plain create or the plain
 reschedule of the booking desk.
 */
module AloneRuns {
  import opened Options
  import opened Statuses
  import opened Calendar
  import opened Slots
  import opened Desk
  import opened BookingRuns

  /** The machine with one transaction of its own beside those of `s`. */
  function With(s: State, x: int, t: Txn): State {
    s.(txns := s.txns[x := t])
  }

  lemma EndedAlone(s: State, x: int, t: Txn, rows: seq<Appointment>)
    requires x !in s.txns
    ensures Ended(With(s, x, t).(appointments := rows), x) == s.(appointments := rows)
  {
    assert Ended(With(s, x, t), x).txns == s.txns;
  }

  lemma AloneReads(s: State, x: int, t: Txn)
    requires x !in s.txns && t.stage == Timed
    ensures Next(Next(With(s, x, t), ReadBuffers(x)), ReadRows(x)) == With(s, x, ReadTxn(s, t))
    ensures RowsMeet(ReadTxn(s, t), s.cat.services)
            <==> PrefilteredOverlap(s.cat, s.appointments, t.request.provider, t.block, t.moving)
  {
    var buffers := MaxProviderBuffers(s.cat, t.request.provider);
    var t4 := t.(stage := BuffersRead, buffers := buffers);
    assert Next(With(s, x, t), ReadBuffers(x)) == With(s, x, t4);
    assert Next(With(s, x, t4), ReadRows(x)) == With(s, x, ReadTxn(s, t));
    if i :| 0 <= i < |s.appointments| && t.moving != Some(i)
            && InQuery(s.appointments[i], t.request.provider, Widened(t.block, buffers))
            && Overlaps(t.block, OwnBlock(s.appointments[i], s.cat.services)) {
      assert i in ReadTxn(s, t).rows;
    }
  }

  /** The transaction after its two reads. */
  function ReadTxn(s: State, t: Txn): Txn {
    var t4 := t.(stage := BuffersRead, buffers := MaxProviderBuffers(s.cat, t.request.provider));
    t4.(stage := RowsRead, rows := QueriedRows(s.appointments, t4))
  }

  predicate Listed(s: State, t: Txn) {
    SlotListed(s.cat, s.appointments, s.zone, t.request.provider, t.request.location, t.request.service, t.visible)
  }

  lemma AloneChecks(s: State, x: int, t: Txn)
    requires x !in s.txns && t.stage == Decided
    ensures Next(With(s, x, t), CheckSlot(x)) == if Listed(s, t) then With(s, x, t.(stage := Approved)) else s
  {
    EndedAlone(s, x, t, s.appointments);
    assert s.(appointments := s.appointments) == s;
    assert With(s, x, t).(appointments := s.appointments) == With(s, x, t);
  }

  lemma AloneWrites(s: State, x: int, t: Txn)
    requires x !in s.txns && t.stage == Approved
    ensures Next(With(s, x, t), Commit(x)) == s.(appointments := Written(s.appointments, t))
    ensures Next(s, Commit(x)) == s
  {
    EndedAlone(s, x, t, Written(s.appointments, t));
  }

  lemma AloneCommits(s: State, x: int, t: Txn)
    requires x !in s.txns && t.stage == Decided
    ensures Next(Next(With(s, x, t), CheckSlot(x)), Commit(x))
            == if Listed(s, t) then s.(appointments := Written(s.appointments, t)) else s
  {
    AloneChecks(s, x, t);
    AloneWrites(s, x, t.(stage := Approved));
  }

  /** The appointments after the decisions: written only if no row meets the block and the slot is listed. */
  function Outcome(s: State, t: Txn, meets: bool): seq<Appointment> {
    if !meets && Listed(s, t) then Written(s.appointments, t) else s.appointments
  }

  lemma AloneDecides(s: State, x: int, t: Txn)
    requires x !in s.txns && t.stage == RowsRead
    ensures Next(Next(Next(With(s, x, t), Decide(x)), CheckSlot(x)), Commit(x))
            == s.(appointments := Outcome(s, t, RowsMeet(t, s.cat.services)))
  {
    if RowsMeet(t, s.cat.services) {
      EndedAlone(s, x, t, s.appointments);
    } else {
      assert Next(With(s, x, t), Decide(x)) == With(s, x, t.(stage := Decided));
      AloneCommits(s, x, t.(stage := Decided));
    }
  }

  lemma AloneStarts(s: State, x: int, r: Request)
    requires x !in s.txns && ProviderFree(s, r.provider)
    ensures var timing := Admitted(s.cat, r);
            Next(Next(Next(s, BeginCreate(x, r)), LockProvider(x)), ResolveTime(x))
            == if timing.Err? then s
               else With(s, x, NewTxn(r, None).(stage := Timed, visible := VisibleAt(r.start, timing.value),
                                                block := BlockAt(r.start, timing.value)))
  {
    var t := NewTxn(r, None);
    var t2 := t.(stage := ProviderLocked);
    assert Next(s, BeginCreate(x, r)) == With(s, x, t);
    assert ProviderFree(With(s, x, t), r.provider);
    assert Next(With(s, x, t), LockProvider(x)) == With(s, x, t2);
    EndedAlone(s, x, t2, s.appointments);
  }

  lemma StartRuns(s: State, x: int, r: Request)
    requires x !in s.txns && ProviderFree(s, r.provider)
    ensures Run(s, Starting(x, r)) == if Admitted(s.cat, r).Err? then s else With(s, x, TimedTxn(s, r))
  {
    RunThree(s, BeginCreate(x, r), LockProvider(x), ResolveTime(x));
    AloneStarts(s, x, r);
  }

  /** The transaction after its start. */
  function TimedTxn(s: State, r: Request): Txn
    requires Admitted(s.cat, r).Ok?
  {
    var timing := Admitted(s.cat, r).value;
    NewTxn(r, None).(stage := Timed, visible := VisibleAt(r.start, timing), block := BlockAt(r.start, timing))
  }

  function Starting(x: int, r: Request): seq<Action> {
    [BeginCreate(x, r), LockProvider(x), ResolveTime(x)]
  }

  function Querying(x: int): seq<Action> {
    [ReadBuffers(x), ReadRows(x)]
  }

  function Ending(x: int): seq<Action> {
    [Decide(x), CheckSlot(x), Commit(x)]
  }

  lemma AbsentRuns(s: State, x: int)
    requires x !in s.txns
    ensures Run(s, Querying(x)) == s && Run(s, Ending(x)) == s
  {
    RunTwo(s, ReadBuffers(x), ReadRows(x));
    RunThree(s, Decide(x), CheckSlot(x), Commit(x));
  }

  lemma RestRuns(s: State, x: int, t: Txn)
    requires x !in s.txns && t.stage == Timed
    ensures Run(Run(With(s, x, t), Querying(x)), Ending(x))
         == s.(appointments :=
                 Outcome(s, t, PrefilteredOverlap(s.cat, s.appointments, t.request.provider, t.block, t.moving)))
  {
    RunTwo(With(s, x, t), ReadBuffers(x), ReadRows(x));
    AloneReads(s, x, t);
    EndRuns(s, x, ReadTxn(s, t));
  }

  lemma EndRuns(s: State, x: int, t: Txn)
    requires x !in s.txns && t.stage == RowsRead
    ensures Run(With(s, x, t), Ending(x)) == s.(appointments := Outcome(s, t, RowsMeet(t, s.cat.services)))
  {
    RunThree(With(s, x, t), Decide(x), CheckSlot(x), Commit(x));
    AloneDecides(s, x, t);
  }

  /** All the steps of a create. */
  function CreateSteps(x: int, r: Request): seq<Action> {
    Starting(x, r) + (Querying(x) + Ending(x))
  }

  lemma CreateOutcome(s: State, r: Request)
    ensures var created := Created(s.cat, s.appointments, s.zone, r);
            (if created.Ok? then created.value else s.appointments) ==
            if Admitted(s.cat, r).Err? then s.appointments
            else var t := TimedTxn(s, r);
                 Outcome(s, t, PrefilteredOverlap(s.cat, s.appointments, r.provider, t.block, None))
  {
  }

  /** Run alone from a state whose provider lock is free, the steps of a create are the create. */
  lemma AloneIsCreate(s: State, x: int, r: Request)
    requires x !in s.txns && ProviderFree(s, r.provider)
    ensures var created := Created(s.cat, s.appointments, s.zone, r);
            Run(s, CreateSteps(x, r)) == s.(appointments := if created.Ok? then created.value else s.appointments)
  {
    RunSplit(s, Starting(x, r), Querying(x) + Ending(x));
    RunSplit(Run(s, Starting(x, r)), Querying(x), Ending(x));
    StartRuns(s, x, r);
    CreateOutcome(s, r);
    if Admitted(s.cat, r).Ok? {
      RestRuns(s, x, TimedTxn(s, r));
    } else {
      AbsentRuns(s, x);
    }
  }

  // ----- Reschedule ---------------------------------------------------------------------------------

  function MoveStarting(x: int, id: int, start: int): seq<Action> {
    [BeginReschedule(x, id, start), LockRow(x)] + [LockProvider(x), ResolveTime(x)]
  }

  /** The timing a reschedule resolves, if it gets that far. */
  function MoveTiming(s: State, id: int): Result<Timing> {
    if !(0 <= id < |s.appointments|) then Err(NotFound)
    else if !Blocking(s.appointments[id].status) then Err(Invalid)
    else
      var a := s.appointments[id];
      if a.provider !in s.cat.providers || !s.cat.providers[a.provider].isActive then Err(NotFound)
      else ResolveTiming(s.cat, a.provider, a.location, a.service)
  }

  function MoveTxn(s: State, id: int, start: int): Txn
    requires MoveTiming(s, id).Ok?
  {
    var timing := MoveTiming(s, id).value;
    NewTxn(MoveRequest(s.appointments[id], start), Some(id)).(
      stage := Timed, visible := VisibleAt(start, timing), block := BlockAt(start, timing))
  }

  function LockedTxn(s: State, id: int, start: int): Txn
    requires 0 <= id < |s.appointments|
  {
    NewTxn(MoveRequest(s.appointments[id], start), Some(id)).(stage := RowLocked)
  }

  lemma AloneLocksRow(s: State, x: int, id: int, start: int)
    requires x !in s.txns && RowFree(s, id)
    ensures Next(Next(s, BeginReschedule(x, id, start)), LockRow(x))
            == if 0 <= id < |s.appointments| && Blocking(s.appointments[id].status)
               then With(s, x, LockedTxn(s, id, start)) else s
  {
    var t := NewTxn(Request(0, 0, None, 0, None, start, Pending), Some(id));
    assert Next(s, BeginReschedule(x, id, start)) == With(s, x, t);
    assert RowFree(With(s, x, t), id);
    EndedAlone(s, x, t, s.appointments);
    assert s.(appointments := s.appointments) == s;
    assert With(s, x, t).(appointments := s.appointments) == With(s, x, t);
  }

  lemma AloneResolves(s: State, x: int, id: int, start: int)
    requires x !in s.txns && 0 <= id < |s.appointments| && Blocking(s.appointments[id].status)
    requires ProviderFree(s, s.appointments[id].provider)
    ensures Next(Next(With(s, x, LockedTxn(s, id, start)), LockProvider(x)), ResolveTime(x))
            == if MoveTiming(s, id).Ok? then With(s, x, MoveTxn(s, id, start)) else s
  {
    var locked := LockedTxn(s, id, start);
    var held := locked.(stage := ProviderLocked);
    assert ProviderFree(With(s, x, locked), s.appointments[id].provider);
    assert Next(With(s, x, locked), LockProvider(x)) == With(s, x, held);
    EndedAlone(s, x, held, s.appointments);
    assert s.(appointments := s.appointments) == s;
    assert With(s, x, held).(appointments := s.appointments) == With(s, x, held);
  }

  lemma MoveStarts(s: State, x: int, id: int, start: int)
    requires x !in s.txns && RowFree(s, id)
    requires 0 <= id < |s.appointments| ==> ProviderFree(s, s.appointments[id].provider)
    ensures Run(s, MoveStarting(x, id, start)) == if MoveTiming(s, id).Ok? then With(s, x, MoveTxn(s, id, start)) else s
  {
    var first, second := [BeginReschedule(x, id, start), LockRow(x)], [LockProvider(x), ResolveTime(x)];
    RunSplit(s, first, second);
    RunTwo(s, BeginReschedule(x, id, start), LockRow(x));
    AloneLocksRow(s, x, id, start);
    RunTwo(Run(s, first), LockProvider(x), ResolveTime(x));
    if 0 <= id < |s.appointments| && Blocking(s.appointments[id].status) {
      AloneResolves(s, x, id, start);
    }
  }

  /** All the steps of a reschedule. */
  function MoveSteps(x: int, id: int, start: int): seq<Action> {
    MoveStarting(x, id, start) + (Querying(x) + Ending(x))
  }

  lemma MoveOutcome(s: State, id: int, start: int)
    ensures var moved := Rescheduled(s.cat, s.appointments, s.zone, id, start);
            (if moved.Ok? then moved.value else s.appointments) ==
            if MoveTiming(s, id).Err? then s.appointments
            else var t := MoveTxn(s, id, start);
                 Outcome(s, t, PrefilteredOverlap(s.cat, s.appointments, t.request.provider, t.block, Some(id)))
  {
  }

  /** Run alone from a state whose row and provider locks are free, the steps of a reschedule are the reschedule. */
  lemma AloneIsReschedule(s: State, x: int, id: int, start: int)
    requires x !in s.txns && RowFree(s, id)
    requires 0 <= id < |s.appointments| ==> ProviderFree(s, s.appointments[id].provider)
    ensures var moved := Rescheduled(s.cat, s.appointments, s.zone, id, start);
            Run(s, MoveSteps(x, id, start)) == s.(appointments := if moved.Ok? then moved.value else s.appointments)
  {
    RunSplit(s, MoveStarting(x, id, start), Querying(x) + Ending(x));
    RunSplit(Run(s, MoveStarting(x, id, start)), Querying(x), Ending(x));
    MoveStarts(s, x, id, start);
    MoveOutcome(s, id, start);
    if MoveTiming(s, id).Ok? {
      RestRuns(s, x, MoveTxn(s, id, start));
    } else {
      AbsentRuns(s, x);
    }
  }

  // ----- Short runs ---------------------------------------------------------------------------------

  lemma {:induction false} RunSplit(s: State, a: seq<Action>, b: seq<Action>)
    ensures Run(s, a + b) == Run(Run(s, a), b)
    decreases |b|
  {
    if b == [] {
      assert a + b == a;
    } else {
      assert (a + b)[..|a + b| - 1] == a + b[..|b| - 1];
      RunSplit(s, a, b[..|b| - 1]);
    }
  }

  lemma RunTwo(s: State, a: Action, b: Action)
    ensures Run(s, [a, b]) == Next(Next(s, a), b)
  {
    assert [a, b][..1] == [a] && [a][..0] == [];
    assert Run(s, [a]) == Next(Run(s, []), a);
  }

  lemma RunThree(s: State, a: Action, b: Action, c: Action)
    ensures Run(s, [a, b, c]) == Next(Next(Next(s, a), b), c)
  {
    assert [a, b, c][..2] == [a, b];
    RunTwo(s, a, b);
  }
}
