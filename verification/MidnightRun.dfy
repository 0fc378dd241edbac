/**
 A run across midnight. Enlarging a buffer collides with nothing and unassigning the service changes no row, but after
 both the day that the enlarged block reaches into is booked over; with the service still assigned it is refused.
 */
module MidnightRun {
  import opened Options
  import opened Statuses
  import opened Calendar
  import opened Slots
  import opened Desk
  import opened DayChecks
  import opened BookingRuns
  import opened BufferedRuns
  import opened AloneRuns

  const HOUR := 60 * MINUTE

  const UTC := Zone((l: int) => l, (t: int) => t / DAY)

  /** One provider, a late window on day 1 and an early one on day 2, and one service with this buffer after. */
  function Tables(after: nat, kept: bool): Catalogue {
    Catalogue({1}, {1}, map[1 := Provider(1, true, 30)], map[1 := Location(1, true)],
              map[7 := Service(1, 30, 0, after, true)], if kept then [Assignment(1, 7, None)] else [],
              {(1, 1)}, {(7, 1)}, [],
              [DateOverride(1, 1, Some(Late()), true), DateOverride(1, 2, Some(Early()), true)], [])
  }

  function Late(): Window {
    Window(22 * HOUR, 23 * HOUR + 30 * MINUTE)
  }

  function Early(): Window {
    Window(0, HOUR)
  }

  /** Half past ten in the evening is when the first booking ends, and midnight when the second one starts. */
  const FIRST := Request(1, 1, Some(7), 1, None, DAY + 22 * HOUR, Confirmed)
  const SECOND := Request(1, 1, None, 1, None, 2 * DAY, Confirmed)
  const ROW := Appointment(1, 1, Some(7), 1, Interval(DAY + 22 * HOUR, DAY + 22 * HOUR + 30 * MINUTE), Confirmed)
  const OVER := Appointment(1, 1, None, 1, Interval(2 * DAY, 2 * DAY + 30 * MINUTE), Confirmed)

  lemma UtcRunsForward(day: int)
    ensures Increasing(UTC, day, day) && DaysAgree(UTC)
  {
  }

  lemma TablesWindows(after: nat, kept: bool)
    ensures Late() in DayWindows(Tables(after, kept), 1, 1)
    ensures Early() in DayWindows(Tables(after, kept), 1, 2)
  {
    var rows := Tables(after, kept).overrides;
    assert rows[0] == DateOverride(1, 1, Some(Late()), true) && rows[1] == DateOverride(1, 2, Some(Early()), true);
    OverrideWindowsExact(rows, 1, 1, Late());
    OverrideWindowsExact(rows, 1, 2, Early());
  }

  lemma TablesBuffers(after: nat)
    ensures MaxProviderBuffers(Tables(after, true), 1) == (0, after)
    ensures MaxProviderBuffers(Tables(after, false), 1) == (0, 0)
  {
    OneAssigned(Tables(after, true), Assignment(1, 7, None));
  }

  lemma FirstTiming()
    ensures ResolveTiming(Tables(60, true), 1, 1, Some(7)) == Ok(Timing(30, 0, 60))
  {
    var cat := Tables(60, true);
    assert cat.assignments[0] == Assignment(1, 7, None);
    assert IsAssigned(cat.assignments, 1, 7);
  }

  lemma FirstAdmitted()
    ensures Admitted(Tables(60, true), FIRST) == Ok(Timing(30, 0, 60))
  {
    FirstTiming();
  }

  lemma FirstTimes()
    ensures FIRST.start == UTC.utc(1 * DAY + Late().start) + 0 * MINUTE
    ensures BlockAt(FIRST.start, Timing(30, 0, 60)).end <= UTC.utc(1 * DAY + Late().end)
    ensures Stored(FIRST, Timing(30, 0, 60)) == ROW
  {
  }

  lemma NothingBlocks(q: Query, block: Interval)
    requires q.appointments == [] && q.cat.timeOffs == []
    ensures !Blocked(q, block)
  {
  }

  lemma FirstAccepted()
    ensures Created(Tables(60, true), [], UTC, FIRST) == Ok([] + [ROW])
  {
    var cat, t := Tables(60, true), Timing(30, 0, 60);
    UtcRunsForward(1);
    TablesWindows(60, true);
    FirstTiming();
    FirstAdmitted();
    FirstTimes();
    NothingBlocks(Query(cat, [], 1, RangeSpan(UTC, 1, 1), t), BlockAt(FIRST.start, t));
    FirstStopAccepted(cat, [], UTC, 1, Late(), FIRST, t);
  }

  lemma SecondTimes(kept: bool)
    ensures ResolveTiming(Tables(120, kept), 1, 1, None) == Ok(Timing(30, 0, 0))
    ensures Admitted(Tables(120, kept), SECOND) == Ok(Timing(30, 0, 0))
    ensures SECOND.start == UTC.utc(2 * DAY + Early().start) + 0 * MINUTE
    ensures BlockAt(SECOND.start, Timing(30, 0, 0)).end <= UTC.utc(2 * DAY + Early().end)
    ensures Stored(SECOND, Timing(30, 0, 0)) == OVER && UTC.dayOf(SECOND.start) == 2
  {
  }

  /** The query of day 2 sees the first row only through the enlarged buffer. */
  lemma RowSeen(buffers: (nat, nat))
    requires buffers.0 == 0
    ensures Seen(ROW, UTC, 2, buffers) <==> buffers.1 > 90
  {
  }

  lemma RowReachesOver(kept: bool)
    ensures Overlaps(BlockAt(SECOND.start, Timing(30, 0, 0)), OwnBlock(ROW, Tables(120, kept).services))
  {
  }

  /** Unassigned, the row is outside the query of day 2. */
  lemma SecondAccepted()
    ensures Created(Tables(120, false), [ROW], UTC, SECOND) == Ok([ROW] + [OVER])
  {
    var cat, t := Tables(120, false), Timing(30, 0, 0);
    UtcRunsForward(2);
    TablesWindows(120, false);
    TablesBuffers(120);
    SecondTimes(false);
    RowSeen((0, 0));
    UnseenIsUnblocked(Query(cat, [ROW], 1, RangeSpan(UTC, 2, 2), t), UTC, 2, ROW, BlockAt(SECOND.start, t));
    FirstStopAccepted(cat, [ROW], UTC, 2, Early(), SECOND, t);
  }

  /** Assigned, it is inside, and the create is refused. */
  lemma SecondRefused()
    ensures Created(Tables(120, true), [ROW], UTC, SECOND).Err?
  {
    UtcRunsForward(2);
    TablesBuffers(120);
    SecondTimes(true);
    RowSeen((0, 120));
    RowReachesOver(true);
    MeetingSeenIsRefused(Tables(120, true), [ROW], UTC, SECOND, Timing(30, 0, 0), 0);
  }

  lemma RunOne(s: State, a: Action)
    ensures Run(s, [a]) == Next(s, a)
  {
    assert [a][..0] == [];
  }

  function Booked(): seq<Action> {
    CreateSteps(1, FIRST) + [ChangeCatalogue(Tables(120, true))]
  }

  lemma OneBooked()
    ensures Run(Empty(Tables(60, true), UTC), CreateSteps(1, FIRST)) == State(Tables(60, true), [ROW], UTC, map[])
  {
    var s := Empty(Tables(60, true), UTC);
    AloneIsCreate(s, 1, FIRST);
    FirstAccepted();
    assert [] + [ROW] == [ROW];
  }

  lemma Edited(s: State, cat: Catalogue)
    ensures Run(s, [ChangeCatalogue(cat)]) == s.(cat := cat)
  {
    RunOne(s, ChangeCatalogue(cat));
  }

  lemma AfterBooked()
    ensures Run(Empty(Tables(60, true), UTC), Booked()) == State(Tables(120, true), [ROW], UTC, map[])
  {
    OneBooked();
    RunSplit(Empty(Tables(60, true), UTC), CreateSteps(1, FIRST), [ChangeCatalogue(Tables(120, true))]);
    Edited(State(Tables(60, true), [ROW], UTC, map[]), Tables(120, true));
  }

  /**
   After the buffer edit the blocks are disjoint; with the service also unassigned the next create breaks that, and
   with the service assigned it does not.
   */
  lemma UnassigningMatters()
    ensures var s := Empty(Tables(60, true), UTC);
            var unassigned := Booked() + [ChangeCatalogue(Tables(120, false))];
            var broken, fine := Run(s, unassigned + CreateSteps(2, SECOND)), Run(s, Booked() + CreateSteps(2, SECOND));
            && BufferedDisjoint(Run(s, unassigned).cat.services, Run(s, unassigned).appointments)
            && !BufferedDisjoint(broken.cat.services, broken.appointments)
            && BufferedDisjoint(fine.cat.services, fine.appointments)
  {
    var s := Empty(Tables(60, true), UTC);
    var unassigned := Booked() + [ChangeCatalogue(Tables(120, false))];
    AfterBooked();
    var mid := Run(s, Booked());
    RunSplit(s, Booked(), [ChangeCatalogue(Tables(120, false))]);
    RunOne(mid, ChangeCatalogue(Tables(120, false)));
    RunSplit(s, unassigned, CreateSteps(2, SECOND));
    RunSplit(s, Booked(), CreateSteps(2, SECOND));
    AloneIsCreate(Run(s, unassigned), 2, SECOND);
    AloneIsCreate(mid, 2, SECOND);
    SecondAccepted();
    assert [ROW] + [OVER] == [ROW, OVER];
    SecondRefused();
    BlocksMeet();
  }

  lemma BlocksMeet()
    ensures !BufferedDisjoint(Tables(120, false).services, [ROW, OVER])
  {
    assert [ROW, OVER][0] == ROW && [ROW, OVER][1] == OVER;
    assert Overlaps(OwnBlock(ROW, Tables(120, false).services), OwnBlock(OVER, Tables(120, false).services));
  }
}
