/**
 A late slot five hours west of UTC. Its local date is the second of March and its UTC date the third, so the customer
 who presses the date, the slot and the confirmation the conversation offers books nothing, though the slot is free.
 */
module NightSlot {
  import opened Options
  import opened Texts
  import opened Dates
  import opened Calendar
  import opened Slots
  import opened SlotTheorems
  import opened ChannelBookings

  const HOUR := 60 * MINUTE

  const WEST := Zone((l: int) => l + 5 * HOUR, (t: int) => (t - 5 * HOUR) / DAY)

  const PRESSED := Date(2026, 3, 2)
  const NEXT := Date(2026, 3, 3)
  const DAY_PRESSED := 739677

  /** Ten in the evening, for half an hour. */
  function Evening(): Window {
    Window(22 * HOUR, 22 * HOUR + 30 * MINUTE)
  }

  function Cat(): Catalogue {
    Catalogue({1}, {1}, map[1 := Provider(1, true, 30)], map[1 := Location(1, true)],
              map[7 := Service(1, 30, 0, 0, true)], [Assignment(1, 7, None)], {(1, 1)}, {(7, 1)}, [],
              [DateOverride(1, DAY_PRESSED, Some(Evening()), true)], [])
  }

  function ListOn(p: int, v: int, l: int, day: int): Option<seq<Slot>> {
    DayList(Cat(), [], WEST, p, v, l, day)
  }

  function Night(): Tables {
    Tables(Cat(), [], WEST, ListOn, {}, [1], 1, 0)
  }

  /** Every row belongs to the one organization, and the UTC date of the slot is the third. */
  function OneSite(): C.Site {
    C.Site(l => 1, v => 1, p => 1, x => NEXT)
  }

  const START := DAY_PRESSED * DAY + 27 * HOUR

  lemma DatesOfTheSlot()
    ensures ValidDate(PRESSED) && Ordinal(PRESSED) == DAY_PRESSED
    ensures ValidDate(NEXT) && Ordinal(NEXT) == UtcDay(START - EPOCH)
  {
    assert DaysBeforeMonth(2026, 2) == 31;
    assert DaysBeforeMonth(2026, 3) == 59;
  }

  lemma WestRunsForward()
    ensures ForwardZone(WEST)
  {
  }

  lemma NightIsBacked()
    ensures Backed(Night()) && SiteAgrees(OneSite(), Night())
  {
    WestRunsForward();
  }

  lemma NightTiming()
    ensures ResolveTiming(Cat(), 1, 1, Some(7)) == Ok(Timing(30, 0, 0))
  {
    assert Cat().assignments[0] == Assignment(1, 7, None);
    assert IsAssigned(Cat().assignments, 1, 7);
  }

  lemma NightWindow(w: Window)
    ensures w in DayWindows(Cat(), 1, DAY_PRESSED) <==> w == Evening()
  {
    var rows := Cat().overrides;
    assert rows[0] == DateOverride(1, DAY_PRESSED, Some(Evening()), true);
    OverrideWindowsExact(rows, 1, DAY_PRESSED, Evening());
    OverrideWindowsExact(rows, 1, DAY_PRESSED, w);
  }

  function NightQuery(): Query {
    Query(Cat(), [], 1, RangeSpan(WEST, DAY_PRESSED, DAY_PRESSED), Timing(30, 0, 0))
  }

  lemma NothingBlocks(block: Interval)
    ensures !Blocked(NightQuery(), block)
  {
  }

  lemma NightOffered()
    ensures Offered(Cat(), WEST, 1, Timing(30, 0, 0), DAY_PRESSED, Evening(), 0, SlotAt(Timing(30, 0, 0), START))
  {
    NightWindow(Evening());
  }

  lemma NightListed()
    ensures OnList(Cat(), [], WEST, 1, 1, DAY_PRESSED, DAY_PRESSED, Some(7), SlotAt(Timing(30, 0, 0), START))
  {
    var s := SlotAt(Timing(30, 0, 0), START);
    NightTiming();
    NightOffered();
    NothingBlocks(BlockOf(Timing(30, 0, 0), s));
    DaySlotsAreStops(NightQuery(), WEST, DAY_PRESSED, s);
    DayIsListed(Cat(), [], WEST, 1, 1, DAY_PRESSED, Some(7), NightQuery(), s);
  }

  /** The window holds one slot. */
  lemma OneStop(w: Window, k: nat, s: Slot)
    requires Offered(Cat(), WEST, 1, Timing(30, 0, 0), DAY_PRESSED, w, k, s)
    ensures s.start == START
  {
    NightWindow(w);
    assert s.start == START + k * Duration(Timing(30, 0, 0));
  }

  lemma OnlySlot(s: Slot)
    requires OnList(Cat(), [], WEST, 1, 1, DAY_PRESSED, DAY_PRESSED, Some(7), s)
    ensures s.start == START
  {
    NightTiming();
    var q, d := ListedSomeDay(Cat(), [], WEST, 1, 1, DAY_PRESSED, DAY_PRESSED, Some(7), s);
    DaySlotsAreStops(q, WEST, DAY_PRESSED, s);
    var w, k: nat :| Offered(Cat(), WEST, 1, Timing(30, 0, 0), DAY_PRESSED, w, k, s);
    OneStop(w, k, s);
  }

  /** The list of starts the conversation shows. */
  lemma NightStarts()
    ensures SlotStarts(Night(), C.SlotQuery(1, 7, 1, PRESSED)).Some?
    ensures forall x :: x in SlotStarts(Night(), C.SlotQuery(1, 7, 1, PRESSED)).value <==> x == START - EPOCH
  {
    DatesOfTheSlot();
    NightListed();
    var slots := ListOn(1, 7, 1, DAY_PRESSED).value;
    assert SlotStarts(Night(), C.SlotQuery(1, 7, 1, PRESSED)) == Some(FutureStarts(slots, 0));
    forall s | s in slots ensures s.start == START {
      OnlySlot(s);
    }
    assert SlotAt(Timing(30, 0, 0), START) in slots;
  }

  lemma OnlyStartIsFound(starts: seq<int>, x: int)
    requires forall y :: y in starts <==> y == x
    ensures C.FindSlot(starts, C.Seconds(x)) == Some(x)
  {
    assert x in starts;
    var i :| 0 <= i < |starts| && starts[i] == x;
    var r := C.FindSlot(starts, C.Seconds(x));
    assert r.Some? by {
      assert C.Seconds(starts[i]) == C.Seconds(x);
    }
    var k :| 0 <= k < |starts| && starts[k] == r.value;
    assert starts[k] in starts;
  }

  lemma SlotsAreStarts(t: Tables, verdict: C.Verdict, q: C.SlotQuery)
    ensures WorldOf(t, verdict).slots(q) == SlotStarts(t, q)
  {
  }

  lemma NightShown(verdict: C.Verdict)
    ensures B.Shown(WorldOf(Night(), verdict), 1, 7, 1, PRESSED, START - EPOCH)
  {
    DatesOfTheSlot();
    NightStarts();
    var q := C.SlotQuery(1, 7, 1, PRESSED);
    SlotsAreStarts(Night(), verdict, q);
    OnlyStartIsFound(SlotStarts(Night(), q).value, START - EPOCH);
  }

  lemma NightRows(verdict: C.Verdict)
    ensures C.OffersProvider(OneSite(), WorldOf(Night(), verdict), 1, 7, 1)
    ensures C.EligibleService(OneSite(), WorldOf(Night(), verdict), 1, 7)
  {
    var w := WorldOf(Night(), verdict);
    assert Cat().assignments[0] == Assignment(1, 7, None);
    assert (1, 7) in w.providerServes && 1 in w.providers && 7 in w.services && [1][0] == 1;
    assert C.Staffs(OneSite(), w, 1, 7, 1);
  }

  /** Whatever state the conversation is in, the buttons for this slot book nothing, though the call would accept it. */
  lemma NightSlotIsNotBooked(s: C.State)
    ensures BookingVerdict(Night(), 1, 1, 7, 1, START - EPOCH) == C.Accepted
    ensures ValidDate(PRESSED)
    ensures B.Presses(OneSite(), BookingWorld(OneSite(), Night(), 1, 7, 1, START - EPOCH), s,
                      B.BookingButtons(OneSite(), 1, 7, 1, PRESSED, START - EPOCH)).effect == C.NoEffect
  {
    var verdict := BookingVerdict(Night(), 1, 1, 7, 1, START - EPOCH);
    DatesOfTheSlot();
    NightIsBacked();
    NightRows(verdict);
    NightShown(verdict);
    ButtonsBookTheSlot(OneSite(), Night(), s, 1, 7, 1, PRESSED, START - EPOCH);
  }
}
