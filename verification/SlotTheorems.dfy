/**
 What the slot list is: the exact set of starts, how lists over a range of days fall apart into days,
 and that slots never overlap.
 */
module SlotTheorems {
  import opened Options
  import opened Calendar
  import opened Slots

  // ----- Membership -----------------------------------------------------------------------------

  /** The `k`-th stop of a cursor that starts at `cursor`. */
  predicate IsStop(t: Timing, cursor: int, windowEnd: int, k: nat, s: Slot) {
    s == SlotAt(t, cursor + k * Duration(t)) && BlockOf(t, s).end <= windowEnd
  }

  lemma {:induction false} SlotsFromAreStops(q: Query, cursor: int, windowEnd: int, s: Slot)
    ensures s in SlotsFrom(q, cursor, windowEnd) <==>
            (exists k: nat :: IsStop(q.timing, cursor, windowEnd, k, s)) && !Blocked(q, BlockOf(q.timing, s))
    decreases windowEnd - cursor
  {
    var t := q.timing;
    var here := SlotAt(t, cursor);
    if BlockOf(t, here).end > windowEnd {
      forall k: nat ensures !IsStop(t, cursor, windowEnd, k, s) {
        StopsGrow(k, Duration(t));
      }
    } else {
      SlotsFromAreStops(q, here.end, windowEnd, s);
      assert IsStop(t, cursor, windowEnd, 0, here);
      if k: nat :| IsStop(t, cursor, windowEnd, k, s) {
        if k > 0 {
          assert (k - 1) * Duration(t) == k * Duration(t) - Duration(t);
          assert IsStop(t, here.end, windowEnd, k - 1, s);
        }
      }
      if k: nat :| IsStop(t, here.end, windowEnd, k, s) {
        assert (k + 1) * Duration(t) == k * Duration(t) + Duration(t);
        assert IsStop(t, cursor, windowEnd, k + 1, s);
      }
    }
  }

  lemma StopsGrow(k: nat, d: nat)
    ensures k * d >= 0
  {
  }

  /** A slot the cursor reaches lies with its buffers inside the window. */
  lemma {:induction false} SlotsFromInside(q: Query, cursor: int, windowEnd: int, s: Slot)
    requires s in SlotsFrom(q, cursor, windowEnd)
    ensures s.end == s.start + Duration(q.timing)
    ensures cursor <= s.start && BlockOf(q.timing, s).end <= windowEnd && !Blocked(q, BlockOf(q.timing, s))
    decreases windowEnd - cursor
  {
    var here := SlotAt(q.timing, cursor);
    if s != here || Blocked(q, BlockOf(q.timing, here)) {
      SlotsFromInside(q, here.end, windowEnd, s);
    }
  }

  /** A slot of some windows is a slot of one of them. */
  lemma {:induction false} SomeWindow(q: Query, zone: Zone, day: int, windows: seq<Window>, s: Slot) returns (w: Window)
    requires s in WindowsSlots(q, zone, day, windows)
    ensures w in windows && s in WindowSlots(q, zone, day, w)
  {
    var n := |windows| - 1;
    w := windows[n];
    if s !in WindowSlots(q, zone, day, w) {
      w := SomeWindow(q, zone, day, windows[..n], s);
    }
  }

  lemma {:induction false} WindowIsIncluded(q: Query, zone: Zone, day: int, windows: seq<Window>, w: Window, s: Slot)
    requires w in windows && s in WindowSlots(q, zone, day, w)
    ensures s in WindowsSlots(q, zone, day, windows)
  {
    var n := |windows| - 1;
    if w != windows[n] {
      WindowIsIncluded(q, zone, day, windows[..n], w, s);
    }
    InEither(WindowsSlots(q, zone, day, windows[..n]), WindowSlots(q, zone, day, windows[n]), s);
  }

  /** A slot of some days is a slot of one of them. */
  lemma {:induction false} SomeDay(q: Query, zone: Zone, first: int, end: int, s: Slot) returns (day: int)
    requires s in DaysSlots(q, zone, first, end)
    ensures first <= day < end && s in DaySlots(q, zone, day)
    decreases end - first
  {
    day := end - 1;
    if s !in DaySlots(q, zone, day) {
      day := SomeDay(q, zone, first, day, s);
    }
  }

  lemma {:induction false} DayIsIncluded(q: Query, zone: Zone, first: int, end: int, day: int, s: Slot)
    requires first <= day < end && s in DaySlots(q, zone, day)
    ensures s in DaysSlots(q, zone, first, end)
    decreases end - first
  {
    if day < end - 1 {
      DayIsIncluded(q, zone, first, end - 1, day, s);
    }
    NextDay(q, zone, first, end - 1);
    InEither(DaysSlots(q, zone, first, end - 1), DaySlots(q, zone, end - 1), s);
  }

  lemma InEither(a: seq<Slot>, b: seq<Slot>, s: Slot)
    requires s in a || s in b
    ensures s in a + b
  {
  }

  lemma SortMember(slots: seq<Slot>, s: Slot)
    ensures s in SortByStart(slots) <==> s in slots
  {
    assert s in SortByStart(slots) <==> s in multiset(SortByStart(slots));
    assert s in slots <==> s in multiset(slots);
  }

  /** The prefilter span of a range contains every window of its days. */
  lemma WindowsWithinSpan(zone: Zone, first: int, last: int, day: int, w: Window)
    requires Increasing(zone, first, last) && first <= day <= last
    ensures zone.utc(first * DAY) <= zone.utc(day * DAY) <= zone.utc(day * DAY + w.start)
    ensures zone.utc(day * DAY + w.end) <= zone.utc((day + 1) * DAY) <= zone.utc((last + 1) * DAY)
  {
    assert day * DAY + w.end < (day + 1) * DAY;
  }

  /** The cursor of a day's window stops at `s`. */
  predicate Offered(cat: Catalogue, zone: Zone, provider: int, t: Timing, d: int, w: Window, k: nat, s: Slot) {
    && w in DayWindows(cat, provider, d)
    && IsStop(t, zone.utc(d * DAY + w.start) + t.before * MINUTE, zone.utc(d * DAY + w.end), k, s)
  }

  lemma DaySlotsAreStops(q: Query, zone: Zone, d: int, s: Slot)
    ensures s in DaySlots(q, zone, d) <==>
            (exists w, k: nat :: Offered(q.cat, zone, q.provider, q.timing, d, w, k, s))
                && !Blocked(q, BlockOf(q.timing, s))
  {
    if s in DaySlots(q, zone, d) {
      var w := SomeWindow(q, zone, d, DayWindows(q.cat, q.provider, d), s);
      WindowSlotsAreStops(q, zone, d, w, s);
    }
    if w, k: nat :| Offered(q.cat, zone, q.provider, q.timing, d, w, k, s) {
      WindowSlotsAreStops(q, zone, d, w, s);
      if !Blocked(q, BlockOf(q.timing, s)) {
        WindowIsIncluded(q, zone, d, DayWindows(q.cat, q.provider, d), w, s);
      }
    }
  }

  lemma WindowSlotsAreStops(q: Query, zone: Zone, d: int, w: Window, s: Slot)
    requires w in DayWindows(q.cat, q.provider, d)
    ensures s in WindowSlots(q, zone, d, w) <==>
            (exists k: nat :: Offered(q.cat, zone, q.provider, q.timing, d, w, k, s))
                && !Blocked(q, BlockOf(q.timing, s))
  {
    var from, to := zone.utc(d * DAY + w.start) + q.timing.before * MINUTE, zone.utc(d * DAY + w.end);
    SlotsFromAreStops(q, from, to, s);
    if k: nat :| IsStop(q.timing, from, to, k, s) {
      assert Offered(q.cat, zone, q.provider, q.timing, d, w, k, s);
    }
    if k: nat :| Offered(q.cat, zone, q.provider, q.timing, d, w, k, s) {
      assert IsStop(q.timing, from, to, k, s);
    }
  }

  /** A stop and its buffers lie within the local day. */
  lemma OfferedWithinDay(cat: Catalogue, zone: Zone, provider: int, t: Timing, first: int, last: int, d: int,
      w: Window, k: nat, s: Slot)
    requires Increasing(zone, first, last) && first <= d <= last && Offered(cat, zone, provider, t, d, w, k, s)
    ensures s.start < s.end
    ensures zone.utc(first * DAY) <= zone.utc(d * DAY) <= BlockOf(t, s).start <= s.start
    ensures s.end <= BlockOf(t, s).end <= zone.utc((d + 1) * DAY) <= zone.utc((last + 1) * DAY)
  {
    WindowsWithinSpan(zone, first, last, d, w);
    StopsGrow(k, Duration(t));
  }

  /**
   The exact slot set: while booked services stay assigned, a slot is listed for a range if and only if
   it is a stop of the cursor in some window of some day of the range and, in the whole tables, its
   buffered block meets no time off and no blocking appointment's own block.
   */
  lemma ExactSlotSet(cat: Catalogue, appointments: seq<Appointment>, zone: Zone, provider: int, location: int,
                     first: int, last: int, service: Option<int>, s: Slot)
    requires AvailableSlots(cat, appointments, zone, provider, location, first, last, service).Ok?
    requires cat.providers[provider].isActive && Increasing(zone, first, last)
    requires BookedStillAssigned(cat, appointments, provider)
    ensures var t := ResolveTiming(cat, provider, location, service).value;
            s in AvailableSlots(cat, appointments, zone, provider, location, first, last, service).value
            <==> (exists d, w, k: nat :: first <= d <= last && Offered(cat, zone, provider, t, d, w, k, s))
                 && !FullyBlocked(cat, appointments, provider, BlockOf(t, s))
  {
    AssignedIsCovered(cat, appointments, provider);
    var t := ResolveTiming(cat, provider, location, service).value;
    if OnList(cat, appointments, zone, provider, location, first, last, service, s) {
      ListedIsOffered(cat, appointments, zone, provider, location, first, last, service, s);
    }
    if (exists d, w, k: nat :: first <= d <= last && Offered(cat, zone, provider, t, d, w, k, s))
       && !FullyBlocked(cat, appointments, provider, BlockOf(t, s)) {
      OfferedIsListed(cat, appointments, zone, provider, location, first, last, service, s);
    }
  }

  lemma ListedIsOffered(cat: Catalogue, appointments: seq<Appointment>, zone: Zone, provider: int, location: int,
                        first: int, last: int, service: Option<int>, s: Slot)
    requires OnList(cat, appointments, zone, provider, location, first, last, service, s)
    requires Increasing(zone, first, last) && BuffersCovered(cat, appointments, provider)
    ensures var t := ResolveTiming(cat, provider, location, service).value;
            (exists d, w, k: nat :: first <= d <= last && Offered(cat, zone, provider, t, d, w, k, s))
            && !FullyBlocked(cat, appointments, provider, BlockOf(t, s))
  {
    var q, d := ListedSomeDay(cat, appointments, zone, provider, location, first, last, service, s);
    DaySlotsExact(q, zone, first, last, d, s);
    var w, k: nat :| Offered(cat, zone, provider, q.timing, d, w, k, s);
    assert first <= d <= last && Offered(cat, zone, provider, q.timing, d, w, k, s);
  }

  lemma OfferedIsListed(cat: Catalogue, appointments: seq<Appointment>, zone: Zone, provider: int, location: int,
                        first: int, last: int, service: Option<int>, s: Slot)
    requires AvailableSlots(cat, appointments, zone, provider, location, first, last, service).Ok?
    requires cat.providers[provider].isActive
    requires Increasing(zone, first, last) && BuffersCovered(cat, appointments, provider)
    requires var t := ResolveTiming(cat, provider, location, service).value;
             (exists d, w, k: nat :: first <= d <= last && Offered(cat, zone, provider, t, d, w, k, s))
             && !FullyBlocked(cat, appointments, provider, BlockOf(t, s))
    ensures OnList(cat, appointments, zone, provider, location, first, last, service, s)
  {
    var t := ResolveTiming(cat, provider, location, service).value;
    var q := Query(cat, appointments, provider, RangeSpan(zone, first, last), t);
    var d, w, k: nat :| first <= d <= last && Offered(cat, zone, provider, t, d, w, k, s);
    OfferedIsSorted(q, zone, first, last, d, w, k, s);
  }

  lemma OfferedIsSorted(q: Query, zone: Zone, first: int, last: int, d: int, w: Window, k: nat, s: Slot)
    requires Increasing(zone, first, last) && first <= d <= last && q.span == RangeSpan(zone, first, last)
    requires BuffersCovered(q.cat, q.appointments, q.provider)
    requires Offered(q.cat, zone, q.provider, q.timing, d, w, k, s)
    requires !FullyBlocked(q.cat, q.appointments, q.provider, BlockOf(q.timing, s))
    ensures s in SortByStart(DaysSlots(q, zone, first, last + 1))
  {
    DaySlotsExact(q, zone, first, last, d, s);
    DayIsIncluded(q, zone, first, last + 1, d, s);
    SortMember(DaysSlots(q, zone, first, last + 1), s);
  }

  lemma DaySlotsExact(q: Query, zone: Zone, first: int, last: int, d: int, s: Slot)
    requires Increasing(zone, first, last) && first <= d <= last && q.span == RangeSpan(zone, first, last)
    requires BuffersCovered(q.cat, q.appointments, q.provider)
    ensures s in DaySlots(q, zone, d) <==>
            (exists w, k: nat :: Offered(q.cat, zone, q.provider, q.timing, d, w, k, s))
            && !FullyBlocked(q.cat, q.appointments, q.provider, BlockOf(q.timing, s))
  {
    DaySlotsAreStops(q, zone, d, s);
    if w, k: nat :| Offered(q.cat, zone, q.provider, q.timing, d, w, k, s) {
      OfferedWithinDay(q.cat, zone, q.provider, q.timing, first, last, d, w, k, s);
      PrefilterExact(q, BlockOf(q.timing, s));
    }
  }

  // ----- Ranges and days --------------------------------------------------------------------------

  /** A query over a range and the query over one of its days. */
  function DayQuery(q: Query, zone: Zone, day: int): Query {
    q.(span := RangeSpan(zone, day, day))
  }

  /** The wider span prefilters less away, so what is blocked for the day is blocked for the range. */
  lemma DayBlockedIsRangeBlocked(q: Query, zone: Zone, first: int, last: int, day: int, block: Interval)
    requires Increasing(zone, first, last) && first <= day <= last && q.span == RangeSpan(zone, first, last)
    requires Blocked(DayQuery(q, zone, day), block)
    ensures Blocked(q, block)
  {
    WindowsWithinSpan(zone, first, last, day, Window(0, 0));
    assert zone.utc((day + 1) * DAY) <= zone.utc((last + 1) * DAY);
    var p := DayQuery(q, zone, day);
    if !TimeOffMeets(p.cat.timeOffs, p.provider, p.span, block) {
      var i :| 0 <= i < |p.appointments|
        && InQuery(p.appointments[i], p.provider, Widened(p.span, MaxProviderBuffers(p.cat, p.provider)))
        && Overlaps(block, OwnBlock(p.appointments[i], p.cat.services));
      assert InQuery(q.appointments[i], q.provider, Widened(q.span, MaxProviderBuffers(q.cat, q.provider)));
    } else {
      var i :| 0 <= i < |p.cat.timeOffs| && p.cat.timeOffs[i].provider == p.provider
        && p.cat.timeOffs[i].span.end > p.span.start && p.cat.timeOffs[i].span.start < p.span.end
        && Overlaps(block, p.cat.timeOffs[i].span);
      assert q.cat.timeOffs[i].span.end > q.span.start;
    }
  }

  lemma DaySlotsNarrow(q: Query, zone: Zone, first: int, last: int, day: int, s: Slot)
    requires Increasing(zone, first, last) && first <= day <= last && q.span == RangeSpan(zone, first, last)
    requires s in DaySlots(q, zone, day)
    ensures s in DaySlots(DayQuery(q, zone, day), zone, day)
  {
    DaySlotsAreStops(q, zone, day, s);
    DaySlotsAreStops(DayQuery(q, zone, day), zone, day, s);
    if Blocked(DayQuery(q, zone, day), BlockOf(q.timing, s)) {
      DayBlockedIsRangeBlocked(q, zone, first, last, day, BlockOf(q.timing, s));
    }
  }

  /** A slot listed for a range is listed for its own day, whatever the catalogue says. */
  lemma RangeListedIsDayListed(cat: Catalogue, appointments: seq<Appointment>, zone: Zone, provider: int, location: int,
                               first: int, last: int, service: Option<int>, s: Slot)
    requires Increasing(zone, first, last)
             && OnList(cat, appointments, zone, provider, location, first, last, service, s)
    ensures exists day :: first <= day <= last && InDay(zone, day, s.start)
              && OnList(cat, appointments, zone, provider, location, day, day, service, s)
  {
    var q, day := ListedSomeDay(cat, appointments, zone, provider, location, first, last, service, s);
    DaySlotsNarrow(q, zone, first, last, day, s);
    DaySlotsWithinDay(q, zone, first, last, day, s);
    DayIsListed(cat, appointments, zone, provider, location, day, service, DayQuery(q, zone, day), s);
  }

  /** What a list was made from, and the day one of its slots came from. */
  lemma ListedSomeDay(cat: Catalogue, appointments: seq<Appointment>, zone: Zone, provider: int, location: int,
                      first: int, last: int, service: Option<int>, s: Slot) returns (q: Query, day: int)
    requires OnList(cat, appointments, zone, provider, location, first, last, service, s)
    ensures provider in cat.providers && cat.providers[provider].isActive
    ensures ResolveTiming(cat, provider, location, service) == Ok(q.timing)
    ensures q == Query(cat, appointments, provider, RangeSpan(zone, first, last), q.timing)
    ensures first <= day <= last && s in DaySlots(q, zone, day)
  {
    q := Query(cat, appointments, provider, RangeSpan(zone, first, last),
               ResolveTiming(cat, provider, location, service).value);
    day := SortedSomeDay(q, zone, first, last + 1, s);
  }

  lemma SortedSomeDay(q: Query, zone: Zone, first: int, end: int, s: Slot) returns (day: int)
    requires s in SortByStart(DaysSlots(q, zone, first, end))
    ensures first <= day < end && s in DaySlots(q, zone, day)
  {
    SortMember(DaysSlots(q, zone, first, end), s);
    day := SomeDay(q, zone, first, end, s);
  }

  lemma DayIsListed(cat: Catalogue, appointments: seq<Appointment>, zone: Zone, provider: int, location: int,
                    day: int, service: Option<int>, p: Query, s: Slot)
    requires provider in cat.providers && cat.providers[provider].isActive
    requires ResolveTiming(cat, provider, location, service) == Ok(p.timing)
    requires p == Query(cat, appointments, provider, RangeSpan(zone, day, day), p.timing)
    requires s in DaySlots(p, zone, day)
    ensures OnList(cat, appointments, zone, provider, location, day, day, service, s)
  {
    OneDay(p, zone, day);
    SortMember(DaySlots(p, zone, day), s);
  }

  lemma OneDay(q: Query, zone: Zone, day: int)
    ensures DaysSlots(q, zone, day, day + 1) == DaySlots(q, zone, day)
  {
    assert DaysSlots(q, zone, day, day) == [];
  }

  lemma DaySlotsWithinDay(q: Query, zone: Zone, first: int, last: int, day: int, s: Slot)
    requires Increasing(zone, first, last) && first <= day <= last && s in DaySlots(q, zone, day)
    ensures zone.utc(day * DAY) <= s.start < s.end <= zone.utc((day + 1) * DAY)
  {
    DaySlotsAreStops(q, zone, day, s);
    var w, k: nat :| Offered(q.cat, zone, q.provider, q.timing, day, w, k, s);
    OfferedWithinDay(q.cat, zone, q.provider, q.timing, first, last, day, w, k, s);
  }

  lemma {:induction false} SlotsFromSame(q: Query, zone: Zone, first: int, last: int, day: int, w: Window, cursor: int)
    requires Increasing(zone, first, last) && first <= day <= last && q.span == RangeSpan(zone, first, last)
    requires BuffersCovered(q.cat, q.appointments, q.provider)
    requires cursor >= zone.utc(day * DAY + w.start) + q.timing.before * MINUTE
    ensures SlotsFrom(q, cursor, zone.utc(day * DAY + w.end))
            == SlotsFrom(DayQuery(q, zone, day), cursor, zone.utc(day * DAY + w.end))
    decreases zone.utc(day * DAY + w.end) - cursor
  {
    var s := SlotAt(q.timing, cursor);
    var block := BlockOf(q.timing, s);
    if block.end <= zone.utc(day * DAY + w.end) {
      WindowsWithinSpan(zone, first, last, day, w);
      PrefilterExact(q, block);
      PrefilterExact(DayQuery(q, zone, day), block);
      SlotsFromSame(q, zone, first, last, day, w, s.end);
    }
  }

  lemma {:induction false} WindowsSlotsSame(q: Query, zone: Zone, first: int, last: int, day: int, windows: seq<Window>)
    requires Increasing(zone, first, last) && first <= day <= last && q.span == RangeSpan(zone, first, last)
    requires BuffersCovered(q.cat, q.appointments, q.provider)
    ensures WindowsSlots(q, zone, day, windows) == WindowsSlots(DayQuery(q, zone, day), zone, day, windows)
  {
    if windows != [] {
      WindowsSlotsSame(q, zone, first, last, day, windows[..|windows| - 1]);
      WindowSlotsSame(q, zone, first, last, day, windows[|windows| - 1]);
    }
  }

  lemma WindowSlotsSame(q: Query, zone: Zone, first: int, last: int, day: int, w: Window)
    requires Increasing(zone, first, last) && first <= day <= last && q.span == RangeSpan(zone, first, last)
    requires BuffersCovered(q.cat, q.appointments, q.provider)
    ensures WindowSlots(q, zone, day, w) == WindowSlots(DayQuery(q, zone, day), zone, day, w)
  {
    SlotsFromSame(q, zone, first, last, day, w, zone.utc(day * DAY + w.start) + q.timing.before * MINUTE);
  }

  // ----- Sorting ----------------------------------------------------------------------------------

  predicate Ascending(s: seq<Slot>) {
    forall i, j :: 0 <= i < j < |s| ==> s[i].start <= s[j].start
  }

  lemma {:induction false} InsertAscends(x: Slot, s: seq<Slot>)
    requires Ascending(s)
    ensures Ascending(InsertSlot(x, s))
  {
    if s != [] && x.start > s[0].start {
      InsertAscends(x, s[1..]);
      var r := InsertSlot(x, s[1..]);
      forall j | 0 <= j < |r| ensures s[0].start <= r[j].start {
        InsertMember(x, s[1..], r[j]);
      }
    }
  }

  /** The list comes out in order of the starts, with the same slots. */
  lemma {:induction false} SortAscends(s: seq<Slot>)
    ensures Ascending(SortByStart(s)) && multiset(SortByStart(s)) == multiset(s)
  {
    if s != [] {
      SortAscends(s[1..]);
      InsertAscends(s[0], SortByStart(s[1..]));
    }
  }

  lemma {:induction false} InsertConcat(x: Slot, a: seq<Slot>, b: seq<Slot>)
    requires forall i :: 0 <= i < |b| ==> x.start <= b[i].start
    ensures InsertSlot(x, a + b) == InsertSlot(x, a) + b
  {
    if a == [] {
      assert a + b == b;
      assert InsertSlot(x, b) == [x] + b;
    } else {
      assert (a + b)[1..] == a[1..] + b;
      if x.start <= a[0].start {
        assert [x] + (a + b) == ([x] + a) + b;
      } else {
        InsertConcat(x, a[1..], b);
        assert [a[0]] + (InsertSlot(x, a[1..]) + b) == ([a[0]] + InsertSlot(x, a[1..])) + b;
      }
    }
  }

  lemma {:induction false} SortConcat(a: seq<Slot>, b: seq<Slot>)
    requires forall i, j :: 0 <= i < |a| && 0 <= j < |b| ==> a[i].start <= b[j].start
    ensures SortByStart(a + b) == SortByStart(a) + SortByStart(b)
  {
    if a == [] {
      assert a + b == b;
    } else {
      assert (a + b)[1..] == a[1..] + b;
      SortConcat(a[1..], b);
      var sorted := SortByStart(b);
      forall j | 0 <= j < |sorted| ensures a[0].start <= sorted[j].start {
        assert sorted[j] in sorted;
        SortMember(b, sorted[j]);
        var i :| 0 <= i < |b| && b[i] == sorted[j];
      }
      InsertConcat(a[0], SortByStart(a[1..]), sorted);
    }
  }

  /** The lists of the single days, one after another. */
  function DayLists(cat: Catalogue, appointments: seq<Appointment>, zone: Zone, provider: int, location: int,
                    first: int, end: int, service: Option<int>): seq<Slot>
    requires provider in cat.providers && ResolveTiming(cat, provider, location, service).Ok?
    decreases end - first
  {
    if end <= first then []
    else
      DayLists(cat, appointments, zone, provider, location, first, end - 1, service)
      + AvailableSlots(cat, appointments, zone, provider, location, end - 1, end - 1, service).value
  }

  lemma {:induction false} SortedDays(q: Query, zone: Zone, first: int, last: int, end: int, location: int,
      service: Option<int>)
    requires Increasing(zone, first, last) && first <= end <= last + 1 && q.span == RangeSpan(zone, first, last)
    requires BuffersCovered(q.cat, q.appointments, q.provider)
    requires q.provider in q.cat.providers && q.cat.providers[q.provider].isActive
    requires ResolveTiming(q.cat, q.provider, location, service) == Ok(q.timing)
    ensures SortByStart(DaysSlots(q, zone, first, end))
            == DayLists(q.cat, q.appointments, zone, q.provider, location, first, end, service)
    decreases end - first
  {
    if first < end {
      var day := end - 1;
      SortedDays(q, zone, first, last, day, location, service);
      var before, here := DaysSlots(q, zone, first, day), DaySlots(q, zone, day);
      forall i, j | 0 <= i < |before| && 0 <= j < |here| ensures before[i].start <= here[j].start {
        assert before[i] in before && here[j] in here;
        var d := SomeDay(q, zone, first, day, before[i]);
        DaySlotsWithinDay(q, zone, first, last, d, before[i]);
        DaySlotsWithinDay(q, zone, first, last, day, here[j]);
        DaysInOrder(zone, first, last, d, day);
      }
      SortConcat(before, here);
      WindowsSlotsSame(q, zone, first, last, day, DayWindows(q.cat, q.provider, day));
      OneDay(DayQuery(q, zone, day), zone, day);
    }
  }

  lemma DaysInOrder(zone: Zone, first: int, last: int, d: int, e: int)
    requires Increasing(zone, first, last) && first <= d < e <= last
    ensures zone.utc((d + 1) * DAY) <= zone.utc(e * DAY)
  {
    assert (d + 1) * DAY <= e * DAY;
  }

  /**
   While booked services stay assigned, the list over a range is the concatenation of the single-day
   lists, although every query prefilters over its own span.
   */
  lemma RangeIsConcatenationOfDays(cat: Catalogue, appointments: seq<Appointment>, zone: Zone, provider: int,
      location: int, first: int, last: int, service: Option<int>)
    requires AvailableSlots(cat, appointments, zone, provider, location, first, last, service).Ok?
    requires cat.providers[provider].isActive && Increasing(zone, first, last)
    requires BookedStillAssigned(cat, appointments, provider)
    ensures AvailableSlots(cat, appointments, zone, provider, location, first, last, service).value
            == DayLists(cat, appointments, zone, provider, location, first, last + 1, service)
  {
    AssignedIsCovered(cat, appointments, provider);
    var q := Query(cat, appointments, provider, RangeSpan(zone, first, last),
                   ResolveTiming(cat, provider, location, service).value);
    SortedDays(q, zone, first, last, last + 1, location, service);
  }

  // ----- Slots never overlap ------------------------------------------------------------------------

  predicate Apart(s: Slot, t: Slot) {
    s.end <= t.start || t.end <= s.start
  }

  predicate AllApart(slots: seq<Slot>) {
    forall i, j :: 0 <= i < j < |slots| ==> Apart(slots[i], slots[j])
  }

  predicate AllPositive(slots: seq<Slot>) {
    forall i :: 0 <= i < |slots| ==> slots[i].start < slots[i].end
  }

  /** Each slot ends before the next begins. */
  predicate Chained(slots: seq<Slot>) {
    forall i, j :: 0 <= i < j < |slots| ==> slots[i].end <= slots[j].start
  }

  lemma ApartConcat(a: seq<Slot>, b: seq<Slot>)
    requires AllApart(a) && AllApart(b)
    requires forall s, t :: s in a && t in b ==> Apart(s, t)
    ensures AllApart(a + b)
  {
  }

  lemma InsertMember(x: Slot, s: seq<Slot>, y: Slot)
    ensures y in InsertSlot(x, s) <==> y == x || y in s
  {
    assert y in InsertSlot(x, s) <==> y in multiset(InsertSlot(x, s));
    assert y in s <==> y in multiset(s);
  }

  lemma {:induction false} InsertChained(x: Slot, s: seq<Slot>)
    requires Chained(s) && AllPositive(s) && x.start < x.end && forall i :: 0 <= i < |s| ==> Apart(x, s[i])
    ensures Chained(InsertSlot(x, s)) && AllPositive(InsertSlot(x, s))
  {
    if s != [] && x.start > s[0].start {
      InsertChained(x, s[1..]);
      var r := InsertSlot(x, s[1..]);
      forall j | 0 <= j < |r| ensures s[0].end <= r[j].start {
        InsertMember(x, s[1..], r[j]);
      }
      ChainCons(s[0], r);
    } else {
      ChainCons(x, s);
    }
  }

  lemma ChainCons(x: Slot, s: seq<Slot>)
    requires Chained(s) && AllPositive(s) && x.start < x.end && forall i :: 0 <= i < |s| ==> x.end <= s[i].start
    ensures Chained([x] + s) && AllPositive([x] + s)
  {
  }

  lemma {:induction false} SortChained(s: seq<Slot>)
    requires AllApart(s) && AllPositive(s)
    ensures Chained(SortByStart(s)) && AllPositive(SortByStart(s))
  {
    if s != [] {
      SortChained(s[1..]);
      var sorted := SortByStart(s[1..]);
      forall i | 0 <= i < |sorted| ensures Apart(s[0], sorted[i]) {
        assert sorted[i] in sorted;
        SortMember(s[1..], sorted[i]);
        var j :| 0 <= j < |s[1..]| && s[1..][j] == sorted[i];
        assert Apart(s[0], s[j + 1]);
      }
      InsertChained(s[0], sorted);
    }
  }

  lemma {:induction false} SlotsFromApart(q: Query, cursor: int, windowEnd: int)
    ensures AllApart(SlotsFrom(q, cursor, windowEnd))
    decreases windowEnd - cursor
  {
    var s := SlotAt(q.timing, cursor);
    if BlockOf(q.timing, s).end <= windowEnd {
      SlotsFromApart(q, s.end, windowEnd);
      var rest := SlotsFrom(q, s.end, windowEnd);
      forall t | t in rest ensures Apart(s, t) {
        SlotsFromInside(q, s.end, windowEnd, t);
      }
      ApartConcat([s], rest);
    }
  }

  predicate WindowsApart(windows: seq<Window>) {
    forall i, j :: 0 <= i < j < |windows| ==> windows[i].end <= windows[j].start || windows[j].end <= windows[i].start
  }

  lemma {:induction false} WindowsSlotsApart(q: Query, zone: Zone, first: int, last: int, day: int,
      windows: seq<Window>)
    requires Increasing(zone, first, last) && first <= day <= last && WindowsApart(windows)
    ensures AllApart(WindowsSlots(q, zone, day, windows))
  {
    if windows != [] {
      var n := |windows| - 1;
      var earlier, here := WindowsSlots(q, zone, day, windows[..n]), WindowSlots(q, zone, day, windows[n]);
      WindowsSlotsApart(q, zone, first, last, day, windows[..n]);
      WindowSlotsApart(q, zone, day, windows[n]);
      forall s, t | s in earlier && t in here ensures Apart(s, t) {
        var v := SomeWindow(q, zone, day, windows[..n], s);
        SlotsOfTwoWindows(q, zone, first, last, day, v, windows[n], s, t);
      }
      ApartConcat(earlier, here);
    }
  }

  lemma WindowSlotsApart(q: Query, zone: Zone, day: int, w: Window)
    ensures AllApart(WindowSlots(q, zone, day, w))
  {
    SlotsFromApart(q, zone.utc(day * DAY + w.start) + q.timing.before * MINUTE, zone.utc(day * DAY + w.end));
  }

  lemma SlotsOfTwoWindows(q: Query, zone: Zone, first: int, last: int, day: int, v: Window, w: Window, s: Slot, t: Slot)
    requires Increasing(zone, first, last) && first <= day <= last && (v.end <= w.start || w.end <= v.start)
    requires s in WindowSlots(q, zone, day, v) && t in WindowSlots(q, zone, day, w)
    ensures Apart(s, t)
  {
    WindowSlotInside(q, zone, day, v, s);
    WindowSlotInside(q, zone, day, w, t);
    InOrder(zone, first, last, day, v, w);
  }

  lemma WindowSlotInside(q: Query, zone: Zone, day: int, w: Window, s: Slot)
    requires s in WindowSlots(q, zone, day, w)
    ensures zone.utc(day * DAY + w.start) <= s.start < s.end <= zone.utc(day * DAY + w.end)
  {
    SlotsFromInside(q, zone.utc(day * DAY + w.start) + q.timing.before * MINUTE, zone.utc(day * DAY + w.end), s);
  }

  lemma InOrder(zone: Zone, first: int, last: int, day: int, v: Window, w: Window)
    requires Increasing(zone, first, last) && first <= day <= last
    ensures v.end <= w.start ==> zone.utc(day * DAY + v.end) <= zone.utc(day * DAY + w.start)
    ensures w.end <= v.start ==> zone.utc(day * DAY + w.end) <= zone.utc(day * DAY + v.start)
  {
    assert first * DAY <= day * DAY && day * DAY + DAY <= (last + 1) * DAY;
  }

  lemma {:induction false} DaysSlotsApart(q: Query, zone: Zone, first: int, last: int, end: int)
    requires Increasing(zone, first, last) && end <= last + 1
    requires forall d :: first <= d <= last ==> WindowsApart(DayWindows(q.cat, q.provider, d))
    ensures AllApart(DaysSlots(q, zone, first, end)) && AllPositive(DaysSlots(q, zone, first, end))
    decreases end - first
  {
    if first < end {
      var day := end - 1;
      DaysSlotsApart(q, zone, first, last, day);
      WindowsSlotsApart(q, zone, first, last, day, DayWindows(q.cat, q.provider, day));
      var before, here := DaysSlots(q, zone, first, day), DaySlots(q, zone, day);
      forall s, t | s in before && t in here ensures Apart(s, t) {
        var d := SomeDay(q, zone, first, day, s);
        DaySlotsWithinDay(q, zone, first, last, d, s);
        DaySlotsWithinDay(q, zone, first, last, day, t);
        DaysInOrder(zone, first, last, d, day);
      }
      ApartConcat(before, here);
      forall i | 0 <= i < |here| ensures here[i].start < here[i].end {
        assert here[i] in here;
        DaySlotsWithinDay(q, zone, first, last, day, here[i]);
      }
    }
  }

  /** With disjoint windows on every day, the listed slots are strictly increasing and disjoint. */
  lemma SlotsNeverOverlap(cat: Catalogue, appointments: seq<Appointment>, zone: Zone, provider: int, location: int,
                          first: int, last: int, service: Option<int>)
    requires Increasing(zone, first, last)
    requires forall d :: first <= d <= last ==> WindowsApart(DayWindows(cat, provider, d))
    ensures var r := AvailableSlots(cat, appointments, zone, provider, location, first, last, service);
            r.Ok? ==> Chained(r.value) && AllPositive(r.value)
  {
    var r := AvailableSlots(cat, appointments, zone, provider, location, first, last, service);
    if r.Ok? && cat.providers[provider].isActive {
      var q := Query(cat, appointments, provider, RangeSpan(zone, first, last),
                     ResolveTiming(cat, provider, location, service).value);
      DaysSlotsApart(q, zone, first, last, last + 1);
      SortChained(DaysSlots(q, zone, first, last + 1));
    }
  }
}
