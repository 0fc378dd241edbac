/**
 The conversation over the booking tables. When what a message is shown is read from the tables, and the booking call
 is the desk's, pressing the buttons offered books, moves or cancels exactly what was pressed, if and only if the slot's
 UTC date is the date pressed.
 */
module ChannelBookings {
  import opened Options
  import opened Statuses
  import opened Texts
  import opened Dates
  import opened Calendar
  import opened Slots
  import opened SlotTheorems
  import opened Desk
  import C = Conversation
  import B = ButtonRuns

  /** Midnight of the first of January 1970; the conversation counts microseconds from here. */
  const EPOCH := 719163 * DAY

  /**
   The tables of the booking desk, and what else the conversation's queries read: the slot service by provider,
   service, location and day, and the location ids in listing order.
   */
  datatype Tables = Tables(cat: Catalogue, appointments: seq<Appointment>, zone: Zone,
                           slotsOn: (int, int, int, int) -> Option<seq<Slot>>,
                           paid: set<int>, locationIds: seq<int>, customer: int, now: int)

  /** One day's list, or nothing when the query raises. */
  function DayList(cat: Catalogue, appointments: seq<Appointment>, zone: Zone, p: int, v: int, l: int, day: int)
    : Option<seq<Slot>>
  {
    var r := AvailableSlots(cat, appointments, zone, p, l, day, day, Some(v));
    if r.Ok? then Some(r.value) else None
  }

  /** The slot service answers from the tables, and wall-clock time runs forward. */
  ghost predicate Backed(t: Tables) {
    && ForwardZone(t.zone)
    && forall p, v, l, day {:trigger DayList(t.cat, t.appointments, t.zone, p, v, l, day)} ::
         t.slotsOn(p, v, l, day) == DayList(t.cat, t.appointments, t.zone, p, v, l, day)
  }

  // ----- What the queries return ----------------------------------------------------------------------

  /** The starts of the slots that are still to come. */
  function FutureStarts(slots: seq<Slot>, now: int): (r: seq<int>)
    ensures forall x :: x in r <==> exists s :: s in slots && s.start > now && x == s.start - EPOCH
  {
    if slots == [] then []
    else
      var here := if slots[0].start > now then [slots[0].start - EPOCH] else [];
      assert slots == [slots[0]] + slots[1..];
      here + FutureStarts(slots[1..], now)
  }

  function SlotStarts(t: Tables, q: C.SlotQuery): Option<seq<int>> {
    if !ValidDate(q.date) then None
    else
      var slots := t.slotsOn(q.provider, q.service, q.location, Ordinal(q.date));
      if slots.Some? then Some(FutureStarts(slots.value, t.now)) else None
  }

  /** A blocking appointment of the customer that has not started. */
  predicate IsUpcoming(t: Tables, id: int) {
    && 0 <= id < |t.appointments| && t.appointments[id].provider in t.cat.providers
    && t.appointments[id].customer == t.customer && Blocking(t.appointments[id].status)
    && t.appointments[id].visible.start >= t.now
  }

  function BookingOf(t: Tables, id: int): C.Booking
    requires IsUpcoming(t, id)
  {
    var a := t.appointments[id];
    C.Booking(t.cat.providers[a.provider].organization, a.provider, a.service, a.location)
  }

  /** What a message sees of the tables, and how a booking, reschedule or cancel call made for it ends. */
  function WorldOf(t: Tables, verdict: C.Verdict): C.World {
    C.World(
      t.cat.activeOrganizations,
      t.locationIds,
      (set v | v in t.cat.services && t.cat.services[v].isActive),
      t.paid,
      (set p | p in t.cat.providers && t.cat.providers[p].isActive),
      t.cat.serviceLocations,
      (set i | 0 <= i < |t.cat.assignments| :: (t.cat.assignments[i].provider, t.cat.assignments[i].service)),
      t.cat.providerLocations,
      q => SlotStarts(t, q),
      (map id | 0 <= id < |t.appointments| && IsUpcoming(t, id) :: BookingOf(t, id)),
      verdict)
  }

  /** The rows' organizations are the tables', and the listed locations are the active ones. */
  ghost predicate SiteAgrees(site: C.Site, t: Tables) {
    && (forall l :: l in t.cat.locations ==> site.ofLocation(l) == t.cat.locations[l].organization)
    && (forall v :: v in t.cat.services ==> site.ofService(v) == t.cat.services[v].organization)
    && (forall p :: p in t.cat.providers ==> site.ofProvider(p) == t.cat.providers[p].organization)
    && (forall l :: l in t.locationIds <==> l in t.cat.locations && t.cat.locations[l].isActive)
  }

  /** The day number of an instant in UTC. */
  function UtcDay(x: int): int {
    (x + EPOCH) / DAY
  }

  predicate UtcDateRight(site: C.Site, x: int) {
    ValidDate(site.utcDate(x)) && Ordinal(site.utcDate(x)) == UtcDay(x)
  }

  // ----- Lists of two dates share no second -----------------------------------------------------------

  /** The moment lies in the local day, a whole minute before the next midnight. */
  predicate MinuteInDay(zone: Zone, day: int, x: int) {
    zone.utc(day * DAY) <= x + EPOCH && x + EPOCH + MINUTE <= zone.utc((day + 1) * DAY)
  }

  predicate InDate(zone: Zone, date: Date, x: int) {
    ValidDate(date) && MinuteInDay(zone, Ordinal(date), x)
  }

  ghost predicate SlotsInDates(w: C.World, zone: Zone) {
    forall p, v, l, date, x :: C.FreeOn(w, p, v, l, date, x) ==> InDate(zone, date, x)
  }

  /** The slot behind a start that is shown. */
  lemma FreeIsListed(t: Tables, verdict: C.Verdict, p: int, v: int, l: int, date: Date, x: int) returns (s: Slot)
    requires C.FreeOn(WorldOf(t, verdict), p, v, l, date, x)
    ensures ValidDate(date) && s.start == x + EPOCH && s.start > t.now
    ensures t.slotsOn(p, v, l, Ordinal(date)).Some? && s in t.slotsOn(p, v, l, Ordinal(date)).value
  {
    var slots := t.slotsOn(p, v, l, Ordinal(date)).value;
    assert SlotStarts(t, C.SlotQuery(p, v, l, date)) == Some(FutureStarts(slots, t.now));
    s :| s in slots && s.start > t.now && x == s.start - EPOCH;
  }

  lemma AnsweredIsListed(t: Tables, p: int, v: int, l: int, day: int, s: Slot)
    requires Backed(t) && t.slotsOn(p, v, l, day).Some? && s in t.slotsOn(p, v, l, day).value
    ensures OnList(t.cat, t.appointments, t.zone, p, l, day, day, Some(v), s)
  {
    assert t.slotsOn(p, v, l, day) == DayList(t.cat, t.appointments, t.zone, p, v, l, day);
  }

  lemma ListedInDay(t: Tables, p: int, v: int, l: int, day: int, s: Slot)
    requires Backed(t) && t.slotsOn(p, v, l, day).Some? && s in t.slotsOn(p, v, l, day).value
    ensures MinuteInDay(t.zone, day, s.start - EPOCH)
  {
    assert Increasing(t.zone, day, day);
    AnsweredIsListed(t, p, v, l, day, s);
    var q := ListedIsStop(t.cat, t.appointments, t.zone, p, l, day, Some(v), s);
  }

  lemma TablesInDates(t: Tables, verdict: C.Verdict)
    requires Backed(t)
    ensures SlotsInDates(WorldOf(t, verdict), t.zone)
  {
    var w := WorldOf(t, verdict);
    forall p, v, l, date, x | C.FreeOn(w, p, v, l, date, x) ensures InDate(t.zone, date, x) {
      FreeIsInDate(t, verdict, p, v, l, date, x);
    }
  }

  lemma FreeIsInDate(t: Tables, verdict: C.Verdict, p: int, v: int, l: int, date: Date, x: int)
    requires Backed(t) && C.FreeOn(WorldOf(t, verdict), p, v, l, date, x)
    ensures InDate(t.zone, date, x)
  {
    var s := FreeIsListed(t, verdict, p, v, l, date, x);
    ListedInDay(t, p, v, l, Ordinal(date), s);
  }

  lemma SecondsClose(x: int, y: int)
    requires C.Seconds(x) == C.Seconds(y)
    ensures y - x < MINUTE
  {
  }

  lemma SameSecondSameDay(zone: Zone, m: int, n: int, x: int, y: int)
    requires ForwardZone(zone) && C.Seconds(x) == C.Seconds(y) && MinuteInDay(zone, m, x) && MinuteInDay(zone, n, y)
    ensures m <= n
  {
    SecondsClose(y, x);
    if n < m {
      assert Increasing(zone, n, m);
      DaysInOrder(zone, n, m, n, m);
    }
  }

  /** One second is shown on one date only. */
  lemma SameSecondSameDate(zone: Zone, d: Date, e: Date, x: int, y: int)
    requires ForwardZone(zone) && C.Seconds(x) == C.Seconds(y) && InDate(zone, d, x) && InDate(zone, e, y)
    ensures d == e
  {
    SameSecondSameDay(zone, Ordinal(d), Ordinal(e), x, y);
    SameSecondSameDay(zone, Ordinal(e), Ordinal(d), y, x);
    OrdinalInjective(d, e);
  }

  /** What a shown slot's timestamp names on its UTC date: the slot if that is its date, and nothing otherwise. */
  lemma NamedOnUtcDate(site: C.Site, w: C.World, zone: Zone, p: int, v: int, l: int, date: Date, x: int)
    requires ForwardZone(zone) && SlotsInDates(w, zone) && B.Shown(w, p, v, l, date, x) && UtcDateRight(site, x)
    ensures C.ResolveSlot(w, Some(site.utcDate(x)), p, v, l, C.Seconds(x))
         == if UtcDay(x) == Ordinal(date) then Some(x) else None
  {
    var found := C.ResolveSlot(w, Some(site.utcDate(x)), p, v, l, C.Seconds(x));
    OrdinalInjective(site.utcDate(x), date);
    B.ShownIsFree(w, p, v, l, date, x);
    if found.Some? && site.utcDate(x) != date {
      assert C.FreeOn(w, p, v, l, site.utcDate(x), found.value);
      SameSecondSameDate(zone, date, site.utcDate(x), x, found.value);
    }
  }

  // ----- Booking --------------------------------------------------------------------------------------

  function BookingRequest(t: Tables, o: int, l: int, v: int, p: int, x: int): Request {
    Request(p, l, Some(v), t.customer, Some(o), x + EPOCH, if v in t.paid then PendingPayment else Confirmed)
  }

  /** The public booking call: its entity checks in their order, then the desk's create. */
  function BookingVerdict(t: Tables, o: int, l: int, v: int, p: int, x: int): C.Verdict {
    if o !in t.cat.activeOrganizations || l !in t.cat.locations || !t.cat.locations[l].isActive then C.Missing
    else if p !in t.cat.providers || !t.cat.providers[p].isActive then C.Missing
    else if v !in t.cat.services || !t.cat.services[v].isActive then C.Missing
    else if t.cat.locations[l].organization != o || t.cat.providers[p].organization != o then C.Refused
    else if t.cat.services[v].organization != o || (p, l) !in t.cat.providerLocations then C.Refused
    else if !IsAssigned(t.cat.assignments, p, v) || (v, l) !in t.cat.serviceLocations then C.Refused
    else if x + EPOCH <= t.now then C.Refused
    else if Created(t.cat, t.appointments, t.zone, BookingRequest(t, o, l, v, p, x)).Ok? then C.Accepted
    else C.Refused
  }

  /** A slot that is shown for rows that are offered is accepted by the booking call. */
  lemma ShownIsAccepted(site: C.Site, t: Tables, verdict: C.Verdict, l: int, v: int, p: int, date: Date, x: int)
    requires Backed(t) && SiteAgrees(site, t) && t.customer in t.cat.customers
    requires C.OffersProvider(site, WorldOf(t, verdict), l, v, p) && C.FreeOn(WorldOf(t, verdict), p, v, l, date, x)
    ensures BookingVerdict(t, site.ofLocation(l), l, v, p, x) == C.Accepted
  {
    var s := FreeIsListed(t, verdict, p, v, l, date, x);
    AnsweredIsListed(t, p, v, l, Ordinal(date), s);
    OfferedIsActive(site, t, verdict, l, v, p);
    ListedIsCreated(t, site.ofLocation(l), l, v, p, Ordinal(date), s);
  }

  lemma ListedIsCreated(t: Tables, o: int, l: int, v: int, p: int, day: int, s: Slot)
    requires ForwardZone(t.zone) && OnList(t.cat, t.appointments, t.zone, p, l, day, day, Some(v), s)
    requires p in t.cat.providers && t.cat.providers[p].organization == o && o in t.cat.activeOrganizations
    requires t.customer in t.cat.customers
    ensures Created(t.cat, t.appointments, t.zone, BookingRequest(t, o, l, v, p, s.start - EPOCH)).Ok?
  {
    assert Increasing(t.zone, day, day);
    ListedIsBookable(t.cat, t.appointments, t.zone, day, day, s, BookingRequest(t, o, l, v, p, s.start - EPOCH));
  }

  lemma OfferedIsActive(site: C.Site, t: Tables, verdict: C.Verdict, l: int, v: int, p: int)
    requires SiteAgrees(site, t) && C.OffersProvider(site, WorldOf(t, verdict), l, v, p)
    ensures site.ofLocation(l) in t.cat.activeOrganizations
    ensures l in t.cat.locations && t.cat.locations[l].isActive && t.cat.locations[l].organization == site.ofLocation(l)
    ensures p in t.cat.providers && t.cat.providers[p].isActive && t.cat.providers[p].organization == site.ofLocation(l)
    ensures v in t.cat.services && t.cat.services[v].isActive && t.cat.services[v].organization == site.ofLocation(l)
    ensures (p, l) in t.cat.providerLocations && (v, l) in t.cat.serviceLocations && IsAssigned(t.cat.assignments, p, v)
  {
    var pairs := set i | 0 <= i < |t.cat.assignments| :: (t.cat.assignments[i].provider, t.cat.assignments[i].service);
    assert (p, v) in pairs;
    var i :| 0 <= i < |t.cat.assignments| && (p, v) == (t.cat.assignments[i].provider, t.cat.assignments[i].service);
  }

  /** What a message sees while the booking call for these rows and this slot would end as the desk decides. */
  function BookingWorld(site: C.Site, t: Tables, l: int, v: int, p: int, x: int): C.World {
    WorldOf(t, BookingVerdict(t, site.ofLocation(l), l, v, p, x))
  }

  lemma AcceptedBooks(site: C.Site, w: C.World, zone: Zone, s: C.State, l: int, v: int, p: int, date: Date, x: int)
    requires ValidDate(date)
    requires ForwardZone(zone) && SlotsInDates(w, zone) && UtcDateRight(site, x) && w.verdict == C.Accepted
    requires C.EligibleService(site, w, l, v) && C.OffersProvider(site, w, l, v, p) && B.Shown(w, p, v, l, date, x)
    ensures B.Presses(site, w, s, B.BookingButtons(site, l, v, p, date, x)).effect
         == if UtcDay(x) == Ordinal(date) then C.Booked(site.ofLocation(l), l, v, p, x) else C.NoEffect
  {
    NamedOnUtcDate(site, w, zone, p, v, l, date, x);
    B.ButtonsBook(site, w, s, l, v, p, date, x);
  }

  lemma AcceptedCallBooks(site: C.Site, t: Tables, s: C.State, l: int, v: int, p: int, date: Date, x: int)
    requires ValidDate(date)
    requires Backed(t) && UtcDateRight(site, x)
    requires var w := WorldOf(t, C.Accepted);
             C.EligibleService(site, w, l, v) && C.OffersProvider(site, w, l, v, p) && B.Shown(w, p, v, l, date, x)
    ensures B.Presses(site, WorldOf(t, C.Accepted), s, B.BookingButtons(site, l, v, p, date, x)).effect
         == if UtcDay(x) == Ordinal(date) then C.Booked(site.ofLocation(l), l, v, p, x) else C.NoEffect
  {
    TablesInDates(t, C.Accepted);
    AcceptedBooks(site, WorldOf(t, C.Accepted), t.zone, s, l, v, p, date, x);
  }

  /**
   From any state of the conversation, the buttons offered one after the other book exactly the rows and the slot
   pressed, if and only if the slot's UTC date is the date pressed; otherwise the confirmation books nothing, although
   the booking call would accept the slot.
   */
  lemma ButtonsBookTheSlot(site: C.Site, t: Tables, s: C.State, l: int, v: int, p: int, date: Date, x: int)
    requires ValidDate(date)
    requires Backed(t) && SiteAgrees(site, t) && t.customer in t.cat.customers && UtcDateRight(site, x)
    requires var w := BookingWorld(site, t, l, v, p, x);
             C.EligibleService(site, w, l, v) && C.OffersProvider(site, w, l, v, p) && B.Shown(w, p, v, l, date, x)
    ensures BookingVerdict(t, site.ofLocation(l), l, v, p, x) == C.Accepted
    ensures B.Presses(site, BookingWorld(site, t, l, v, p, x), s, B.BookingButtons(site, l, v, p, date, x)).effect
         == if UtcDay(x) == Ordinal(date) then C.Booked(site.ofLocation(l), l, v, p, x) else C.NoEffect
  {
    ShownRowsAreAccepted(site, t, BookingVerdict(t, site.ofLocation(l), l, v, p, x), l, v, p, date, x);
    AcceptedCallBooks(site, t, s, l, v, p, date, x);
  }

  lemma ShownRowsAreAccepted(site: C.Site, t: Tables, verdict: C.Verdict, l: int, v: int, p: int, date: Date, x: int)
    requires Backed(t) && SiteAgrees(site, t) && t.customer in t.cat.customers
    requires C.OffersProvider(site, WorldOf(t, verdict), l, v, p) && B.Shown(WorldOf(t, verdict), p, v, l, date, x)
    ensures BookingVerdict(t, site.ofLocation(l), l, v, p, x) == C.Accepted
  {
    B.ShownIsFree(WorldOf(t, verdict), p, v, l, date, x);
    ShownIsAccepted(site, t, verdict, l, v, p, date, x);
  }

  // ----- Bookings already made ------------------------------------------------------------------------

  function MoveVerdict(t: Tables, id: int, x: int): C.Verdict {
    if Rescheduled(t.cat, t.appointments, t.zone, id, x + EPOCH).Ok? then C.Accepted else C.Refused
  }

  lemma ListedIsMovable(t: Tables, id: int, day: int, s: Slot, x: int)
    requires ForwardZone(t.zone) && IsUpcoming(t, id) && t.appointments[id].service.Some? && x == s.start - EPOCH
    requires var a := t.appointments[id];
             OnList(t.cat, t.appointments, t.zone, a.provider, a.location, day, day, Some(a.service.value), s)
    ensures MoveVerdict(t, id, x) == C.Accepted
  {
    assert Increasing(t.zone, day, day);
    ListedIsReschedulable(t.cat, t.appointments, t.zone, day, day, s, id);
  }

  lemma ShownIsMovable(t: Tables, verdict: C.Verdict, id: int, p: int, v: int, l: int, date: Date, x: int)
    requires Backed(t) && IsUpcoming(t, id)
    requires t.appointments[id].provider == p && t.appointments[id].service == Some(v)
             && t.appointments[id].location == l
    requires C.FreeOn(WorldOf(t, verdict), p, v, l, date, x)
    ensures MoveVerdict(t, id, x) == C.Accepted
  {
    var s := FreeIsListed(t, verdict, p, v, l, date, x);
    AnsweredIsListed(t, p, v, l, Ordinal(date), s);
    ListedIsMovable(t, id, Ordinal(date), s, x);
  }

  /** A booking that is shown is an upcoming appointment of the customer. */
  lemma MovableIsUpcoming(t: Tables, verdict: C.Verdict, s: C.State, id: int, date: Date, x: int)
    requires B.Movable(WorldOf(t, verdict), s, id, date, x)
    ensures IsUpcoming(t, id) && t.appointments[id].service.Some?
    ensures WorldOf(t, verdict).bookings[id] == BookingOf(t, id)
    ensures var a := t.appointments[id]; B.Shown(WorldOf(t, verdict), a.provider, a.service.value, a.location, date, x)
  {
    assert id in WorldOf(t, verdict).bookings;
  }

  lemma AcceptedMoves(site: C.Site, w: C.World, zone: Zone, s: C.State, id: int, date: Date, x: int)
    requires ValidDate(date)
    requires ForwardZone(zone) && SlotsInDates(w, zone) && UtcDateRight(site, x) && w.verdict == C.Accepted
    requires B.Movable(w, s, id, date, x)
    ensures B.Presses(site, w, s, B.MoveButtons(id, date, x)).effect
         == if UtcDay(x) == Ordinal(date) then C.Rescheduled(id, x) else C.NoEffect
  {
    var b := w.bookings[id];
    NamedOnUtcDate(site, w, zone, b.provider, b.service.value, b.location, date, x);
    B.ButtonsReschedule(site, w, s, id, date, x);
  }

  lemma AcceptedCallMoves(site: C.Site, t: Tables, s: C.State, id: int, date: Date, x: int)
    requires ValidDate(date)
    requires Backed(t) && UtcDateRight(site, x) && B.Movable(WorldOf(t, C.Accepted), s, id, date, x)
    ensures B.Presses(site, WorldOf(t, C.Accepted), s, B.MoveButtons(id, date, x)).effect
         == if UtcDay(x) == Ordinal(date) then C.Rescheduled(id, x) else C.NoEffect
  {
    TablesInDates(t, C.Accepted);
    AcceptedMoves(site, WorldOf(t, C.Accepted), t.zone, s, id, date, x);
  }

  lemma ShownBookingIsMovable(t: Tables, verdict: C.Verdict, s: C.State, id: int, date: Date, x: int)
    requires Backed(t) && B.Movable(WorldOf(t, verdict), s, id, date, x)
    ensures MoveVerdict(t, id, x) == C.Accepted
  {
    MovableIsUpcoming(t, verdict, s, id, date, x);
    var a := t.appointments[id];
    B.ShownIsFree(WorldOf(t, verdict), a.provider, a.service.value, a.location, date, x);
    ShownIsMovable(t, verdict, id, a.provider, a.service.value, a.location, date, x);
  }

  /** The same for moving a booking: exactly the booking pressed, to exactly the slot pressed. */
  lemma ButtonsMoveTheBooking(site: C.Site, t: Tables, s: C.State, id: int, date: Date, x: int)
    requires ValidDate(date)
    requires Backed(t) && UtcDateRight(site, x) && B.Movable(WorldOf(t, MoveVerdict(t, id, x)), s, id, date, x)
    ensures MoveVerdict(t, id, x) == C.Accepted
    ensures B.Presses(site, WorldOf(t, MoveVerdict(t, id, x)), s, B.MoveButtons(id, date, x)).effect
         == if UtcDay(x) == Ordinal(date) then C.Rescheduled(id, x) else C.NoEffect
  {
    ShownBookingIsMovable(t, MoveVerdict(t, id, x), s, id, date, x);
    AcceptedCallMoves(site, t, s, id, date, x);
  }

  function CancelVerdict(t: Tables, id: int): C.Verdict {
    if CancelledAt(t.appointments, id).Ok? then C.Accepted else C.Refused
  }

  lemma ShownIsCancellable(t: Tables, verdict: C.Verdict, s: C.State, id: int)
    requires C.Manageable(WorldOf(t, verdict), s, id)
    ensures IsUpcoming(t, id) && CancelVerdict(t, id) == C.Accepted
    ensures CancelledAt(t.appointments, id)
            == Ok(t.appointments[id := t.appointments[id].(status := Statuses.Cancelled)])
  {
    assert id in WorldOf(t, verdict).bookings;
  }

  /** A booking the conversation shows can always be cancelled, and the cancel buttons cancel it. */
  lemma ButtonsCancelTheBooking(site: C.Site, t: Tables, s: C.State, id: int)
    requires C.Manageable(WorldOf(t, CancelVerdict(t, id)), s, id)
    ensures B.Presses(site, WorldOf(t, CancelVerdict(t, id)), s, B.CancelButtons(id)).effect == C.Cancelled(id)
    ensures IsUpcoming(t, id)
    ensures CancelledAt(t.appointments, id)
            == Ok(t.appointments[id := t.appointments[id].(status := Statuses.Cancelled)])
  {
    ShownIsCancellable(t, CancelVerdict(t, id), s, id);
    B.ButtonsCancel(site, WorldOf(t, CancelVerdict(t, id)), s, id);
  }
}
