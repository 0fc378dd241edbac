/**
 The messaging conversation: what each inbound message does to the selected organization, location, service,
 provider and slot. The tables and the outcome of each booking call may differ from message to message.
 */
module Conversation {
  import opened Options
  import opened Texts
  import opened ActionIds

  /** What never changes: the organization each row belongs to, and the UTC date of an instant. */
  datatype Site = Site(ofLocation: int -> int, ofService: int -> int, ofProvider: int -> int, utcDate: int -> Date)

  datatype SlotQuery = SlotQuery(provider: int, service: int, location: int, date: Date)

  /** A blocking appointment of the customer that has not started. */
  datatype Booking = Booking(organization: int, provider: int, service: Option<int>, location: int)

  /** How a booking, reschedule or cancel call ends: done, a raised ValueError or a raised LookupError. */
  datatype Verdict = Accepted | Refused | Missing

  /** The tables while one message is handled: active rows, assignments, free slots (`None`: the query raises). */
  datatype World = World(
    organizations: set<int>,
    locations: seq<int>,
    services: set<int>,
    paidServices: set<int>,
    providers: set<int>,
    serviceAt: set<(int, int)>,
    providerServes: set<(int, int)>,
    providerAt: set<(int, int)>,
    slots: SlotQuery -> Option<seq<int>>,
    bookings: map<int, Booking>,
    verdict: Verdict)

  datatype Step =
    | AtOrganizations
    | AtMenu
    | AtLocations
    | AtServices
    | AtProviders
    | AtDates
    | AtSlots
    | AtConfirm
    | AtBookings
    | AtBookingActions
    | AtConfirmCancel
    | AtRescheduleDates
    | AtRescheduleSlots
    | AtConfirmReschedule

  /** The context column: the date text is kept as its date, which is what it parses back to. */
  datatype Context = Context(date: Option<Date>, appointment: Option<int>)

  const EMPTY := Context(None, None)

  datatype State = State(
    step: Step,
    organization: Option<int>,
    location: Option<int>,
    service: Option<int>,
    provider: Option<int>,
    slot: Option<int>,
    context: Context)

  const START := State(AtOrganizations, None, None, None, None, None, EMPTY)

  datatype Effect =
    | NoEffect
    | Booked(organization: int, location: int, service: int, provider: int, start: int)
    | Rescheduled(appointment: int, start: int)
    | Cancelled(appointment: int)

  datatype Outcome = Outcome(state: State, effect: Effect)

  // ----- What the tables offer ------------------------------------------------------------------------

  predicate SomeOrganization(site: Site, w: World) {
    exists i :: 0 <= i < |w.locations| && site.ofLocation(w.locations[i]) in w.organizations
  }

  function LocationsOf(site: Site, locations: seq<int>, organization: int): (r: seq<int>)
    ensures forall l :: l in r <==> l in locations && site.ofLocation(l) == organization
  {
    if locations == [] then []
    else
      (if site.ofLocation(locations[0]) == organization then [locations[0]] else [])
      + LocationsOf(site, locations[1..], organization)
  }

  predicate VisibleLocation(site: Site, w: World, l: int) {
    l in w.locations && site.ofLocation(l) in w.organizations
  }

  predicate Staffs(site: Site, w: World, l: int, v: int, p: int) {
    p in w.providers && site.ofProvider(p) == site.ofLocation(l) && (p, v) in w.providerServes && (p, l) in w.providerAt
  }

  predicate EligibleService(site: Site, w: World, l: int, v: int) {
    && VisibleLocation(site, w, l)
    && v in w.services && v !in w.paidServices
    && site.ofService(v) == site.ofLocation(l) && (v, l) in w.serviceAt
    && exists p :: p in w.providers && Staffs(site, w, l, v, p)
  }

  predicate SomeService(site: Site, w: World, l: int) {
    exists v :: v in w.services && EligibleService(site, w, l, v)
  }

  predicate OffersProvider(site: Site, w: World, l: int, v: int, p: int) {
    && VisibleLocation(site, w, l)
    && v in w.services && site.ofService(v) == site.ofLocation(l) && (v, l) in w.serviceAt
    && Staffs(site, w, l, v, p)
  }

  predicate SomeProvider(site: Site, w: World, l: int, v: int) {
    exists p :: p in w.providers && OffersProvider(site, w, l, v, p)
  }

  /** Whole seconds, truncated toward zero. */
  function Seconds(micros: int): int {
    if micros >= 0 then micros / 1_000_000 else -(-micros / 1_000_000)
  }

  /** The first slot starting in the given second. */
  function FindSlot(slots: seq<int>, timestamp: int): (r: Option<int>)
    ensures r.None? ==> forall i :: 0 <= i < |slots| ==> Seconds(slots[i]) != timestamp
    ensures r.Some? ==> exists i :: 0 <= i < |slots| && slots[i] == r.value && Seconds(slots[i]) == timestamp
                          && forall j :: 0 <= j < i ==> Seconds(slots[j]) != timestamp
  {
    if slots == [] then None
    else if Seconds(slots[0]) == timestamp then
      Some(slots[0])
    else
      assert forall i :: 1 <= i < |slots| ==> slots[i] == slots[1..][i - 1];
      var r := FindSlot(slots[1..], timestamp);
      assert r.Some? ==> exists i :: 0 <= i < |slots| && slots[i] == r.value && Seconds(slots[i]) == timestamp
                           && forall j :: 0 <= j < i ==> Seconds(slots[j]) != timestamp by {
        if r.Some? {
          var i :| 0 <= i < |slots[1..]| && slots[1..][i] == r.value && Seconds(slots[1..][i]) == timestamp
            && forall j :: 0 <= j < i ==> Seconds(slots[1..][j]) != timestamp;
          assert slots[i + 1] == r.value;
        }
      }
      r
  }

  /** The slot a timestamp names on the remembered date; a query that raises ends like one that finds nothing. */
  function ResolveSlot(w: World, date: Option<Date>, p: int, v: int, l: int, timestamp: int): Option<int> {
    if date.Some? && w.slots(SlotQuery(p, v, l, date.value)).Some?
    then FindSlot(w.slots(SlotQuery(p, v, l, date.value)).value, timestamp)
    else None
  }

  /** The start is in the list of free slots for these rows on the date. */
  predicate FreeOn(w: World, p: int, v: int, l: int, date: Date, start: int) {
    w.slots(SlotQuery(p, v, l, date)).Some? && start in w.slots(SlotQuery(p, v, l, date)).value
  }

  /** The slot is free for these rows on some date, in the second the message names. */
  ghost predicate FreeSlot(w: World, p: int, v: int, l: int, start: int, timestamp: int) {
    exists date :: FreeOn(w, p, v, l, date, start) && Seconds(start) == timestamp
  }

  lemma ResolvedIsFree(w: World, date: Option<Date>, p: int, v: int, l: int, timestamp: int)
    ensures var start := ResolveSlot(w, date, p, v, l, timestamp);
            start.Some? ==> FreeSlot(w, p, v, l, start.value, timestamp)
  {
    var start := ResolveSlot(w, date, p, v, l, timestamp);
    if start.Some? {
      assert FreeOn(w, p, v, l, date.value, start.value) && Seconds(start.value) == timestamp;
    }
  }

  predicate Manageable(w: World, s: State, id: int) {
    id in w.bookings && (s.organization.Some? ==> w.bookings[id].organization == s.organization.value)
  }

  // ----- What each handler does to the state ----------------------------------------------------------

  function SelectedVisible(w: World, s: State): Option<int> {
    if s.organization.Some? && s.organization.value in w.organizations then s.organization else None
  }

  function Organizations(site: Site, w: World, s: State): State {
    if SomeOrganization(site, w) then START else s
  }

  function MainMenu(s: State): State {
    s.(step := AtMenu, context := EMPTY)
  }

  /** Also the answer to a stale action and to free text. */
  function MenuOrOrganizations(site: Site, w: World, s: State): State {
    if SelectedVisible(w, s).None? then Organizations(site, w, s) else MainMenu(s)
  }

  function OrganizationChosen(site: Site, w: World, s: State, id: int): State {
    if id in w.organizations then State(AtMenu, Some(id), None, None, None, None, EMPTY)
    else MenuOrOrganizations(site, w, s)
  }

  function Services(site: Site, w: World, s: State, l: int): State {
    if !VisibleLocation(site, w, l) || !SomeService(site, w, l) then MenuOrOrganizations(site, w, s)
    else State(AtServices, s.organization, Some(l), None, None, None, EMPTY)
  }

  function BookingBegun(site: Site, w: World, s: State): State {
    var o := SelectedVisible(w, s);
    if o.None? then Organizations(site, w, s)
    else
      var ls := LocationsOf(site, w.locations, o.value);
      if ls == [] then MainMenu(s)
      else if |ls| == 1 then Services(site, w, s, ls[0])
      else State(AtLocations, s.organization, None, None, None, None, EMPTY)
  }

  function LocationChosen(site: Site, w: World, s: State, l: int): State {
    var o := SelectedVisible(w, s);
    if o.None? then Organizations(site, w, s)
    else if !VisibleLocation(site, w, l) || site.ofLocation(l) != o.value then MenuOrOrganizations(site, w, s)
    else Services(site, w, s, l)
  }

  function ServiceChosen(site: Site, w: World, s: State, v: int): State {
    if s.location.None? then BookingBegun(site, w, s)
    else if !EligibleService(site, w, s.location.value, v) then MenuOrOrganizations(site, w, s)
    else if !SomeProvider(site, w, s.location.value, v) then s
    else s.(step := AtProviders, service := Some(v), provider := None, slot := None, context := EMPTY)
  }

  function Dates(site: Site, w: World, s: State): State {
    if SelectedVisible(w, s).None? then Organizations(site, w, s)
    else s.(step := AtDates, slot := None, context := EMPTY)
  }

  function ProviderChosen(site: Site, w: World, s: State, p: int): State {
    if s.location.None? || s.service.None? then BookingBegun(site, w, s)
    else if !OffersProvider(site, w, s.location.value, s.service.value, p) then MenuOrOrganizations(site, w, s)
    else Dates(site, w, s.(step := AtDates, provider := Some(p), slot := None, context := EMPTY))
  }

  function DateChosen(site: Site, w: World, s: State, date: Date): State {
    if s.provider.None? || s.service.None? || s.location.None? then BookingBegun(site, w, s)
    else
      var q := SlotQuery(s.provider.value, s.service.value, s.location.value, date);
      if w.slots(q).None? then MenuOrOrganizations(site, w, s)
      else if w.slots(q).value == [] then Dates(site, w, s)
      else s.(step := AtSlots, slot := None, context := Context(Some(date), None))
  }

  function SlotFromState(w: World, s: State, timestamp: int): Option<int> {
    if s.provider.None? || s.service.None? || s.location.None? then None
    else ResolveSlot(w, s.context.date, s.provider.value, s.service.value, s.location.value, timestamp)
  }

  /** The remembered date becomes the UTC date of the slot. */
  function SlotChosen(site: Site, w: World, s: State, timestamp: int): State {
    var start := SlotFromState(w, s, timestamp);
    if start.None? then MenuOrOrganizations(site, w, s)
    else s.(step := AtConfirm, slot := start, context := Context(Some(site.utcDate(start.value)), None))
  }

  function BookingConfirmed(site: Site, w: World, s: State, timestamp: int): Outcome {
    var start := SlotFromState(w, s, timestamp);
    if start.None? then Outcome(MenuOrOrganizations(site, w, s), NoEffect)
    else if s.organization.None? then Outcome(BookingBegun(site, w, s), NoEffect)
    else if w.verdict != Accepted then Outcome(MenuOrOrganizations(site, w, s), NoEffect)
    else
      Outcome(State(AtMenu, s.organization, None, None, None, None, EMPTY),
              Booked(s.organization.value, s.location.value, s.service.value, s.provider.value, start.value))
  }

  function Upcoming(site: Site, w: World, s: State): State {
    var o := SelectedVisible(w, s);
    if o.None? then Organizations(site, w, s)
    else if exists id :: id in w.bookings && w.bookings[id].organization == o.value
    then s.(step := AtBookings, context := EMPTY)
    else MainMenu(s)
  }

  function BookingActions(site: Site, w: World, s: State, id: int): State {
    if !Manageable(w, s, id) then MenuOrOrganizations(site, w, s)
    else s.(step := AtBookingActions, context := Context(None, Some(id)))
  }

  function CancelPrompted(site: Site, w: World, s: State, id: int): State {
    if !Manageable(w, s, id) then MenuOrOrganizations(site, w, s)
    else s.(step := AtConfirmCancel, context := Context(None, Some(id)))
  }

  function CancelConfirmed(site: Site, w: World, s: State, id: int): Outcome {
    if !Manageable(w, s, id) || w.verdict == Missing then Outcome(MenuOrOrganizations(site, w, s), NoEffect)
    else if w.verdict == Refused then Outcome(s, NoEffect)
    else Outcome(MainMenu(s), Cancelled(id))
  }

  function RescheduleDates(site: Site, w: World, s: State, id: int): State {
    if !Manageable(w, s, id) then MenuOrOrganizations(site, w, s)
    else if w.bookings[id].service.None? then s
    else s.(step := AtRescheduleDates, context := Context(None, Some(id)))
  }

  function RescheduleDateChosen(site: Site, w: World, s: State, id: int, date: Date): State {
    if !Manageable(w, s, id) || w.bookings[id].service.None? then MenuOrOrganizations(site, w, s)
    else
      var b := w.bookings[id];
      var q := SlotQuery(b.provider, b.service.value, b.location, date);
      if w.slots(q).None? then MenuOrOrganizations(site, w, s)
      else if w.slots(q).value == [] then RescheduleDates(site, w, s, id)
      else s.(step := AtRescheduleSlots, context := Context(Some(date), Some(id)))
  }

  function RescheduleSlot(w: World, s: State, id: int, timestamp: int): Option<int> {
    if !Manageable(w, s, id) || w.bookings[id].service.None? then None
    else
      var b := w.bookings[id];
      ResolveSlot(w, s.context.date, b.provider, b.service.value, b.location, timestamp)
  }

  function RescheduleSlotChosen(site: Site, w: World, s: State, id: int, timestamp: int): State {
    var start := RescheduleSlot(w, s, id, timestamp);
    if start.None? then MenuOrOrganizations(site, w, s)
    else s.(step := AtConfirmReschedule, slot := start, context := Context(Some(site.utcDate(start.value)), Some(id)))
  }

  function RescheduleConfirmed(site: Site, w: World, s: State, id: int, timestamp: int): Outcome {
    var start := RescheduleSlot(w, s, id, timestamp);
    if start.None? || w.verdict == Missing then Outcome(MenuOrOrganizations(site, w, s), NoEffect)
    else if w.verdict == Refused then Outcome(s, NoEffect)
    else Outcome(s.(step := AtMenu, slot := None, context := EMPTY), Rescheduled(id, start.value))
  }

  /** The handler an action id names, or the stale answer. */
  function Handle(site: Site, w: World, s: State, command: Option<Command>): Outcome {
    match command
    case None => Outcome(MenuOrOrganizations(site, w, s), NoEffect)
    case Some(SelectOrganization(id)) => Outcome(OrganizationChosen(site, w, s, id), NoEffect)
    case Some(RenderOrganizations) => Outcome(Organizations(site, w, s), NoEffect)
    case Some(BeginBooking) => Outcome(BookingBegun(site, w, s), NoEffect)
    case Some(ShowUpcoming) => Outcome(Upcoming(site, w, s), NoEffect)
    case Some(SelectLocation(l)) => Outcome(LocationChosen(site, w, s, l), NoEffect)
    case Some(SelectService(v)) => Outcome(ServiceChosen(site, w, s, v), NoEffect)
    case Some(SelectProvider(p)) => Outcome(ProviderChosen(site, w, s, p), NoEffect)
    case Some(SelectDate(date)) => Outcome(DateChosen(site, w, s, date), NoEffect)
    case Some(SelectSlot(t)) => Outcome(SlotChosen(site, w, s, t), NoEffect)
    case Some(ConfirmBooking(t)) => BookingConfirmed(site, w, s, t)
    case Some(RenderBookingDates) => Outcome(Dates(site, w, s), NoEffect)
    case Some(ShowBookingActions(id)) => Outcome(BookingActions(site, w, s, id), NoEffect)
    case Some(PromptCancel(id)) => Outcome(CancelPrompted(site, w, s, id), NoEffect)
    case Some(ConfirmCancel(id)) => CancelConfirmed(site, w, s, id)
    case Some(RenderRescheduleDates(id)) => Outcome(RescheduleDates(site, w, s, id), NoEffect)
    case Some(SelectRescheduleDate(id, date)) => Outcome(RescheduleDateChosen(site, w, s, id, date), NoEffect)
    case Some(SelectRescheduleSlot(id, t)) => Outcome(RescheduleSlotChosen(site, w, s, id, t), NoEffect)
    case Some(ConfirmReschedule(id, t)) => RescheduleConfirmed(site, w, s, id, t)
  }

  /** The commands that take a booking forward, as opposed to those about a booking already made. */
  predicate IsBookingCommand(command: Command) {
    || command.SelectOrganization? || command.RenderOrganizations? || command.BeginBooking?
    || command.SelectLocation? || command.SelectService? || command.SelectProvider?
    || command.SelectDate? || command.SelectSlot? || command.ConfirmBooking? || command.RenderBookingDates?
  }

  /** The text of a message after trimming and lower-casing, as far as routing looks at it. */
  datatype Word = StartWord | MenuWord | OtherWord

  /** `action` is empty when the message carries no action id. */
  datatype Message = Message(word: Word, action: string)

  /** Keywords come before the action id; text without a keyword and other messages get the menu again. */
  function Answer(site: Site, w: World, s: State, m: Message): Outcome {
    if m.word == StartWord then Outcome(Organizations(site, w, START), NoEffect)
    else if m.word == MenuWord || m.action == "" then Outcome(MenuOrOrganizations(site, w, s), NoEffect)
    else Handle(site, w, s, Decode(m.action))
  }

  // ----- What every message keeps -------------------------------------------------------------------

  /** Provider, so service, so location, so organization selected: all of that organization. */
  predicate Chain(site: Site, s: State) {
    && (s.location.Some? ==> s.organization == Some(site.ofLocation(s.location.value)))
    && (s.service.Some? ==> s.location.Some? && s.organization == Some(site.ofService(s.service.value)))
    && (s.provider.Some? ==> s.service.Some? && s.organization == Some(site.ofProvider(s.provider.value)))
  }

  lemma ScreensKeepChain(site: Site, w: World, s: State)
    requires Chain(site, s)
    ensures Chain(site, Organizations(site, w, s)) && Chain(site, MenuOrOrganizations(site, w, s))
    ensures Chain(site, BookingBegun(site, w, s)) && Chain(site, Dates(site, w, s))
    ensures forall l :: s.organization == Some(site.ofLocation(l)) ==> Chain(site, Services(site, w, s, l))
  {
  }

  lemma SelectionsKeepChain(site: Site, w: World, s: State, x: int)
    requires Chain(site, s)
    ensures Chain(site, OrganizationChosen(site, w, s, x)) && Chain(site, LocationChosen(site, w, s, x))
    ensures Chain(site, ServiceChosen(site, w, s, x)) && Chain(site, ProviderChosen(site, w, s, x))
  {
    ScreensKeepChain(site, w, s);
    if s.location.Some? && s.service.Some? && OffersProvider(site, w, s.location.value, s.service.value, x) {
      var t := s.(step := AtDates, provider := Some(x), slot := None, context := EMPTY);
      assert Chain(site, t);
      ScreensKeepChain(site, w, t);
    }
  }

  /** The handlers that select no row. */
  lemma OthersKeepChain(site: Site, w: World, s: State, command: Command)
    requires Chain(site, s)
    requires !command.SelectOrganization? && !command.SelectLocation?
    requires !command.SelectService? && !command.SelectProvider?
    ensures Chain(site, Handle(site, w, s, Some(command)).state)
  {
    ScreensKeepChain(site, w, s);
  }

  lemma HandlersKeepChain(site: Site, w: World, s: State, command: Option<Command>)
    requires Chain(site, s)
    ensures Chain(site, Handle(site, w, s, command).state)
  {
    ScreensKeepChain(site, w, s);
    if command.Some? {
      match command.value
      case SelectOrganization(id) => SelectionsKeepChain(site, w, s, id);
      case SelectLocation(l) => SelectionsKeepChain(site, w, s, l);
      case SelectService(v) => SelectionsKeepChain(site, w, s, v);
      case SelectProvider(p) => SelectionsKeepChain(site, w, s, p);
      case _ => OthersKeepChain(site, w, s, command.value);
    }
  }

  lemma AnswersKeepChain(site: Site, w: World, s: State, m: Message)
    requires Chain(site, s)
    ensures Chain(site, Answer(site, w, s, m).state)
  {
    ScreensKeepChain(site, w, s);
    ScreensKeepChain(site, w, START);
    HandlersKeepChain(site, w, s, Decode(m.action));
  }

  /**
   What a message may have done outside the conversation, and why: only a confirmation books, moves or cancels. It
   books the selected rows, all of one organization, or touches the customer's own booking, and a slot it takes is free
   at that moment for those rows in the second the message names.
   */
  ghost predicate Justified(site: Site, w: World, s: State, m: Message, effect: Effect) {
    var command := Decode(m.action);
    match effect
    case NoEffect => true
    case Booked(o, l, v, p, start) =>
      && command.Some? && command.value.ConfirmBooking?
      && s.organization == Some(o) && s.location == Some(l) && s.service == Some(v) && s.provider == Some(p)
      && site.ofLocation(l) == o && site.ofService(v) == o && site.ofProvider(p) == o
      && FreeSlot(w, p, v, l, start, command.value.timestamp)
    case Rescheduled(id, start) =>
      && command.Some? && command.value.ConfirmReschedule? && command.value.id == id
      && id in w.bookings && (s.organization.Some? ==> w.bookings[id].organization == s.organization.value)
      && w.bookings[id].service.Some?
      && var b := w.bookings[id];
         FreeSlot(w, b.provider, b.service.value, b.location, start, command.value.timestamp)
    case Cancelled(id) =>
      && command.Some? && command.value.ConfirmCancel? && command.value.id == id
      && id in w.bookings && (s.organization.Some? ==> w.bookings[id].organization == s.organization.value)
  }

  lemma BookedJustified(site: Site, w: World, s: State, timestamp: int)
    requires Chain(site, s) && BookingConfirmed(site, w, s, timestamp).effect.Booked?
    ensures var b := BookingConfirmed(site, w, s, timestamp).effect;
            && s.organization == Some(b.organization) && s.location == Some(b.location)
            && s.service == Some(b.service) && s.provider == Some(b.provider)
            && FreeSlot(w, b.provider, b.service, b.location, b.start, timestamp)
  {
    ResolvedIsFree(w, s.context.date, s.provider.value, s.service.value, s.location.value, timestamp);
  }

  lemma RescheduledJustified(site: Site, w: World, s: State, id: int, timestamp: int)
    requires RescheduleConfirmed(site, w, s, id, timestamp).effect.Rescheduled?
    ensures Manageable(w, s, id) && w.bookings[id].service.Some?
    ensures var r, b := RescheduleConfirmed(site, w, s, id, timestamp).effect, w.bookings[id];
            r.appointment == id && FreeSlot(w, b.provider, b.service.value, b.location, r.start, timestamp)
  {
    var b := w.bookings[id];
    ResolvedIsFree(w, s.context.date, b.provider, b.service.value, b.location, timestamp);
  }

  lemma EffectsJustified(site: Site, w: World, s: State, m: Message)
    requires Chain(site, s)
    ensures Justified(site, w, s, m, Answer(site, w, s, m).effect)
  {
    var command, effect := Decode(m.action), Answer(site, w, s, m).effect;
    match effect
    case NoEffect =>
    case Booked(o, l, v, p, start) => BookedJustified(site, w, s, command.value.timestamp);
    case Rescheduled(id, start) => RescheduledJustified(site, w, s, command.value.id, command.value.timestamp);
    case Cancelled(id) =>
  }

  // ----- The row that holds the state -----------------------------------------------------------------

  class Chat {
    const site: Site
    var step: Step
    var organization: Option<int>
    var location: Option<int>
    var service: Option<int>
    var provider: Option<int>
    var slot: Option<int>
    var context: Context

    function View(): State
      reads this
    {
      State(step, organization, location, service, provider, slot, context)
    }

    /** The selections form a chain of rows of one organization. */
    predicate Valid()
      reads this
    {
      Chain(site, View())
    }

    constructor (site: Site)
      ensures this.site == site && View() == START && Valid()
    {
      this.site := site;
      step, context := AtOrganizations, EMPTY;
      organization, location, service, provider, slot := None, None, None, None, None;
    }

    method Clear(next: Step, keptOrganization: Option<int>)
      modifies this
      ensures View() == State(next, keptOrganization, None, None, None, None, EMPTY)
    {
      step, context, organization := next, EMPTY, keptOrganization;
      location, service, provider, slot := None, None, None, None;
    }

    method RenderOrganizationSelection(w: World)
      requires Valid()
      modifies this
      ensures Valid()
      ensures View() == Organizations(site, w, old(View()))
    {
      if SomeOrganization(site, w) {
        Clear(AtOrganizations, None);
      }
    }

    method RenderMenuOrOrganizations(w: World)
      requires Valid()
      modifies this
      ensures Valid()
      ensures View() == MenuOrOrganizations(site, w, old(View()))
    {
      if organization.Some? && organization.value in w.organizations {
        step, context := AtMenu, EMPTY;
      } else {
        RenderOrganizationSelection(w);
      }
    }

    method RenderServiceSelection(w: World, l: int)
      requires Valid()
      requires organization == Some(site.ofLocation(l))
      modifies this
      ensures Valid()
      ensures View() == Services(site, w, old(View()), l)
    {
      if VisibleLocation(site, w, l) && SomeService(site, w, l) {
        step, context := AtServices, EMPTY;
        location, service, provider, slot := Some(l), None, None, None;
      } else {
        RenderMenuOrOrganizations(w);
      }
    }

    method BeginBookingFlow(w: World)
      requires Valid()
      modifies this
      ensures Valid()
      ensures View() == BookingBegun(site, w, old(View()))
    {
      if organization.None? || organization.value !in w.organizations {
        RenderOrganizationSelection(w);
        return;
      }
      var locations := LocationsOf(site, w.locations, organization.value);
      if locations == [] {
        step, context := AtMenu, EMPTY;
      } else if |locations| == 1 {
        RenderServiceSelection(w, locations[0]);
      } else {
        Clear(AtLocations, organization);
      }
    }

    method HandleLocationSelection(w: World, l: int)
      requires Valid()
      modifies this
      ensures Valid()
      ensures View() == LocationChosen(site, w, old(View()), l)
    {
      if organization.None? || organization.value !in w.organizations {
        RenderOrganizationSelection(w);
      } else if !VisibleLocation(site, w, l) || site.ofLocation(l) != organization.value {
        RenderMenuOrOrganizations(w);
      } else {
        RenderServiceSelection(w, l);
      }
    }

    method HandleServiceSelection(w: World, v: int)
      requires Valid()
      modifies this
      ensures Valid()
      ensures View() == ServiceChosen(site, w, old(View()), v)
    {
      if location.None? {
        BeginBookingFlow(w);
      } else if !EligibleService(site, w, location.value, v) {
        RenderMenuOrOrganizations(w);
      } else if SomeProvider(site, w, location.value, v) {
        step, context := AtProviders, EMPTY;
        service, provider, slot := Some(v), None, None;
      }
    }

    method RenderBookingDates(w: World)
      requires Valid()
      modifies this
      ensures Valid()
      ensures View() == Dates(site, w, old(View()))
    {
      if organization.None? || organization.value !in w.organizations {
        RenderOrganizationSelection(w);
      } else {
        step, slot, context := AtDates, None, EMPTY;
      }
    }

    method HandleProviderSelection(w: World, p: int)
      requires Valid()
      modifies this
      ensures Valid()
      ensures View() == ProviderChosen(site, w, old(View()), p)
    {
      if location.None? || service.None? {
        BeginBookingFlow(w);
      } else if !OffersProvider(site, w, location.value, service.value, p) {
        RenderMenuOrOrganizations(w);
      } else {
        step, provider, slot, context := AtDates, Some(p), None, EMPTY;
        RenderBookingDates(w);
      }
    }

    method HandleDateSelection(w: World, date: Date)
      requires Valid()
      modifies this
      ensures Valid()
      ensures View() == DateChosen(site, w, old(View()), date)
    {
      if provider.None? || service.None? || location.None? {
        BeginBookingFlow(w);
        return;
      }
      var q := SlotQuery(provider.value, service.value, location.value, date);
      if w.slots(q).None? {
        RenderMenuOrOrganizations(w);
      } else if w.slots(q).value == [] {
        RenderBookingDates(w);
      } else {
        step, slot, context := AtSlots, None, Context(Some(date), None);
      }
    }

    method HandleSlotSelection(w: World, timestamp: int)
      requires Valid()
      modifies this
      ensures Valid()
      ensures View() == SlotChosen(site, w, old(View()), timestamp)
    {
      var start := SlotFromState(w, View(), timestamp);
      if start.None? {
        RenderMenuOrOrganizations(w);
      } else {
        step, slot, context := AtConfirm, start, Context(Some(site.utcDate(start.value)), None);
      }
    }

    method ConfirmBooking(w: World, timestamp: int) returns (effect: Effect)
      requires Valid()
      modifies this
      ensures Valid()
      ensures Outcome(View(), effect) == BookingConfirmed(site, w, old(View()), timestamp)
    {
      effect := NoEffect;
      var start := SlotFromState(w, View(), timestamp);
      if start.None? {
        RenderMenuOrOrganizations(w);
      } else if organization.None? {
        BeginBookingFlow(w);
      } else if w.verdict != Accepted {
        RenderMenuOrOrganizations(w);
      } else {
        effect := Booked(organization.value, location.value, service.value, provider.value, start.value);
        Clear(AtMenu, organization);
      }
    }

    method ShowUpcomingBookings(w: World)
      requires Valid()
      modifies this
      ensures Valid()
      ensures View() == Upcoming(site, w, old(View()))
    {
      if organization.None? || organization.value !in w.organizations {
        RenderOrganizationSelection(w);
      } else if exists id :: id in w.bookings && w.bookings[id].organization == organization.value {
        step, context := AtBookings, EMPTY;
      } else {
        step, context := AtMenu, EMPTY;
      }
    }

    /** The two screens that only remember a booking: its actions and the cancel question. */
    method RenderBooking(w: World, id: int, next: Step)
      requires Valid()
      modifies this
      ensures Valid()
      ensures View() == if Manageable(w, old(View()), id)
                        then old(View()).(step := next, context := Context(None, Some(id)))
                        else MenuOrOrganizations(site, w, old(View()))
    {
      if Manageable(w, View(), id) {
        step, context := next, Context(None, Some(id));
      } else {
        RenderMenuOrOrganizations(w);
      }
    }

    method ConfirmCancel(w: World, id: int) returns (effect: Effect)
      requires Valid()
      modifies this
      ensures Valid()
      ensures Outcome(View(), effect) == CancelConfirmed(site, w, old(View()), id)
    {
      effect := NoEffect;
      if !Manageable(w, View(), id) || w.verdict == Missing {
        RenderMenuOrOrganizations(w);
      } else if w.verdict == Accepted {
        effect := Cancelled(id);
        step, context := AtMenu, EMPTY;
      }
    }

    method RenderRescheduleDates(w: World, id: int)
      requires Valid()
      modifies this
      ensures Valid()
      ensures View() == RescheduleDates(site, w, old(View()), id)
    {
      if !Manageable(w, View(), id) {
        RenderMenuOrOrganizations(w);
      } else if w.bookings[id].service.Some? {
        step, context := AtRescheduleDates, Context(None, Some(id));
      }
    }

    method HandleRescheduleDate(w: World, id: int, date: Date)
      requires Valid()
      modifies this
      ensures Valid()
      ensures View() == RescheduleDateChosen(site, w, old(View()), id, date)
    {
      if !Manageable(w, View(), id) || w.bookings[id].service.None? {
        RenderMenuOrOrganizations(w);
        return;
      }
      var q := SlotQuery(w.bookings[id].provider, w.bookings[id].service.value, w.bookings[id].location, date);
      if w.slots(q).None? {
        RenderMenuOrOrganizations(w);
      } else if w.slots(q).value == [] {
        RenderRescheduleDates(w, id);
      } else {
        step, context := AtRescheduleSlots, Context(Some(date), Some(id));
      }
    }

    method HandleRescheduleSlot(w: World, id: int, timestamp: int)
      requires Valid()
      modifies this
      ensures Valid()
      ensures View() == RescheduleSlotChosen(site, w, old(View()), id, timestamp)
    {
      var start := RescheduleSlot(w, View(), id, timestamp);
      if start.None? {
        RenderMenuOrOrganizations(w);
      } else {
        step, slot, context := AtConfirmReschedule, start, Context(Some(site.utcDate(start.value)), Some(id));
      }
    }

    method ConfirmReschedule(w: World, id: int, timestamp: int) returns (effect: Effect)
      requires Valid()
      modifies this
      ensures Valid()
      ensures Outcome(View(), effect) == RescheduleConfirmed(site, w, old(View()), id, timestamp)
    {
      effect := NoEffect;
      var start := RescheduleSlot(w, View(), id, timestamp);
      if start.None? || w.verdict == Missing {
        RenderMenuOrOrganizations(w);
      } else if w.verdict == Accepted {
        effect := Rescheduled(id, start.value);
        step, slot, context := AtMenu, None, EMPTY;
      }
    }

    method HandleOrganizationSelection(w: World, id: int)
      requires Valid()
      modifies this
      ensures Valid()
      ensures View() == OrganizationChosen(site, w, old(View()), id)
    {
      if id in w.organizations {
        Clear(AtMenu, Some(id));
      } else {
        RenderMenuOrOrganizations(w);
      }
    }

    /** The dispatcher's booking branches. */
    method HandleBookingCommand(w: World, command: Command) returns (effect: Effect)
      requires IsBookingCommand(command)
      requires Valid()
      modifies this
      ensures Valid()
      ensures Outcome(View(), effect) == Handle(site, w, old(View()), Some(command))
    {
      effect := NoEffect;
      match command {
        case SelectOrganization(id) => HandleOrganizationSelection(w, id);
        case RenderOrganizations => RenderOrganizationSelection(w);
        case BeginBooking => BeginBookingFlow(w);
        case SelectLocation(l) => HandleLocationSelection(w, l);
        case SelectService(v) => HandleServiceSelection(w, v);
        case SelectProvider(p) => HandleProviderSelection(w, p);
        case SelectDate(date) => HandleDateSelection(w, date);
        case SelectSlot(t) => HandleSlotSelection(w, t);
        case ConfirmBooking(t) => effect := ConfirmBooking(w, t);
        case RenderBookingDates => RenderBookingDates(w);
      }
    }

    /** Its branches on bookings already made. */
    method HandleManageCommand(w: World, command: Command) returns (effect: Effect)
      requires !IsBookingCommand(command)
      requires Valid()
      modifies this
      ensures Valid()
      ensures Outcome(View(), effect) == Handle(site, w, old(View()), Some(command))
    {
      effect := NoEffect;
      match command {
        case ShowUpcoming => ShowUpcomingBookings(w);
        case ShowBookingActions(id) => RenderBooking(w, id, AtBookingActions);
        case PromptCancel(id) => RenderBooking(w, id, AtConfirmCancel);
        case ConfirmCancel(id) => effect := ConfirmCancel(w, id);
        case RenderRescheduleDates(id) => RenderRescheduleDates(w, id);
        case SelectRescheduleDate(id, date) => HandleRescheduleDate(w, id, date);
        case SelectRescheduleSlot(id, t) => HandleRescheduleSlot(w, id, t);
        case ConfirmReschedule(id, t) => effect := ConfirmReschedule(w, id, t);
      }
    }

    method HandleAction(w: World, command: Option<Command>) returns (effect: Effect)
      requires Valid()
      modifies this
      ensures Valid()
      ensures Outcome(View(), effect) == Handle(site, w, old(View()), command)
    {
      effect := NoEffect;
      if command.None? {
        RenderMenuOrOrganizations(w);
      } else if IsBookingCommand(command.value) {
        effect := HandleBookingCommand(w, command.value);
      } else {
        effect := HandleManageCommand(w, command.value);
      }
    }

    method RouteMessage(w: World, m: Message) returns (effect: Effect)
      requires Valid()
      modifies this
      ensures Valid()
      ensures Outcome(View(), effect) == Answer(site, w, old(View()), m)
      ensures Justified(site, w, old(View()), m, effect)
    {
      EffectsJustified(site, w, View(), m);
      effect := NoEffect;
      if m.word == StartWord {
        Clear(AtOrganizations, None);
        RenderOrganizationSelection(w);
      } else if m.word == MenuWord || m.action == "" {
        RenderMenuOrOrganizations(w);
      } else {
        effect := HandleAction(w, Decode(m.action));
      }
    }
  }
}
