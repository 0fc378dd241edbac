/**
 What one message may change in the conversation's state: where each selection comes from, what a change above drops
 below, and what is left after a booking, a reschedule or a cancellation.
 */
module Selections {
  import opened Options
  import opened Texts
  import opened ActionIds
  import opened Conversation

  // ----- What is offered, on the rows -------------------------------------------------------------------

  /** An active location of an active organization. */
  predicate Listed(site: Site, w: World, l: int) {
    l in w.locations && site.ofLocation(l) in w.organizations
  }

  /** An active provider of the location's organization that does the service and works at the location. */
  predicate Works(site: Site, w: World, l: int, v: int, p: int) {
    && p in w.providers && site.ofProvider(p) == site.ofLocation(l)
    && (p, v) in w.providerServes && (p, l) in w.providerAt
  }

  /** An active service of the location's organization at that location, free of charge, and done by somebody there. */
  predicate Offers(site: Site, w: World, l: int, v: int) {
    && Listed(site, w, l) && v in w.services && v !in w.paidServices
    && site.ofService(v) == site.ofLocation(l) && (v, l) in w.serviceAt
    && exists p :: p in w.providers && Works(site, w, l, v, p)
  }

  /** A service that is offered at the selected location is taken, and so is a provider that works there. */
  lemma OfferedIsTaken(site: Site, w: World, s: State, l: int, v: int, p: int)
    requires s.location == Some(l) && s.organization == Some(site.ofLocation(l)) && Offers(site, w, l, v)
    ensures Handle(site, w, s, Some(SelectService(v))).state
            == State(AtProviders, s.organization, Some(l), Some(v), None, None, Context(None, None))
    ensures s.service == Some(v) && Works(site, w, l, v, p) ==>
              Handle(site, w, s, Some(SelectProvider(p))).state
              == State(AtDates, s.organization, Some(l), Some(v), Some(p), None, Context(None, None))
  {
    var q :| q in w.providers && Works(site, w, l, v, q);
    assert Staffs(site, w, l, v, q) && OffersProvider(site, w, l, v, q);
  }

  /** A location with something to book is taken; with nothing to book the menu comes back. */
  lemma LocationIsTaken(site: Site, w: World, s: State, l: int)
    requires s.organization == Some(site.ofLocation(l)) && Listed(site, w, l)
    ensures Handle(site, w, s, Some(SelectLocation(l))).state
            == if exists v :: v in w.services && Offers(site, w, l, v)
               then State(AtServices, s.organization, Some(l), None, None, None, Context(None, None))
               else s.(step := AtMenu, context := Context(None, None))
  {
    forall v ensures EligibleService(site, w, l, v) <==> Offers(site, w, l, v) {
      EligibleIsOffered(site, w, l, v);
    }
  }

  lemma EligibleIsOffered(site: Site, w: World, l: int, v: int)
    ensures EligibleService(site, w, l, v) <==> Offers(site, w, l, v)
  {
    if p :| p in w.providers && Works(site, w, l, v, p) {
      assert Staffs(site, w, l, v, p);
    }
    if p :| p in w.providers && Staffs(site, w, l, v, p) {
      assert Works(site, w, l, v, p);
    }
  }

  /** Any active organization can be chosen, and nothing of another one stays selected. */
  lemma OrganizationIsTaken(site: Site, w: World, s: State, o: int)
    requires o in w.organizations
    ensures Handle(site, w, s, Some(SelectOrganization(o))).state
            == State(AtMenu, Some(o), None, None, None, None, Context(None, None))
  {
  }

  // ----- Starting over ------------------------------------------------------------------------------------

  /**
   A stale button or free text: with an active organization selected the menu comes back and the selections stay;
   without one everything is cleared, if some location can be offered, and otherwise nothing changes.
   */
  lemma StaleAnswer(site: Site, w: World, s: State, m: Message)
    requires m.word != StartWord && (m.word == MenuWord || m.action == "" || Decode(m.action).None?)
    ensures Answer(site, w, s, m)
            == Outcome(if s.organization.Some? && s.organization.value in w.organizations
                       then s.(step := AtMenu, context := Context(None, None))
                       else if exists i :: 0 <= i < |w.locations| && Listed(site, w, w.locations[i]) then START
                       else s, NoEffect)
  {
    assert SomeOrganization(site, w) <==> exists i :: 0 <= i < |w.locations| && Listed(site, w, w.locations[i]) by {
      if SomeOrganization(site, w) {
        var i :| 0 <= i < |w.locations| && site.ofLocation(w.locations[i]) in w.organizations;
        assert Listed(site, w, w.locations[i]);
      }
    }
  }

  /** The start word clears everything. */
  lemma StartClears(site: Site, w: World, s: State, m: Message)
    requires m.word == StartWord
    ensures Answer(site, w, s, m).effect == NoEffect
    ensures Answer(site, w, s, m).state == State(AtOrganizations, None, None, None, None, None, Context(None, None))
  {
  }

  /** The indices of the organization's locations. */
  predicate IsOf(site: Site, w: World, o: int, i: int) {
    0 <= i < |w.locations| && site.ofLocation(w.locations[i]) == o
  }

  lemma {:induction false} CountLocations(site: Site, locations: seq<int>, o: int, i: int, j: int)
    requires 0 <= i < j < |locations| && site.ofLocation(locations[i]) == o && site.ofLocation(locations[j]) == o
    ensures |LocationsOf(site, locations, o)| >= 2
  {
    if i > 0 {
      CountLocations(site, locations[1..], o, i - 1, j - 1);
    } else {
      assert locations[1..][j - 1] == locations[j];
      assert locations[j] in LocationsOf(site, locations[1..], o);
    }
  }

  lemma {:induction false} NoLocation(site: Site, locations: seq<int>, o: int)
    requires forall j :: 0 <= j < |locations| ==> site.ofLocation(locations[j]) != o
    ensures LocationsOf(site, locations, o) == []
  {
    if locations != [] {
      NoLocation(site, locations[1..], o);
    }
  }

  lemma {:induction false} OnlyLocation(site: Site, locations: seq<int>, o: int, i: int)
    requires 0 <= i < |locations| && site.ofLocation(locations[i]) == o
    requires forall j :: 0 <= j < |locations| && j != i ==> site.ofLocation(locations[j]) != o
    ensures LocationsOf(site, locations, o) == [locations[i]]
  {
    if i > 0 {
      OnlyLocation(site, locations[1..], o, i - 1);
    } else {
      NoLocation(site, locations[1..], o);
    }
  }

  /** Beginning to book with several locations: the customer chooses. */
  lemma ManyToChooseFrom(site: Site, w: World, s: State, i: int, j: int)
    requires s.organization.Some? && s.organization.value in w.organizations
    requires IsOf(site, w, s.organization.value, i) && IsOf(site, w, s.organization.value, j) && i < j
    ensures Handle(site, w, s, Some(BeginBooking)).state
            == State(AtLocations, s.organization, None, None, None, None, Context(None, None))
  {
    CountLocations(site, w.locations, s.organization.value, i, j);
  }

  /** With one location it is chosen for them. */
  lemma OneIsChosen(site: Site, w: World, s: State, i: int)
    requires s.organization.Some? && s.organization.value in w.organizations
    requires IsOf(site, w, s.organization.value, i)
    requires forall k :: 0 <= k < |w.locations| && k != i ==> site.ofLocation(w.locations[k]) != s.organization.value
    ensures Handle(site, w, s, Some(BeginBooking)) == Handle(site, w, s, Some(SelectLocation(w.locations[i])))
  {
    OnlyLocation(site, w.locations, s.organization.value, i);
  }

  /** Without one the menu comes back. */
  lemma NoneToChooseFrom(site: Site, w: World, s: State)
    requires s.organization.Some? && s.organization.value in w.organizations
    requires forall k :: 0 <= k < |w.locations| ==> site.ofLocation(w.locations[k]) != s.organization.value
    ensures Handle(site, w, s, Some(BeginBooking)).state == s.(step := AtMenu, context := Context(None, None))
  {
    NoLocation(site, w.locations, s.organization.value);
  }

  // ----- Bookings already made ------------------------------------------------------------------------------

  /** The customer's own upcoming booking, of the selected organization if one is selected. */
  predicate Own(w: World, s: State, id: int) {
    id in w.bookings && (s.organization.Some? ==> w.bookings[id].organization == s.organization.value)
  }

  /** The list of bookings appears when the selected organization is active and has one of the customer's. */
  lemma UpcomingShown(site: Site, w: World, s: State)
    requires s.organization.Some? && s.organization.value in w.organizations
    ensures Handle(site, w, s, Some(ShowUpcoming)).state
            == s.(step := if exists id :: id in w.bookings && w.bookings[id].organization == s.organization.value
                          then AtBookings else AtMenu,
                  context := Context(None, None))
  {
  }

  /** The buttons of a booking open its screens for the customer's own booking, and are stale for any other. */
  lemma BookingScreens(site: Site, w: World, s: State, id: int)
    ensures var stale := Handle(site, w, s, None).state;
            var open := Context(None, Some(id));
            && Handle(site, w, s, Some(ShowBookingActions(id))).state
               == (if Own(w, s, id) then s.(step := AtBookingActions, context := open) else stale)
            && Handle(site, w, s, Some(PromptCancel(id))).state
               == (if Own(w, s, id) then s.(step := AtConfirmCancel, context := open) else stale)
            && (Own(w, s, id) && w.bookings[id].service.Some? ==>
                  Handle(site, w, s, Some(RenderRescheduleDates(id))).state
                  == s.(step := AtRescheduleDates, context := open))
            && (!Own(w, s, id) ==> Handle(site, w, s, Some(RenderRescheduleDates(id))).state == stale
                                   && Handle(site, w, s, Some(ConfirmCancel(id))) == Outcome(stale, NoEffect))
            && (Own(w, s, id) && w.verdict == Accepted ==>
                  Handle(site, w, s, Some(ConfirmCancel(id))).effect == Cancelled(id))
  {
  }

  /** A date with free slots for the selected rows is remembered; one without leads back to the dates. */
  lemma DateShown(site: Site, w: World, s: State, date: Date)
    requires s.organization.Some? && s.organization.value in w.organizations
    requires s.location.Some? && s.service.Some? && s.provider.Some?
    ensures var slots := w.slots(SlotQuery(s.provider.value, s.service.value, s.location.value, date));
            Handle(site, w, s, Some(SelectDate(date))).state
            == if slots.None? then s.(step := AtMenu, context := Context(None, None))
               else if slots.value == [] then s.(step := AtDates, slot := None, context := Context(None, None))
               else s.(step := AtSlots, slot := None, context := Context(Some(date), None))
  {
  }

  /** The same for a new date of a booking. */
  lemma RescheduleDateShown(site: Site, w: World, s: State, id: int, date: Date)
    requires s.organization.Some? && s.organization.value in w.organizations
    requires Own(w, s, id) && w.bookings[id].service.Some?
    ensures var b := w.bookings[id];
            var slots := w.slots(SlotQuery(b.provider, b.service.value, b.location, date));
            Handle(site, w, s, Some(SelectRescheduleDate(id, date))).state
            == if slots.None? then s.(step := AtMenu, context := Context(None, None))
               else if slots.value == [] then s.(step := AtRescheduleDates, context := Context(None, Some(id)))
               else s.(step := AtRescheduleSlots, context := Context(Some(date), Some(id)))
  {
  }

  // ----- Where selections come from -----------------------------------------------------------------------

  /** A change of one selection leaves none below it. */
  predicate DropsBelow(s: State, t: State) {
    && (t.organization != s.organization ==> t.location == None)
    && (t.organization != s.organization || t.location != s.location ==> t.service == None)
    && (t.organization != s.organization || t.location != s.location || t.service != s.service ==> t.provider == None)
    && (t.slot == None || (t.organization == s.organization && t.location == s.location && t.service == s.service
                           && t.provider == s.provider))
  }

  /** A new organization was chosen by its own button, and is active. */
  predicate OrganizationFrom(w: World, command: Option<Command>, s: State, t: State) {
    t.organization.Some? && t.organization != s.organization ==>
      command == Some(SelectOrganization(t.organization.value)) && t.organization.value in w.organizations
  }

  /** A new location is a visible one of the selected organization, and has a service to book. */
  predicate LocationFrom(site: Site, w: World, s: State, t: State) {
    t.location.Some? && t.location != s.location ==>
      && Listed(site, w, t.location.value) && t.organization == Some(site.ofLocation(t.location.value))
      && t.organization == s.organization && exists v :: v in w.services && Offers(site, w, t.location.value, v)
  }

  /** A new service or provider was chosen by its own button while it was offered for the selections above it. */
  predicate ChosenFrom(site: Site, w: World, command: Option<Command>, s: State, t: State) {
    && (t.service.Some? && t.service != s.service ==>
          && command == Some(SelectService(t.service.value)) && t.location == s.location && s.location.Some?
          && Offers(site, w, s.location.value, t.service.value))
    && (t.provider.Some? && t.provider != s.provider ==>
          && command == Some(SelectProvider(t.provider.value)) && t.location == s.location && s.location.Some?
          && t.service == s.service && s.service.Some?
          && Listed(site, w, s.location.value) && s.service.value in w.services
          && site.ofService(s.service.value) == site.ofLocation(s.location.value)
          && (s.service.value, s.location.value) in w.serviceAt
          && Works(site, w, s.location.value, s.service.value, t.provider.value))
  }

  /** A new slot starts in the second its button names, and the date beside it is its UTC date. */
  predicate SlotFrom(site: Site, command: Option<Command>, s: State, t: State) {
    t.slot.Some? && t.slot != s.slot ==>
      && command.Some? && t.context.date == Some(site.utcDate(t.slot.value))
      && match command.value
         case SelectSlot(timestamp) => Seconds(t.slot.value) == timestamp && t.context.appointment == None
         case SelectRescheduleSlot(id, timestamp) =>
           Seconds(t.slot.value) == timestamp && t.context.appointment == Some(id)
         case _ => false
  }

  /** A new date was chosen by its own button. */
  predicate DateFrom(command: Option<Command>, s: State, t: State) {
    t.context.date.Some? && t.context.date != s.context.date && (t.slot == None || t.slot == s.slot) ==>
      && command.Some?
      && match command.value
         case SelectDate(date) => date == t.context.date.value
         case SelectRescheduleDate(id, date) => date == t.context.date.value
         case SelectSlot(timestamp) => t.slot.Some?
         case SelectRescheduleSlot(id, timestamp) => t.slot.Some?
         case _ => false
  }

  /** A remembered booking is the customer's own, of the selected organization if there is one, named by the button. */
  predicate BookingFrom(w: World, command: Option<Command>, s: State, t: State) {
    t.context.appointment.Some? && t.context.appointment != s.context.appointment ==>
      && t.context.appointment.value in w.bookings
      && (s.organization.Some? ==> w.bookings[t.context.appointment.value].organization == s.organization.value)
      && command.Some? && Names(command.value, t.context.appointment.value)
  }

  predicate Names(command: Command, id: int) {
    match command
    case ShowBookingActions(x) => x == id
    case PromptCancel(x) => x == id
    case RenderRescheduleDates(x) => x == id
    case SelectRescheduleDate(x, date) => x == id
    case SelectRescheduleSlot(x, timestamp) => x == id
    case _ => false
  }

  ghost predicate ChangesRight(site: Site, w: World, command: Option<Command>, s: State, t: State) {
    && DropsBelow(s, t) && OrganizationFrom(w, command, s, t) && LocationFrom(site, w, s, t)
    && ChosenFrom(site, w, command, s, t) && SlotFrom(site, command, s, t) && DateFrom(command, s, t)
    && BookingFrom(w, command, s, t)
  }

  lemma ClearingIsRight(site: Site, w: World, command: Option<Command>, s: State, step: Step, slot: Option<int>)
    requires slot == None || slot == s.slot
    ensures ChangesRight(site, w, command, s, START) && ChangesRight(site, w, command, s, s)
    ensures ChangesRight(site, w, command, s, s.(step := step, slot := slot, context := EMPTY))
  {
  }

  lemma ScreensChangeRight(site: Site, w: World, command: Option<Command>, s: State)
    ensures ChangesRight(site, w, command, s, Organizations(site, w, s))
    ensures ChangesRight(site, w, command, s, MenuOrOrganizations(site, w, s))
    ensures ChangesRight(site, w, command, s, Dates(site, w, s))
    ensures ChangesRight(site, w, command, s, Upcoming(site, w, s))
  {
    ClearingIsRight(site, w, command, s, AtMenu, s.slot);
    ClearingIsRight(site, w, command, s, AtDates, None);
    ClearingIsRight(site, w, command, s, AtBookings, s.slot);
  }

  lemma ServicesChangeRight(site: Site, w: World, command: Option<Command>, s: State, l: int)
    requires s.organization == Some(site.ofLocation(l)) && site.ofLocation(l) in w.organizations
    ensures ChangesRight(site, w, command, s, Services(site, w, s, l))
  {
    ScreensChangeRight(site, w, command, s);
    forall v ensures EligibleService(site, w, l, v) <==> Offers(site, w, l, v) {
      EligibleIsOffered(site, w, l, v);
    }
  }

  lemma BegunChangesRight(site: Site, w: World, command: Option<Command>, s: State)
    ensures ChangesRight(site, w, command, s, BookingBegun(site, w, s))
  {
    ScreensChangeRight(site, w, command, s);
    var o := SelectedVisible(w, s);
    if o.Some? {
      var ls := LocationsOf(site, w.locations, o.value);
      if |ls| == 1 {
        assert ls[0] in ls;
        ServicesChangeRight(site, w, command, s, ls[0]);
      }
    }
  }

  lemma ChoicesChangeRight(site: Site, w: World, s: State, x: int)
    ensures ChangesRight(site, w, Some(SelectOrganization(x)), s, OrganizationChosen(site, w, s, x))
    ensures ChangesRight(site, w, Some(SelectLocation(x)), s, LocationChosen(site, w, s, x))
    ensures ChangesRight(site, w, Some(SelectService(x)), s, ServiceChosen(site, w, s, x))
  {
    ScreensChangeRight(site, w, Some(SelectOrganization(x)), s);
    ScreensChangeRight(site, w, Some(SelectLocation(x)), s);
    ScreensChangeRight(site, w, Some(SelectService(x)), s);
    BegunChangesRight(site, w, Some(SelectService(x)), s);
    if s.location.Some? {
      EligibleIsOffered(site, w, s.location.value, x);
    }
    if s.organization == Some(site.ofLocation(x)) && site.ofLocation(x) in w.organizations {
      ServicesChangeRight(site, w, Some(SelectLocation(x)), s, x);
    }
  }

  lemma ProviderChangesRight(site: Site, w: World, s: State, p: int)
    ensures ChangesRight(site, w, Some(SelectProvider(p)), s, ProviderChosen(site, w, s, p))
  {
    ScreensChangeRight(site, w, Some(SelectProvider(p)), s);
    BegunChangesRight(site, w, Some(SelectProvider(p)), s);
  }

  lemma FoundInSecond(w: World, date: Option<Date>, p: int, v: int, l: int, timestamp: int)
    ensures var start := ResolveSlot(w, date, p, v, l, timestamp); start.Some? ==> Seconds(start.value) == timestamp
  {
  }

  lemma DatesChangeRight(site: Site, w: World, s: State, date: Date, timestamp: int)
    ensures ChangesRight(site, w, Some(SelectDate(date)), s, DateChosen(site, w, s, date))
    ensures ChangesRight(site, w, Some(SelectSlot(timestamp)), s, SlotChosen(site, w, s, timestamp))
    ensures ChangesRight(site, w, Some(ConfirmBooking(timestamp)), s, BookingConfirmed(site, w, s, timestamp).state)
  {
    ScreensChangeRight(site, w, Some(SelectDate(date)), s);
    ScreensChangeRight(site, w, Some(SelectSlot(timestamp)), s);
    ScreensChangeRight(site, w, Some(ConfirmBooking(timestamp)), s);
    BegunChangesRight(site, w, Some(SelectDate(date)), s);
    BegunChangesRight(site, w, Some(ConfirmBooking(timestamp)), s);
    if s.provider.Some? && s.service.Some? && s.location.Some? {
      FoundInSecond(w, s.context.date, s.provider.value, s.service.value, s.location.value, timestamp);
    }
  }

  lemma ManagingChangesRight(site: Site, w: World, s: State, command: Command)
    requires !IsBookingCommand(command)
    ensures ChangesRight(site, w, Some(command), s, Handle(site, w, s, Some(command)).state)
  {
    ScreensChangeRight(site, w, Some(command), s);
    if command.SelectRescheduleSlot? && Manageable(w, s, command.id) && w.bookings[command.id].service.Some? {
      var b := w.bookings[command.id];
      FoundInSecond(w, s.context.date, b.provider, b.service.value, b.location, command.timestamp);
    }
  }

  lemma HandlersChangeRight(site: Site, w: World, s: State, command: Option<Command>)
    ensures ChangesRight(site, w, command, s, Handle(site, w, s, command).state)
  {
    ScreensChangeRight(site, w, command, s);
    BegunChangesRight(site, w, command, s);
    if command.Some? && !IsBookingCommand(command.value) {
      ManagingChangesRight(site, w, s, command.value);
    }
    match command
    case Some(SelectOrganization(x)) => ChoicesChangeRight(site, w, s, x);
    case Some(SelectLocation(x)) => ChoicesChangeRight(site, w, s, x);
    case Some(SelectService(x)) => ChoicesChangeRight(site, w, s, x);
    case Some(SelectProvider(p)) => ProviderChangesRight(site, w, s, p);
    case Some(SelectDate(date)) => DatesChangeRight(site, w, s, date, 0);
    case Some(SelectSlot(timestamp)) => DatesChangeRight(site, w, s, Date(1, 1, 1), timestamp);
    case Some(ConfirmBooking(timestamp)) => DatesChangeRight(site, w, s, Date(1, 1, 1), timestamp);
    case _ =>
  }

  /**
   Whatever a message changes among the selections comes from its own button while it was offered, and leaves nothing
   selected below it; the start word alone may also begin anew.
   */
  lemma AnswersChangeRight(site: Site, w: World, s: State, m: Message)
    ensures var t := Answer(site, w, s, m).state;
            t == START || ChangesRight(site, w, Decode(m.action), s, t)
  {
    ScreensChangeRight(site, w, Decode(m.action), s);
    HandlersChangeRight(site, w, s, Decode(m.action));
  }

  /** What is left after each call that was made: a booking clears what was selected for it, the others nothing. */
  predicate LeftAfter(s: State, t: State, effect: Effect) {
    match effect
    case NoEffect => true
    case Booked(o, l, v, p, start) => t == State(AtMenu, Some(o), None, None, None, None, Context(None, None))
    case Rescheduled(id, start) =>
      t == State(AtMenu, s.organization, s.location, s.service, s.provider, None, Context(None, None))
    case Cancelled(id) =>
      t == State(AtMenu, s.organization, s.location, s.service, s.provider, s.slot, Context(None, None))
  }

  lemma LeftAfterHandling(site: Site, w: World, s: State, command: Option<Command>)
    ensures LeftAfter(s, Handle(site, w, s, command).state, Handle(site, w, s, command).effect)
  {
  }

  lemma StateAfterEffect(site: Site, w: World, s: State, m: Message)
    ensures LeftAfter(s, Answer(site, w, s, m).state, Answer(site, w, s, m).effect)
  {
    LeftAfterHandling(site, w, s, Decode(m.action));
  }

  /** A call that fails has no effect, and a refused cancellation or reschedule leaves the conversation where it was. */
  lemma RefusedChangesNothing(site: Site, w: World, s: State, command: Command)
    requires w.verdict != Accepted
    ensures Handle(site, w, s, Some(command)).effect == NoEffect
    ensures w.verdict == Refused && command.ConfirmCancel? && Manageable(w, s, command.id) ==>
              Handle(site, w, s, Some(command)).state == s
    ensures w.verdict == Refused && command.ConfirmReschedule?
            && RescheduleSlot(w, s, command.id, command.timestamp).Some? ==>
              Handle(site, w, s, Some(command)).state == s
    ensures w.verdict == Missing && (command.ConfirmCancel? || command.ConfirmReschedule?) ==>
              Handle(site, w, s, Some(command)) == Handle(site, w, s, None)
  {
  }
}
