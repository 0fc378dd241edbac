/**
 Pressing the buttons. Each press is a message carrying the button's id; against tables that do not change, the presses
 offered one after the other select the rows pressed, and end in the booking, the reschedule or the cancellation.
 */
module ButtonRuns {
  import opened Options
  import opened Texts
  import opened ActionIds
  import opened Conversation

  predicate AllProper(buttons: seq<Button>) {
    forall i :: 0 <= i < |buttons| ==> ProperButton(buttons[i])
  }

  /** Messages carrying these buttons' ids, one after the other: the last outcome. */
  function Presses(site: Site, w: World, s: State, buttons: seq<Button>): Outcome
    requires AllProper(buttons)
  {
    if buttons == [] then Outcome(s, NoEffect)
    else
      var front, b := buttons[..|buttons| - 1], buttons[|buttons| - 1];
      Answer(site, w, Presses(site, w, s, front).state, Message(OtherWord, Encode(b)))
  }

  lemma EncodeNotEmpty(b: Button)
    requires ProperButton(b)
    ensures Encode(b) != ""
  {
    assert Head(IdOf(b).branch) != "";
  }

  lemma AnswerToButton(site: Site, w: World, s: State, b: Button)
    requires ProperButton(b)
    ensures Answer(site, w, s, Message(OtherWord, Encode(b))) == Handle(site, w, s, Some(Intended(b)))
  {
    EmittedIdsDecode(b);
    EncodeNotEmpty(b);
  }

  /** The handlers the buttons are made for, called one after the other: the last outcome. */
  function Handled(site: Site, w: World, s: State, buttons: seq<Button>): Outcome {
    if buttons == [] then Outcome(s, NoEffect)
    else
      var front, b := buttons[..|buttons| - 1], buttons[|buttons| - 1];
      Handle(site, w, Handled(site, w, s, front).state, Some(Intended(b)))
  }

  /** Pressing buttons calls their handlers. */
  lemma {:induction false} PressesAreHandled(site: Site, w: World, s: State, buttons: seq<Button>)
    requires AllProper(buttons)
    ensures Presses(site, w, s, buttons) == Handled(site, w, s, buttons)
  {
    if buttons != [] {
      var front, b := buttons[..|buttons| - 1], buttons[|buttons| - 1];
      PressesAreHandled(site, w, s, front);
      AnswerToButton(site, w, Presses(site, w, s, front).state, b);
    }
  }

  /** One more button is one more call of its handler. */
  lemma OneMore(site: Site, w: World, s: State, buttons: seq<Button>, b: Button, t: State)
    requires Handled(site, w, s, buttons).state == t
    ensures Handled(site, w, s, buttons + [b]) == Handle(site, w, t, Some(Intended(b)))
  {
    assert (buttons + [b])[..|buttons|] == buttons;
  }

  // ----- The rows -------------------------------------------------------------------------------------

  /** A state with these rows selected and nothing else remembered. */
  function Selected(step: Step, o: int, l: Option<int>, v: Option<int>, p: Option<int>): State {
    State(step, Some(o), l, v, p, None, EMPTY)
  }

  lemma PressOrganization(site: Site, w: World, s: State, o: int)
    requires o in w.organizations
    ensures Handled(site, w, s, [] + [OrganizationRow(o)]).state == Selected(AtMenu, o, None, None, None)
  {
    var none: seq<Button> := [];
    OneMore(site, w, s, none, OrganizationRow(o), s);
  }

  lemma PressBook(site: Site, w: World, s: State, buttons: seq<Button>, t: State)
    requires Handled(site, w, s, buttons).state == t
    requires t.organization.Some? && t.organization.value in w.organizations
    ensures Handled(site, w, s, buttons + [BookButton]).state.organization == t.organization
  {
    OneMore(site, w, s, buttons, BookButton, t);
  }

  lemma PressLocation(site: Site, w: World, s: State, buttons: seq<Button>, t: State, l: int, v: int)
    requires Handled(site, w, s, buttons).state == t && t.organization == Some(site.ofLocation(l))
    requires EligibleService(site, w, l, v)
    ensures Handled(site, w, s, buttons + [LocationRow(l)]).state
         == Selected(AtServices, site.ofLocation(l), Some(l), None, None)
  {
    OneMore(site, w, s, buttons, LocationRow(l), t);
  }

  lemma PressService(site: Site, w: World, s: State, buttons: seq<Button>, o: int, l: int, v: int, p: int)
    requires Handled(site, w, s, buttons).state == Selected(AtServices, o, Some(l), None, None)
    requires EligibleService(site, w, l, v) && OffersProvider(site, w, l, v, p)
    ensures Handled(site, w, s, buttons + [ServiceRow(v)]).state == Selected(AtProviders, o, Some(l), Some(v), None)
  {
    OneMore(site, w, s, buttons, ServiceRow(v), Selected(AtServices, o, Some(l), None, None));
    assert SomeProvider(site, w, l, v);
  }

  lemma PressProvider(site: Site, w: World, s: State, buttons: seq<Button>, o: int, l: int, v: int, p: int)
    requires Handled(site, w, s, buttons).state == Selected(AtProviders, o, Some(l), Some(v), None)
    requires o in w.organizations && OffersProvider(site, w, l, v, p)
    ensures Handled(site, w, s, buttons + [ProviderRow(p)]).state == Selected(AtDates, o, Some(l), Some(v), Some(p))
  {
    OneMore(site, w, s, buttons, ProviderRow(p), Selected(AtProviders, o, Some(l), Some(v), None));
  }

  function FirstRows(site: Site, l: int): seq<Button> {
    [] + [OrganizationRow(site.ofLocation(l))] + [BookButton] + [LocationRow(l)]
  }

  function Rows(site: Site, l: int, v: int, p: int): seq<Button> {
    FirstRows(site, l) + [ServiceRow(v)] + [ProviderRow(p)]
  }

  lemma FirstRowsSelect(site: Site, w: World, s: State, l: int, v: int)
    requires EligibleService(site, w, l, v)
    ensures Handled(site, w, s, FirstRows(site, l)).state
            == Selected(AtServices, site.ofLocation(l), Some(l), None, None)
  {
    var o := site.ofLocation(l);
    var first: seq<Button> := [] + [OrganizationRow(o)];
    PressOrganization(site, w, s, o);
    PressBook(site, w, s, first, Selected(AtMenu, o, None, None, None));
    PressLocation(site, w, s, first + [BookButton], Handled(site, w, s, first + [BookButton]).state, l, v);
  }

  /** From any state, the rows' buttons in turn leave exactly those rows selected. */
  lemma RowsSelect(site: Site, w: World, s: State, l: int, v: int, p: int)
    requires EligibleService(site, w, l, v) && OffersProvider(site, w, l, v, p)
    ensures Handled(site, w, s, Rows(site, l, v, p)).state
         == Selected(AtDates, site.ofLocation(l), Some(l), Some(v), Some(p))
  {
    FirstRowsSelect(site, w, s, l, v);
    PressService(site, w, s, FirstRows(site, l), site.ofLocation(l), l, v, p);
    PressProvider(site, w, s, FirstRows(site, l) + [ServiceRow(v)], site.ofLocation(l), l, v, p);
  }

  // ----- Booking --------------------------------------------------------------------------------------

  /** The date's list is not empty, and the timestamp on the slot's row names the slot. */
  predicate Shown(w: World, p: int, v: int, l: int, date: Date, start: int) {
    && ValidDate(date) && w.slots(SlotQuery(p, v, l, date)).Some?
    && FindSlot(w.slots(SlotQuery(p, v, l, date)).value, Seconds(start)) == Some(start)
  }

  lemma ShownIsFree(w: World, p: int, v: int, l: int, date: Date, start: int)
    requires Shown(w, p, v, l, date, start)
    ensures FreeOn(w, p, v, l, date, start)
  {
  }

  /** The state after the slot's row: it remembers the slot's UTC date. */
  function SlotPicked(site: Site, o: int, l: int, v: int, p: int, start: int): State {
    State(AtConfirm, Some(o), Some(l), Some(v), Some(p), Some(start), Context(Some(site.utcDate(start)), None))
  }

  lemma PressDate(site: Site, w: World, s: State, buttons: seq<Button>, o: int, l: int, v: int, p: int, date: Date,
      start: int)
    requires Handled(site, w, s, buttons).state == Selected(AtDates, o, Some(l), Some(v), Some(p))
    requires Shown(w, p, v, l, date, start)
    ensures Handled(site, w, s, buttons + [DateRow(date)]).state
         == Selected(AtSlots, o, Some(l), Some(v), Some(p)).(context := Context(Some(date), None))
  {
    OneMore(site, w, s, buttons, DateRow(date), Selected(AtDates, o, Some(l), Some(v), Some(p)));
  }

  lemma PressSlot(site: Site, w: World, s: State, buttons: seq<Button>, o: int, l: int, v: int, p: int, date: Date,
      start: int)
    requires Handled(site, w, s, buttons).state
          == Selected(AtSlots, o, Some(l), Some(v), Some(p)).(context := Context(Some(date), None))
    requires Shown(w, p, v, l, date, start)
    ensures Handled(site, w, s, buttons + [SlotRow(Seconds(start))]).state == SlotPicked(site, o, l, v, p, start)
  {
    OneMore(site, w, s, buttons, SlotRow(Seconds(start)),
            Selected(AtSlots, o, Some(l), Some(v), Some(p)).(context := Context(Some(date), None)));
  }

  lemma PressConfirm(site: Site, w: World, s: State, buttons: seq<Button>, o: int, l: int, v: int, p: int, start: int)
    requires Handled(site, w, s, buttons).state == SlotPicked(site, o, l, v, p, start)
    ensures var found := ResolveSlot(w, Some(site.utcDate(start)), p, v, l, Seconds(start));
            Handled(site, w, s, buttons + [ConfirmBookingButton(Seconds(start))]).effect
            == if found.Some? && w.verdict == Accepted then Booked(o, l, v, p, found.value) else NoEffect
  {
    OneMore(site, w, s, buttons, ConfirmBookingButton(Seconds(start)), SlotPicked(site, o, l, v, p, start));
  }

  function SlotButtons(site: Site, l: int, v: int, p: int, date: Date, start: int): (buttons: seq<Button>)
    requires ValidDate(date)
    ensures AllProper(buttons)
  {
    Rows(site, l, v, p) + [DateRow(date)] + [SlotRow(Seconds(start))]
  }

  function BookingButtons(site: Site, l: int, v: int, p: int, date: Date, start: int): (buttons: seq<Button>)
    requires ValidDate(date)
    ensures AllProper(buttons)
  {
    SlotButtons(site, l, v, p, date, start) + [ConfirmBookingButton(Seconds(start))]
  }

  lemma SlotButtonsPick(site: Site, w: World, s: State, l: int, v: int, p: int, date: Date, start: int)
    requires ValidDate(date)
    requires EligibleService(site, w, l, v) && OffersProvider(site, w, l, v, p) && Shown(w, p, v, l, date, start)
    ensures Handled(site, w, s, SlotButtons(site, l, v, p, date, start)).state
         == SlotPicked(site, site.ofLocation(l), l, v, p, start)
  {
    var o := site.ofLocation(l);
    RowsSelect(site, w, s, l, v, p);
    PressDate(site, w, s, Rows(site, l, v, p), o, l, v, p, date, start);
    PressSlot(site, w, s, Rows(site, l, v, p) + [DateRow(date)], o, l, v, p, date, start);
  }

  lemma BookingHandled(site: Site, w: World, s: State, l: int, v: int, p: int, date: Date, start: int)
    requires ValidDate(date)
    requires EligibleService(site, w, l, v) && OffersProvider(site, w, l, v, p) && Shown(w, p, v, l, date, start)
    ensures var found := ResolveSlot(w, Some(site.utcDate(start)), p, v, l, Seconds(start));
            Handled(site, w, s, BookingButtons(site, l, v, p, date, start)).effect
            == if found.Some? && w.verdict == Accepted then Booked(site.ofLocation(l), l, v, p, found.value)
               else NoEffect
  {
    SlotButtonsPick(site, w, s, l, v, p, date, start);
    PressConfirm(site, w, s, SlotButtons(site, l, v, p, date, start), site.ofLocation(l), l, v, p, start);
  }

  /** The booking buttons end in a booking of what the timestamp names on the slot's UTC date, if the call succeeds. */
  lemma ButtonsBook(site: Site, w: World, s: State, l: int, v: int, p: int, date: Date, start: int)
    requires ValidDate(date)
    requires EligibleService(site, w, l, v) && OffersProvider(site, w, l, v, p) && Shown(w, p, v, l, date, start)
    ensures var found := ResolveSlot(w, Some(site.utcDate(start)), p, v, l, Seconds(start));
            Presses(site, w, s, BookingButtons(site, l, v, p, date, start)).effect
            == if found.Some? && w.verdict == Accepted then Booked(site.ofLocation(l), l, v, p, found.value)
               else NoEffect
  {
    PressesAreHandled(site, w, s, BookingButtons(site, l, v, p, date, start));
    BookingHandled(site, w, s, l, v, p, date, start);
  }

  // ----- Bookings already made ------------------------------------------------------------------------

  lemma PressBooking(site: Site, w: World, s: State, buttons: seq<Button>, t: State, id: int)
    requires Handled(site, w, s, buttons).state == t && Manageable(w, t, id)
    ensures Handled(site, w, s, buttons + [BookingRow(id)]).state
         == t.(step := AtBookingActions, context := Context(None, Some(id)))
  {
    OneMore(site, w, s, buttons, BookingRow(id), t);
  }

  lemma PressReschedule(site: Site, w: World, s: State, buttons: seq<Button>, t: State, id: int)
    requires Handled(site, w, s, buttons).state == t && Manageable(w, t, id)
    requires w.bookings[id].service.Some?
    ensures Handled(site, w, s, buttons + [RescheduleButton(id)]).state
         == t.(step := AtRescheduleDates, context := Context(None, Some(id)))
  {
    OneMore(site, w, s, buttons, RescheduleButton(id), t);
  }

  /** The booking can be moved to the slot on the date. */
  predicate Movable(w: World, s: State, id: int, date: Date, start: int) {
    && Manageable(w, s, id) && w.bookings[id].service.Some?
    && Shown(w, w.bookings[id].provider, w.bookings[id].service.value, w.bookings[id].location, date, start)
  }

  lemma PressNewDate(site: Site, w: World, s: State, buttons: seq<Button>, t: State, id: int, date: Date, start: int)
    requires Handled(site, w, s, buttons).state == t && Movable(w, t, id, date, start)
    ensures Handled(site, w, s, buttons + [RescheduleDateRow(id, date)]).state
         == t.(step := AtRescheduleSlots, context := Context(Some(date), Some(id)))
  {
    OneMore(site, w, s, buttons, RescheduleDateRow(id, date), t);
  }

  lemma PressNewSlot(site: Site, w: World, s: State, buttons: seq<Button>, t: State, id: int, date: Date, start: int)
    requires Handled(site, w, s, buttons).state == t && Movable(w, t, id, date, start)
    requires t.context.date == Some(date)
    ensures Handled(site, w, s, buttons + [RescheduleSlotRow(id, Seconds(start))]).state
            == MovePicked(site, t, id, start)
  {
    OneMore(site, w, s, buttons, RescheduleSlotRow(id, Seconds(start)), t);
  }

  /** The state after the new slot's row. */
  function MovePicked(site: Site, s: State, id: int, start: int): State {
    s.(step := AtConfirmReschedule, slot := Some(start), context := Context(Some(site.utcDate(start)), Some(id)))
  }

  lemma PressConfirmMove(site: Site, w: World, s: State, buttons: seq<Button>, t: State, id: int, start: int)
    requires Handled(site, w, s, buttons).state == t && Manageable(w, t, id)
    requires w.bookings[id].service.Some? && t.context.date == Some(site.utcDate(start))
    ensures var b := w.bookings[id];
            var found := ResolveSlot(w, Some(site.utcDate(start)), b.provider, b.service.value, b.location,
                                     Seconds(start));
            Handled(site, w, s, buttons + [ConfirmRescheduleButton(id, Seconds(start))]).effect
            == if found.Some? && w.verdict == Accepted then Rescheduled(id, found.value) else NoEffect
  {
    OneMore(site, w, s, buttons, ConfirmRescheduleButton(id, Seconds(start)), t);
  }

  function OpenReschedule(id: int): seq<Button> {
    [] + [BookingRow(id)] + [RescheduleButton(id)]
  }

  function PickNewSlot(id: int, date: Date, start: int): (buttons: seq<Button>)
    requires ValidDate(date)
    ensures AllProper(buttons)
  {
    OpenReschedule(id) + [RescheduleDateRow(id, date)] + [RescheduleSlotRow(id, Seconds(start))]
  }

  function MoveButtons(id: int, date: Date, start: int): (buttons: seq<Button>)
    requires ValidDate(date)
    ensures AllProper(buttons)
  {
    PickNewSlot(id, date, start) + [ConfirmRescheduleButton(id, Seconds(start))]
  }

  lemma OpensReschedule(site: Site, w: World, s: State, id: int)
    requires Manageable(w, s, id) && w.bookings[id].service.Some?
    ensures Handled(site, w, s, OpenReschedule(id)).state
            == s.(step := AtRescheduleDates, context := Context(None, Some(id)))
  {
    var none: seq<Button> := [];
    PressBooking(site, w, s, none, s, id);
    PressReschedule(site, w, s, none + [BookingRow(id)],
                    s.(step := AtBookingActions, context := Context(None, Some(id))), id);
  }

  lemma PicksNewSlot(site: Site, w: World, s: State, id: int, date: Date, start: int)
    requires ValidDate(date)
    requires Movable(w, s, id, date, start)
    ensures Handled(site, w, s, PickNewSlot(id, date, start)).state == MovePicked(site, s, id, start)
  {
    var t := s.(step := AtRescheduleDates, context := Context(None, Some(id)));
    OpensReschedule(site, w, s, id);
    PressNewDate(site, w, s, OpenReschedule(id), t, id, date, start);
    PressNewSlot(site, w, s, OpenReschedule(id) + [RescheduleDateRow(id, date)],
                 t.(step := AtRescheduleSlots, context := Context(Some(date), Some(id))), id, date, start);
  }

  lemma MoveHandled(site: Site, w: World, s: State, id: int, date: Date, start: int)
    requires ValidDate(date)
    requires Movable(w, s, id, date, start)
    ensures var b := w.bookings[id];
            var found := ResolveSlot(w, Some(site.utcDate(start)), b.provider, b.service.value, b.location,
                                     Seconds(start));
            Handled(site, w, s, MoveButtons(id, date, start)).effect
            == if found.Some? && w.verdict == Accepted then Rescheduled(id, found.value) else NoEffect
  {
    PicksNewSlot(site, w, s, id, date, start);
    PressConfirmMove(site, w, s, PickNewSlot(id, date, start), MovePicked(site, s, id, start), id, start);
  }

  /** The reschedule buttons move the booking to what the timestamp names on the slot's UTC date, if it is accepted. */
  lemma ButtonsReschedule(site: Site, w: World, s: State, id: int, date: Date, start: int)
    requires ValidDate(date)
    requires Movable(w, s, id, date, start)
    ensures var b := w.bookings[id];
            var found := ResolveSlot(w, Some(site.utcDate(start)), b.provider, b.service.value, b.location,
                                     Seconds(start));
            Presses(site, w, s, MoveButtons(id, date, start)).effect
            == if found.Some? && w.verdict == Accepted then Rescheduled(id, found.value) else NoEffect
  {
    PressesAreHandled(site, w, s, MoveButtons(id, date, start));
    MoveHandled(site, w, s, id, date, start);
  }

  function CancelButtons(id: int): (buttons: seq<Button>)
    ensures AllProper(buttons)
  {
    [] + [CancelButton(id)] + [ConfirmCancelButton(id)]
  }

  lemma PressCancel(site: Site, w: World, s: State, id: int)
    requires Manageable(w, s, id)
    ensures Handled(site, w, s, [] + [CancelButton(id)]).state
            == s.(step := AtConfirmCancel, context := Context(None, Some(id)))
  {
    var none: seq<Button> := [];
    OneMore(site, w, s, none, CancelButton(id), s);
  }

  lemma CancelHandled(site: Site, w: World, s: State, id: int)
    requires Manageable(w, s, id)
    ensures Handled(site, w, s, CancelButtons(id)).effect
         == if w.verdict == Accepted then Cancelled(id) else NoEffect
  {
    var t := s.(step := AtConfirmCancel, context := Context(None, Some(id)));
    PressCancel(site, w, s, id);
    OneMore(site, w, s, [] + [CancelButton(id)], ConfirmCancelButton(id), t);
  }

  /** The cancel buttons cancel the booking pressed, if the call succeeds. */
  lemma ButtonsCancel(site: Site, w: World, s: State, id: int)
    requires Manageable(w, s, id)
    ensures Presses(site, w, s, CancelButtons(id)).effect
         == if w.verdict == Accepted then Cancelled(id) else NoEffect
  {
    PressesAreHandled(site, w, s, CancelButtons(id));
    CancelHandled(site, w, s, id);
  }
}
