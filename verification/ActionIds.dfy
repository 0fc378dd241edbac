/**
 The action ids of the conversation's buttons and list rows: what the render functions emit, and what the
 dispatcher makes of an id. Every emitted id reaches the handler it was made for, with its arguments.
 */
module ActionIds {
  import opened Options
  import opened Texts

  /** Every button and list row the render functions build an id for. */
  datatype Button =
    | OrganizationRow(id: int)
    | ChangeOrganizationButton
    | BookButton
    | UpcomingButton
    | LocationRow(id: int)
    | ServiceRow(id: int)
    | ProviderRow(id: int)
    | DateRow(date: Date)
    | SlotRow(timestamp: int)
    | ConfirmBookingButton(timestamp: int)
    | ChangeDateButton
    | BookingRow(id: int)
    | CancelButton(id: int)
    | RescheduleButton(id: int)
    | ConfirmCancelButton(id: int)
    | KeepButton(id: int)
    | RescheduleDateRow(id: int, date: Date)
    | RescheduleSlotRow(id: int, timestamp: int)
    | ConfirmRescheduleButton(id: int, timestamp: int)
    | OtherRescheduleDateButton(id: int, timestamp: int)

  /** A handler call of the dispatcher. */
  datatype Command =
    | SelectOrganization(id: int)
    | RenderOrganizations
    | BeginBooking
    | ShowUpcoming
    | SelectLocation(id: int)
    | SelectService(id: int)
    | SelectProvider(id: int)
    | SelectDate(date: Date)
    | SelectSlot(timestamp: int)
    | ConfirmBooking(timestamp: int)
    | RenderBookingDates
    | ShowBookingActions(id: int)
    | PromptCancel(id: int)
    | ConfirmCancel(id: int)
    | RenderRescheduleDates(id: int)
    | SelectRescheduleDate(id: int, date: Date)
    | SelectRescheduleSlot(id: int, timestamp: int)
    | ConfirmReschedule(id: int, timestamp: int)

  predicate ProperButton(b: Button) {
    match b
    case DateRow(date) => ValidDate(date)
    case RescheduleDateRow(_, date) => ValidDate(date)
    case _ => true
  }

  /** The branches of the dispatcher. */
  datatype Branch =
    | OrgBranch
    | ChangeOrgBranch
    | BookBranch
    | UpcomingBranch
    | LocBranch
    | SvcBranch
    | ProvBranch
    | DateBranch
    | SlotBranch
    | BookYesBranch
    | BookNoBranch
    | BookingBranch
    | CancelBranch
    | CancelYesBranch
    | CancelNoBranch
    | RescheduleBranch
    | RescheduleDateBranch
    | RescheduleSlotBranch
    | RescheduleYesBranch
    | RescheduleNoBranch
    | NoBranch

  /** The argument of an id. */
  datatype Argument = Number(n: int) | Day(date: Date)

  function ArgumentText(a: Argument): string
    requires a.Day? ==> ValidDate(a.date)
  {
    match a
    case Number(n) => IntText(n)
    case Day(date) => DateText(date)
  }

  /** What an id is put together from: the literal head of its branch, and the arguments. */
  datatype Id = Id(branch: Branch, arguments: seq<Argument>)

  function IdOf(b: Button): Id {
    match b
    case OrganizationRow(id) => Id(OrgBranch, [Number(id)])
    case ChangeOrganizationButton => Id(ChangeOrgBranch, [])
    case BookButton => Id(BookBranch, [])
    case UpcomingButton => Id(UpcomingBranch, [])
    case LocationRow(id) => Id(LocBranch, [Number(id)])
    case ServiceRow(id) => Id(SvcBranch, [Number(id)])
    case ProviderRow(id) => Id(ProvBranch, [Number(id)])
    case DateRow(date) => Id(DateBranch, [Day(date)])
    case SlotRow(timestamp) => Id(SlotBranch, [Number(timestamp)])
    case ConfirmBookingButton(timestamp) => Id(BookYesBranch, [Number(timestamp)])
    case ChangeDateButton => Id(BookNoBranch, [])
    case BookingRow(id) => Id(BookingBranch, [Number(id)])
    case CancelButton(id) => Id(CancelBranch, [Number(id)])
    case RescheduleButton(id) => Id(RescheduleBranch, [Number(id)])
    case ConfirmCancelButton(id) => Id(CancelYesBranch, [Number(id)])
    case KeepButton(id) => Id(CancelNoBranch, [Number(id)])
    case RescheduleDateRow(id, date) => Id(RescheduleDateBranch, [Number(id), Day(date)])
    case RescheduleSlotRow(id, timestamp) => Id(RescheduleSlotBranch, [Number(id), Number(timestamp)])
    case ConfirmRescheduleButton(id, timestamp) => Id(RescheduleYesBranch, [Number(id), Number(timestamp)])
    case OtherRescheduleDateButton(id, timestamp) => Id(RescheduleNoBranch, [Number(id), Number(timestamp)])
  }

  /** The literal text an id of the branch begins with, or is. */
  function Head(branch: Branch): string {
    match branch
    case OrgBranch => "org:"
    case ChangeOrgBranch => "menu:change_org"
    case BookBranch => "menu:book"
    case UpcomingBranch => "menu:upcoming"
    case LocBranch => "loc:"
    case SvcBranch => "svc:"
    case ProvBranch => "prov:"
    case DateBranch => "date:"
    case SlotBranch => "slot:"
    case BookYesBranch => "confirm_book:yes:"
    case BookNoBranch => "confirm_book:no"
    case BookingBranch => "booking:"
    case CancelBranch => "booking_action:cancel:"
    case CancelYesBranch => "confirm_cancel:yes:"
    case CancelNoBranch => "confirm_cancel:no:"
    case RescheduleBranch => "booking_action:reschedule:"
    case RescheduleDateBranch => "resched_date:"
    case RescheduleSlotBranch => "resched_slot:"
    case RescheduleYesBranch => "confirm_reschedule:yes:"
    case RescheduleNoBranch => "confirm_reschedule:no:"
    case NoBranch => ""
  }

  /** An id without arguments. */
  predicate IsMenu(branch: Branch) {
    branch == ChangeOrgBranch || branch == BookBranch || branch == UpcomingBranch || branch == BookNoBranch
  }

  function ArgumentTexts(b: Button): (texts: seq<string>)
    requires ProperButton(b)
    ensures |texts| == |IdOf(b).arguments|
  {
    var arguments := IdOf(b).arguments;
    seq(|arguments|, i requires 0 <= i < |arguments| => ArgumentText(arguments[i]))
  }

  /** The id the button carries: the head, and the arguments' texts with colons between them. */
  function Encode(b: Button): string
    requires ProperButton(b)
  {
    if IsMenu(IdOf(b).branch) then Head(IdOf(b).branch) else Head(IdOf(b).branch) + Join(ArgumentTexts(b))
  }

  /** The dispatcher's tests in its order, in three parts. */
  function Route(a: string): Branch {
    if StartsWith(a, "org:") then OrgBranch
    else if a == "menu:change_org" then ChangeOrgBranch
    else if a == "menu:book" then BookBranch
    else if a == "menu:upcoming" then UpcomingBranch
    else if StartsWith(a, "loc:") then LocBranch
    else if StartsWith(a, "svc:") then SvcBranch
    else if StartsWith(a, "prov:") then ProvBranch
    else if StartsWith(a, "date:") then DateBranch
    else if StartsWith(a, "slot:") then SlotBranch
    else RouteBooking(a)
  }

  function RouteBooking(a: string): Branch {
    if StartsWith(a, "confirm_book:yes:") then BookYesBranch
    else if a == "confirm_book:no" then BookNoBranch
    else if StartsWith(a, "booking:") then BookingBranch
    else if StartsWith(a, "booking_action:cancel:") then CancelBranch
    else if StartsWith(a, "confirm_cancel:yes:") then CancelYesBranch
    else if StartsWith(a, "confirm_cancel:no:") then CancelNoBranch
    else if StartsWith(a, "booking_action:reschedule:") then RescheduleBranch
    else RouteReschedule(a)
  }

  function RouteReschedule(a: string): Branch {
    if StartsWith(a, "resched_date:") then RescheduleDateBranch
    else if StartsWith(a, "resched_slot:") then RescheduleSlotBranch
    else if StartsWith(a, "confirm_reschedule:yes:") then RescheduleYesBranch
    else if StartsWith(a, "confirm_reschedule:no:") then RescheduleNoBranch
    else NoBranch
  }

  /** The number in field `i` of a split id; a missing field or a malformed number makes the action stale. */
  function NumberIn(fields: seq<string>, i: nat): Option<int> {
    if i < |fields| then ParseInt(fields[i]) else None
  }

  function DateIn(fields: seq<string>, i: nat): Option<Date> {
    if i < |fields| then ParseDate(fields[i]) else None
  }

  /** The call a branch makes on the fields of a well-formed id. */
  function Call(branch: Branch, fields: seq<string>): Option<Command> {
    match branch
    case OrgBranch => OnNumber(NumberIn(fields, 1), n => SelectOrganization(n))
    case ChangeOrgBranch => Some(RenderOrganizations)
    case BookBranch => Some(BeginBooking)
    case UpcomingBranch => Some(ShowUpcoming)
    case LocBranch => OnNumber(NumberIn(fields, 1), n => SelectLocation(n))
    case SvcBranch => OnNumber(NumberIn(fields, 1), n => SelectService(n))
    case ProvBranch => OnNumber(NumberIn(fields, 1), n => SelectProvider(n))
    case DateBranch =>
      var d := DateIn(fields, 1);
      if d.Some? then Some(SelectDate(d.value)) else None
    case SlotBranch => OnNumber(NumberIn(fields, 1), n => SelectSlot(n))
    case BookYesBranch => OnNumber(NumberIn(fields, 2), n => ConfirmBooking(n))
    case BookNoBranch => Some(RenderBookingDates)
    case BookingBranch => OnNumber(NumberIn(fields, 1), n => ShowBookingActions(n))
    case CancelBranch => OnNumber(NumberIn(fields, 2), n => PromptCancel(n))
    case CancelYesBranch => OnNumber(NumberIn(fields, 2), n => ConfirmCancel(n))
    case CancelNoBranch => OnNumber(NumberIn(fields, 2), n => ShowBookingActions(n))
    case RescheduleBranch => OnNumber(NumberIn(fields, 2), n => RenderRescheduleDates(n))
    case RescheduleDateBranch =>
      var n, d := NumberIn(fields, 1), DateIn(fields, 2);
      if |fields| == 3 && n.Some? && d.Some? then Some(SelectRescheduleDate(n.value, d.value)) else None
    case RescheduleSlotBranch =>
      var n, t := NumberIn(fields, 1), NumberIn(fields, 2);
      if |fields| == 3 && n.Some? && t.Some? then Some(SelectRescheduleSlot(n.value, t.value)) else None
    case RescheduleYesBranch =>
      var n, t := NumberIn(fields, 2), NumberIn(fields, 3);
      if |fields| == 4 && n.Some? && t.Some? then Some(ConfirmReschedule(n.value, t.value)) else None
    case RescheduleNoBranch =>
      if |fields| == 4 then OnNumber(NumberIn(fields, 2), n => RenderRescheduleDates(n)) else None
    case NoBranch => None
  }

  function OnNumber(n: Option<int>, make: int -> Command): Option<Command> {
    if n.Some? then Some(make(n.value)) else None
  }

  /** How many cuts the branch makes; the three-field confirmations cut at every colon. */
  function Cuts(branch: Branch, a: string): nat {
    match branch
    case BookYesBranch | CancelBranch | CancelYesBranch | CancelNoBranch | RescheduleBranch => |a|
    case RescheduleDateBranch | RescheduleSlotBranch => 2
    case RescheduleYesBranch | RescheduleNoBranch => 3
    case _ => 1
  }

  /**
   The dispatcher: `None` is the stale answer, given when no test holds, a number or date is malformed, or an
   id does not unpack into the fields its branch wants.
   */
  function Decode(a: string): Option<Command> {
    Call(Route(a), Split(a, Cuts(Route(a), a)))
  }

  /** The handler each button is made for. */
  function Intended(b: Button): Command {
    match b
    case OrganizationRow(id) => SelectOrganization(id)
    case ChangeOrganizationButton => RenderOrganizations
    case BookButton => BeginBooking
    case UpcomingButton => ShowUpcoming
    case LocationRow(id) => SelectLocation(id)
    case ServiceRow(id) => SelectService(id)
    case ProviderRow(id) => SelectProvider(id)
    case DateRow(date) => SelectDate(date)
    case SlotRow(timestamp) => SelectSlot(timestamp)
    case ConfirmBookingButton(timestamp) => ConfirmBooking(timestamp)
    case ChangeDateButton => RenderBookingDates
    case BookingRow(id) => ShowBookingActions(id)
    case CancelButton(id) => PromptCancel(id)
    case RescheduleButton(id) => RenderRescheduleDates(id)
    case ConfirmCancelButton(id) => ConfirmCancel(id)
    case KeepButton(id) => ShowBookingActions(id)
    case RescheduleDateRow(id, date) => SelectRescheduleDate(id, date)
    case RescheduleSlotRow(id, timestamp) => SelectRescheduleSlot(id, timestamp)
    case ConfirmRescheduleButton(id, timestamp) => ConfirmReschedule(id, timestamp)
    case OtherRescheduleDateButton(id, _) => RenderRescheduleDates(id)
  }

  // ----- Routing --------------------------------------------------------------------------------

  lemma Mismatch(a: string, p: string, i: nat)
    requires i < |p| && i < |a| && a[i] != p[i]
    ensures !StartsWith(a, p) && a != p
  {
  }

  lemma PrefixHolds(p: string, rest: string)
    ensures StartsWith(p + rest, p)
  {
  }

  /** None of the first nine tests holds. */
  predicate NoSelection(a: string) {
    && !StartsWith(a, "org:") && a != "menu:change_org" && a != "menu:book" && a != "menu:upcoming"
    && !StartsWith(a, "loc:") && !StartsWith(a, "svc:") && !StartsWith(a, "prov:")
    && !StartsWith(a, "date:") && !StartsWith(a, "slot:")
  }

  lemma LaterIdsAreNoSelection(a: string)
    requires a != "" && (a[0] == 'b' || a[0] == 'c' || a[0] == 'r')
    ensures NoSelection(a)
  {
    Mismatch(a, "org:", 0);
    Mismatch(a, "menu:change_org", 0);
    Mismatch(a, "menu:book", 0);
    Mismatch(a, "menu:upcoming", 0);
    Mismatch(a, "loc:", 0);
    Mismatch(a, "svc:", 0);
    Mismatch(a, "prov:", 0);
    Mismatch(a, "date:", 0);
    Mismatch(a, "slot:", 0);
  }

  predicate NoBooking(a: string) {
    && !StartsWith(a, "confirm_book:yes:") && a != "confirm_book:no" && !StartsWith(a, "booking:")
    && !StartsWith(a, "booking_action:cancel:") && !StartsWith(a, "confirm_cancel:yes:")
    && !StartsWith(a, "confirm_cancel:no:") && !StartsWith(a, "booking_action:reschedule:")
  }

  lemma RescheduleIdsAreNoBooking(a: string)
    requires |a| > 8 && (a[0] == 'r' || (a[0] == 'c' && a[8] == 'r'))
    ensures NoBooking(a)
  {
    Mismatch(a, "confirm_book:yes:", if a[0] == 'r' then 0 else 8);
    Mismatch(a, "confirm_book:no", if a[0] == 'r' then 0 else 8);
    Mismatch(a, "booking:", 0);
    Mismatch(a, "booking_action:cancel:", 0);
    Mismatch(a, "confirm_cancel:yes:", if a[0] == 'r' then 0 else 8);
    Mismatch(a, "confirm_cancel:no:", if a[0] == 'r' then 0 else 8);
    Mismatch(a, "booking_action:reschedule:", 0);
  }

  /** The four tests before the location's, on an id with another first letter. */
  lemma NoMenu(a: string)
    requires a != "" && a[0] != 'o' && a[0] != 'm'
    ensures !StartsWith(a, "org:") && a != "menu:change_org" && a != "menu:book" && a != "menu:upcoming"
  {
    Mismatch(a, "org:", 0);
    Mismatch(a, "menu:change_org", 0);
    Mismatch(a, "menu:book", 0);
    Mismatch(a, "menu:upcoming", 0);
  }

  lemma RouteSelections(rest: string)
    ensures Route("org:" + rest) == OrgBranch
    ensures Route("loc:" + rest) == LocBranch
    ensures Route("svc:" + rest) == SvcBranch
  {
    PrefixHolds("org:", rest);
    PrefixHolds("loc:", rest);
    PrefixHolds("svc:", rest);
    NoMenu("loc:" + rest);
    NoMenu("svc:" + rest);
    Mismatch("svc:" + rest, "loc:", 0);
  }

  lemma RouteProvider(rest: string)
    ensures Route("prov:" + rest) == ProvBranch
  {
    PrefixHolds("prov:", rest);
    NoMenu("prov:" + rest);
    Mismatch("prov:" + rest, "loc:", 0);
    Mismatch("prov:" + rest, "svc:", 0);
  }

  lemma RouteDate(rest: string)
    ensures Route("date:" + rest) == DateBranch
  {
    PrefixHolds("date:", rest);
    NoMenu("date:" + rest);
    Mismatch("date:" + rest, "loc:", 0);
    Mismatch("date:" + rest, "svc:", 0);
    Mismatch("date:" + rest, "prov:", 0);
  }

  lemma RouteSlot(rest: string)
    ensures Route("slot:" + rest) == SlotBranch
  {
    var a := "slot:" + rest;
    PrefixHolds("slot:", rest);
    NoMenu(a);
    Mismatch(a, "loc:", 0);
    Mismatch(a, "svc:", 1);
    Mismatch(a, "prov:", 0);
    Mismatch(a, "date:", 0);
  }

  lemma RouteMenu()
    ensures Route("menu:change_org") == ChangeOrgBranch
    ensures Route("menu:book") == BookBranch
    ensures Route("menu:upcoming") == UpcomingBranch
  {
    Mismatch("menu:change_org", "org:", 0);
    Mismatch("menu:book", "org:", 0);
    Mismatch("menu:book", "menu:change_org", 5);
    Mismatch("menu:upcoming", "org:", 0);
    Mismatch("menu:upcoming", "menu:change_org", 5);
    Mismatch("menu:upcoming", "menu:book", 5);
  }

  lemma RouteAnswers(rest: string)
    ensures Route("confirm_book:yes:" + rest) == BookYesBranch
    ensures Route("confirm_book:no") == BookNoBranch
  {
    PrefixHolds("confirm_book:yes:", rest);
    LaterIdsAreNoSelection("confirm_book:yes:" + rest);
    LaterIdsAreNoSelection("confirm_book:no");
    Mismatch("confirm_book:no", "confirm_book:yes:", 13);
  }

  lemma RouteBookingRow(rest: string)
    ensures Route("booking:" + rest) == BookingBranch
  {
    var a := "booking:" + rest;
    PrefixHolds("booking:", rest);
    LaterIdsAreNoSelection(a);
    Mismatch(a, "confirm_book:yes:", 0);
    Mismatch(a, "confirm_book:no", 0);
  }

  /** The tests before the cancel prompt's, on a booking-action id. */
  lemma ActionIsNoAnswer(a: string)
    requires |a| > 7 && a[0] == 'b' && a[7] == '_'
    ensures NoSelection(a) && !StartsWith(a, "confirm_book:yes:") && a != "confirm_book:no"
            && !StartsWith(a, "booking:")
  {
    LaterIdsAreNoSelection(a);
    Mismatch(a, "confirm_book:yes:", 0);
    Mismatch(a, "confirm_book:no", 0);
    Mismatch(a, "booking:", 7);
  }

  lemma RouteCancel(rest: string)
    ensures Route("booking_action:cancel:" + rest) == CancelBranch
  {
    PrefixHolds("booking_action:cancel:", rest);
    ActionIsNoAnswer("booking_action:cancel:" + rest);
  }

  lemma RouteRescheduleButton(rest: string)
    ensures Route("booking_action:reschedule:" + rest) == RescheduleBranch
  {
    var a := "booking_action:reschedule:" + rest;
    PrefixHolds("booking_action:reschedule:", rest);
    ActionIsNoAnswer(a);
    Mismatch(a, "booking_action:cancel:", 15);
    Mismatch(a, "confirm_cancel:yes:", 0);
    Mismatch(a, "confirm_cancel:no:", 0);
  }

  /** The tests before the cancel answers', on a cancel answer. */
  lemma CancelAnswerIsNoBooking(a: string)
    requires |a| > 8 && a[0] == 'c' && a[8] == 'c'
    ensures NoSelection(a) && !StartsWith(a, "confirm_book:yes:") && a != "confirm_book:no"
            && !StartsWith(a, "booking:")
    ensures !StartsWith(a, "booking_action:cancel:")
  {
    LaterIdsAreNoSelection(a);
    Mismatch(a, "confirm_book:yes:", 8);
    Mismatch(a, "confirm_book:no", 8);
    Mismatch(a, "booking:", 0);
    Mismatch(a, "booking_action:cancel:", 0);
  }

  lemma RouteConfirmCancel(rest: string)
    ensures Route("confirm_cancel:yes:" + rest) == CancelYesBranch
    ensures Route("confirm_cancel:no:" + rest) == CancelNoBranch
  {
    PrefixHolds("confirm_cancel:yes:", rest);
    PrefixHolds("confirm_cancel:no:", rest);
    CancelAnswerIsNoBooking("confirm_cancel:yes:" + rest);
    CancelAnswerIsNoBooking("confirm_cancel:no:" + rest);
    Mismatch("confirm_cancel:no:" + rest, "confirm_cancel:yes:", 15);
  }

  lemma RouteRescheduleRows(rest: string)
    ensures Route("resched_date:" + rest) == RescheduleDateBranch
    ensures Route("resched_slot:" + rest) == RescheduleSlotBranch
  {
    PrefixHolds("resched_date:", rest);
    PrefixHolds("resched_slot:", rest);
    LaterIdsAreNoSelection("resched_date:" + rest);
    LaterIdsAreNoSelection("resched_slot:" + rest);
    RescheduleIdsAreNoBooking("resched_date:" + rest);
    RescheduleIdsAreNoBooking("resched_slot:" + rest);
    Mismatch("resched_slot:" + rest, "resched_date:", 8);
  }

  lemma RouteConfirmReschedule(rest: string)
    ensures Route("confirm_reschedule:yes:" + rest) == RescheduleYesBranch
    ensures Route("confirm_reschedule:no:" + rest) == RescheduleNoBranch
  {
    var yes, no := "confirm_reschedule:yes:" + rest, "confirm_reschedule:no:" + rest;
    PrefixHolds("confirm_reschedule:yes:", rest);
    PrefixHolds("confirm_reschedule:no:", rest);
    LaterIdsAreNoSelection(yes);
    LaterIdsAreNoSelection(no);
    RescheduleIdsAreNoBooking(yes);
    RescheduleIdsAreNoBooking(no);
    Mismatch(yes, "resched_date:", 0);
    Mismatch(yes, "resched_slot:", 0);
    Mismatch(no, "resched_date:", 0);
    Mismatch(no, "resched_slot:", 0);
    Mismatch(no, "confirm_reschedule:yes:", 19);
  }

  /** An id with the branch's head takes the branch: no test before it holds. */
  lemma HeadRoutes(branch: Branch, rest: string)
    requires branch != NoBranch
    ensures Route(if IsMenu(branch) then Head(branch) else Head(branch) + rest) == branch
  {
    match branch
    case OrgBranch => RouteSelections(rest);
    case LocBranch => RouteSelections(rest);
    case SvcBranch => RouteSelections(rest);
    case ProvBranch => RouteProvider(rest);
    case DateBranch => RouteDate(rest);
    case SlotBranch => RouteSlot(rest);
    case BookYesBranch => RouteAnswers(rest);
    case BookNoBranch => RouteAnswers(rest);
    case BookingBranch => RouteBookingRow(rest);
    case CancelBranch => RouteCancel(rest);
    case RescheduleBranch => RouteRescheduleButton(rest);
    case CancelYesBranch => RouteConfirmCancel(rest);
    case CancelNoBranch => RouteConfirmCancel(rest);
    case RescheduleDateBranch => RouteRescheduleRows(rest);
    case RescheduleSlotBranch => RouteRescheduleRows(rest);
    case RescheduleYesBranch => RouteConfirmReschedule(rest);
    case RescheduleNoBranch => RouteConfirmReschedule(rest);
    case _ => RouteMenu();
  }

  /** No id of one button falls into an earlier test of another. */
  lemma EmittedIdsRoute(b: Button)
    requires ProperButton(b)
    ensures Route(Encode(b)) == IdOf(b).branch
  {
    HeadRoutes(IdOf(b).branch, if IsMenu(IdOf(b).branch) then "" else Join(ArgumentTexts(b)));
  }

  // ----- Arguments ------------------------------------------------------------------------------

  /** The words of a head. */
  function Words(branch: Branch): (words: seq<string>)
    ensures |words| == if IsMenu(branch) || WordCount(branch) == 2 then 2 else 1
  {
    match branch
    case OrgBranch => ["org"]
    case ChangeOrgBranch => ["menu", "change_org"]
    case BookBranch => ["menu", "book"]
    case UpcomingBranch => ["menu", "upcoming"]
    case LocBranch => ["loc"]
    case SvcBranch => ["svc"]
    case ProvBranch => ["prov"]
    case DateBranch => ["date"]
    case SlotBranch => ["slot"]
    case BookYesBranch => ["confirm_book", "yes"]
    case BookNoBranch => ["confirm_book", "no"]
    case BookingBranch => ["booking"]
    case CancelBranch => ["booking_action", "cancel"]
    case CancelYesBranch => ["confirm_cancel", "yes"]
    case CancelNoBranch => ["confirm_cancel", "no"]
    case RescheduleBranch => ["booking_action", "reschedule"]
    case RescheduleDateBranch => ["resched_date"]
    case RescheduleSlotBranch => ["resched_slot"]
    case RescheduleYesBranch => ["confirm_reschedule", "yes"]
    case RescheduleNoBranch => ["confirm_reschedule", "no"]
    case NoBranch => [""]
  }

  /** Two words for the questions' answers and a booking's actions, one for the rows. */
  function WordCount(branch: Branch): nat {
    match branch
    case BookYesBranch | CancelBranch | CancelYesBranch | CancelNoBranch | RescheduleBranch => 2
    case RescheduleYesBranch | RescheduleNoBranch => 2
    case _ => 1
  }

  lemma JoinTwo(x: string, y: string)
    ensures Join([x, y]) == x + ":" + y
  {
    assert [x, y][1..] == [y];
  }

  /** Joining two lists of fields. */
  lemma {:induction false} JoinAppend(a: seq<string>, b: seq<string>)
    requires a != [] && b != []
    ensures Join(a + b) == Join(a) + ":" + Join(b)
  {
    if |a| == 1 {
      assert (a + b)[1..] == b;
    } else {
      JoinAppend(a[1..], b);
      assert (a + b)[1..] == a[1..] + b;
      assert a[0] + ":" + (Join(a[1..]) + ":" + Join(b)) == (a[0] + ":" + Join(a[1..])) + ":" + Join(b);
    }
  }

  /** A head is its words, with a colon after each when arguments follow. */
  lemma HeadIsWords(branch: Branch)
    requires branch != NoBranch
    ensures Head(branch) == if IsMenu(branch) then Join(Words(branch)) else Join(Words(branch)) + ":"
  {
    if |Words(branch)| == 2 {
      JoinTwo(Words(branch)[0], Words(branch)[1]);
      TwoWordHeads(branch);
    } else {
      OneWordHeads(branch);
    }
  }

  lemma OneWordHeads(branch: Branch)
    requires branch != NoBranch && |Words(branch)| == 1
    ensures Head(branch) == Words(branch)[0] + ":"
  {
  }

  lemma TwoWordHeads(branch: Branch)
    requires branch != NoBranch && |Words(branch)| == 2
    ensures Head(branch) == Words(branch)[0] + ":" + Words(branch)[1] + (if IsMenu(branch) then "" else ":")
  {
    match branch
    case RescheduleYesBranch | RescheduleNoBranch => RescheduleHeads();
    case CancelYesBranch | CancelNoBranch => CancelHeads();
    case BookYesBranch | CancelBranch | RescheduleBranch => ActionHeads();
    case _ => MenuHeads();
  }

  lemma RescheduleHeads()
    ensures "confirm_reschedule:yes:" == "confirm_reschedule" + ":" + "yes" + ":"
    ensures "confirm_reschedule:no:" == "confirm_reschedule" + ":" + "no" + ":"
  {
  }

  lemma CancelHeads()
    ensures "confirm_cancel:yes:" == "confirm_cancel" + ":" + "yes" + ":"
    ensures "confirm_cancel:no:" == "confirm_cancel" + ":" + "no" + ":"
  {
  }

  lemma ActionHeads()
    ensures "confirm_book:yes:" == "confirm_book" + ":" + "yes" + ":"
    ensures "booking_action:cancel:" == "booking_action" + ":" + "cancel" + ":"
    ensures "booking_action:reschedule:" == "booking_action" + ":" + "reschedule" + ":"
  {
  }

  lemma MenuHeads()
    ensures "menu:change_org" == "menu" + ":" + "change_org" + ""
    ensures "menu:book" == "menu" + ":" + "book" + ""
    ensures "menu:upcoming" == "menu" + ":" + "upcoming" + ""
    ensures "confirm_book:no" == "confirm_book" + ":" + "no" + ""
  {
  }

  lemma WordsHaveNoColon(branch: Branch)
    ensures forall i :: 0 <= i < |Words(branch)| ==> NoColon(Words(branch)[i])
  {
    if |Words(branch)| == 1 {
      OneWord(branch);
    } else {
      FirstWord(branch);
      SecondWord(branch);
    }
  }

  lemma OneWord(branch: Branch)
    requires |Words(branch)| == 1
    ensures NoColon(Words(branch)[0])
  {
  }

  lemma FirstWord(branch: Branch)
    requires |Words(branch)| == 2
    ensures NoColon(Words(branch)[0])
  {
  }

  lemma SecondWord(branch: Branch)
    requires |Words(branch)| == 2
    ensures NoColon(Words(branch)[1])
  {
  }

  /** All the fields of an id. */
  function Fields(b: Button): seq<string>
    requires ProperButton(b)
  {
    Words(IdOf(b).branch) + ArgumentTexts(b)
  }

  lemma EncodeIsJoin(b: Button)
    requires ProperButton(b)
    ensures Encode(b) == Join(Fields(b))
  {
    var branch := IdOf(b).branch;
    HeadIsWords(branch);
    if IsMenu(branch) {
      assert Fields(b) == Words(branch);
    } else {
      JoinAppend(Words(branch), ArgumentTexts(b));
    }
  }

  /** An argument's text holds no colon and parses back. */
  lemma ArgumentParses(a: Argument)
    requires a.Day? ==> ValidDate(a.date)
    ensures NoColon(ArgumentText(a))
    ensures a.Number? ==> ParseInt(ArgumentText(a)) == Some(a.n)
    ensures a.Day? ==> ParseDate(ArgumentText(a)) == Some(a.date)
  {
    match a
    case Number(n) => IntTextParses(n);
    case Day(date) => DateTextParses(date);
  }

  lemma FieldsHaveNoColon(b: Button)
    requires ProperButton(b)
    ensures forall i :: 0 <= i < |Fields(b)| ==> NoColon(Fields(b)[i])
  {
    WordsHaveNoColon(IdOf(b).branch);
    forall i | 0 <= i < |ArgumentTexts(b)| ensures NoColon(ArgumentTexts(b)[i]) {
      ArgumentParses(IdOf(b).arguments[i]);
    }
  }

  // What each branch calls, given how many fields there are and what the arguments parse to.

  lemma RowsCall(fields: seq<string>, n: int)
    requires |fields| == 2 && ParseInt(fields[1]) == Some(n)
    ensures Call(OrgBranch, fields) == Some(SelectOrganization(n))
    ensures Call(LocBranch, fields) == Some(SelectLocation(n))
    ensures Call(SvcBranch, fields) == Some(SelectService(n))
    ensures Call(ProvBranch, fields) == Some(SelectProvider(n))
    ensures Call(SlotBranch, fields) == Some(SelectSlot(n))
    ensures Call(BookingBranch, fields) == Some(ShowBookingActions(n))
  {
  }

  lemma AnswersCall(fields: seq<string>, n: int)
    requires |fields| == 3 && ParseInt(fields[2]) == Some(n)
    ensures Call(BookYesBranch, fields) == Some(ConfirmBooking(n))
    ensures Call(CancelBranch, fields) == Some(PromptCancel(n))
    ensures Call(CancelYesBranch, fields) == Some(ConfirmCancel(n))
    ensures Call(CancelNoBranch, fields) == Some(ShowBookingActions(n))
    ensures Call(RescheduleBranch, fields) == Some(RenderRescheduleDates(n))
  {
  }

  lemma DatesCall(fields: seq<string>, d: Date)
    ensures |fields| == 2 && ParseDate(fields[1]) == Some(d) ==> Call(DateBranch, fields) == Some(SelectDate(d))
    ensures |fields| == 3 && ParseInt(fields[1]).Some? && ParseDate(fields[2]) == Some(d) ==>
              Call(RescheduleDateBranch, fields) == Some(SelectRescheduleDate(ParseInt(fields[1]).value, d))
  {
  }

  lemma ReschedulesCall(fields: seq<string>, n: int, t: int)
    ensures |fields| == 3 && ParseInt(fields[1]) == Some(n) && ParseInt(fields[2]) == Some(t) ==>
              Call(RescheduleSlotBranch, fields) == Some(SelectRescheduleSlot(n, t))
    ensures |fields| == 4 && ParseInt(fields[2]) == Some(n) && ParseInt(fields[3]) == Some(t) ==>
              && Call(RescheduleYesBranch, fields) == Some(ConfirmReschedule(n, t))
              && Call(RescheduleNoBranch, fields) == Some(RenderRescheduleDates(n))
  {
  }

  /** The branch of a button, called on its fields, is the handler it is made for. */
  lemma FieldsCall(b: Button)
    requires ProperButton(b)
    ensures Call(IdOf(b).branch, Fields(b)) == Some(Intended(b))
  {
    var arguments, fields := IdOf(b).arguments, Fields(b);
    if |arguments| == 1 {
      ArgumentParses(arguments[0]);
      OneArgumentCalls(b, fields);
    } else if |arguments| == 2 {
      ArgumentParses(arguments[0]);
      ArgumentParses(arguments[1]);
      TwoArgumentsCall(b, fields);
    }
  }

  lemma OneArgumentCalls(b: Button, fields: seq<string>)
    requires var id := IdOf(b);
             && |id.arguments| == 1 && |fields| == WordCount(id.branch) + 1
             && match id.arguments[0] {
                  case Number(n) => ParseInt(fields[|fields| - 1]) == Some(n)
                  case Day(d) => ParseDate(fields[|fields| - 1]) == Some(d)
                }
    ensures Call(IdOf(b).branch, fields) == Some(Intended(b))
  {
    match IdOf(b).arguments[0]
    case Day(d) => DatesCall(fields, d);
    case Number(n) =>
      if |fields| == 2 {
        RowsCall(fields, n);
      } else {
        AnswersCall(fields, n);
      }
  }

  lemma TwoArgumentsCall(b: Button, fields: seq<string>)
    requires var id := IdOf(b);
             && |id.arguments| == 2 && |fields| == WordCount(id.branch) + 2
             && ParseInt(fields[|fields| - 2]) == Some(id.arguments[0].n)
             && match id.arguments[1] {
                  case Number(n) => ParseInt(fields[|fields| - 1]) == Some(n)
                  case Day(d) => ParseDate(fields[|fields| - 1]) == Some(d)
                }
    ensures Call(IdOf(b).branch, fields) == Some(Intended(b))
  {
    match IdOf(b).arguments[1]
    case Day(d) => DatesCall(fields, d);
    case Number(t) => ReschedulesCall(fields, IdOf(b).arguments[0].n, t);
  }

  /** Every branch cuts its id into all its fields. */
  lemma CutsSuffice(b: Button)
    requires ProperButton(b)
    ensures |Fields(b)| <= Cuts(IdOf(b).branch, Encode(b)) + 1
  {
    if WordCount(IdOf(b).branch) == 2 {
      assert |Head(IdOf(b).branch)| >= 2;
    }
  }

  /** Every id the render functions emit decodes to its handler with its own arguments, for all ids, times and dates. */
  lemma EmittedIdsDecode(b: Button)
    requires ProperButton(b)
    ensures Decode(Encode(b)) == Some(Intended(b))
  {
    EmittedIdsRoute(b);
    EncodeIsJoin(b);
    FieldsHaveNoColon(b);
    CutsSuffice(b);
    SplitJoin(Fields(b), Cuts(IdOf(b).branch, Encode(b)));
    FieldsCall(b);
  }

  /** Two buttons with the same id do the same thing. */
  lemma EqualIdsEqualHandlers(a: Button, b: Button)
    requires ProperButton(a) && ProperButton(b) && Encode(a) == Encode(b)
    ensures Intended(a) == Intended(b)
  {
    EmittedIdsDecode(a);
    EmittedIdsDecode(b);
  }
}
