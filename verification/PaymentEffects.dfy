/**
 What payment webhooks, expiry sweeps and cancellations do to appointments, payments and earnings, with every status
 written out, and which steps of a run confirm an appointment that waits for its payment.
 */
module PaymentEffects {
  import opened Options
  import opened Rounding
  import opened Statuses
  import opened Commission
  import opened Earnings
  import opened Books
  import opened Ledger
  import opened Payments
  import opened MoneyRuns
  import opened MoneyTheorems
  import opened RefundEffects

  // ----- Status webhooks ------------------------------------------------------------------------------

  /** The webhook repeats the status, or would take a paid payment back to an unpaid status. */
  predicate Skips(previous: PaymentStatus, next: PaymentStatus) {
    || previous == next
    || ((previous == Succeeded || previous == Refunded) && next != Succeeded && next != Refunded)
  }

  /** What a payment's new status makes of its appointment. */
  function BookingStatusAfter(status: PaymentStatus, booking: AppointmentStatus): AppointmentStatus {
    match status
    case Succeeded => if booking == PendingPayment || booking == Pending then Confirmed else booking
    case PaymentFailed => if booking == PendingPayment then Cancelled else booking
    case Canceled => if booking == PendingPayment then Cancelled else booking
    case _ => booking
  }

  /** A webhook that is skipped changes nothing; an unknown payment is an error. */
  lemma SkippedWebhook(s: Snapshot, id: int, status: PaymentStatus, config: CommissionConfig)
    ensures !(0 <= id < |s.payments|) ==> StatusMarked(s, id, status, config).Err?
    ensures 0 <= id < |s.payments| && Skips(s.payments[id].status, status) ==>
              StatusMarked(s, id, status, config) == Ok(s)
  {
  }

  /**
   A webhook that is not skipped writes the payment's status and its appointment's, and nothing else but the one
   earning a succeeded payment must have. It fails only if that earning's fee cannot be computed.
   */
  lemma AppliedWebhook(s: Snapshot, id: int, status: PaymentStatus, config: CommissionConfig)
    requires PaymentsHaveBookings(s) && 0 <= id < |s.payments| && !Skips(s.payments[id].status, status)
    ensures var r, p := StatusMarked(s, id, status, config), s.payments[id];
            && (r.Err? <==>
                  status == Succeeded && p.amount > 0 && !ValidConfig(config)
                  && forall i :: 0 <= i < |s.earnings| ==> s.earnings[i].payment != id)
            && (r.Ok? ==>
                  && PaymentWritten(s, r.value, id, status)
                  && BookingWritten(s, r.value, p.appointment,
                                    BookingStatusAfter(status, s.bookings[p.appointment].status))
                  && EarningWritten(s, r.value, id, status, config)
                  && r.value.refunds == s.refunds && r.value.payouts == s.payouts && r.value.providers == s.providers)
  {
    var found := FindByPayment(s.earnings, id);
    if found.Some? {
      assert s.earnings[found.value].payment == id;
    }
  }

  /** One appointment has the status, every other is as it was. */
  predicate BookingWritten(s: Snapshot, t: Snapshot, a: int, status: AppointmentStatus) {
    && |t.bookings| == |s.bookings|
    && forall b :: 0 <= b < |s.bookings| ==>
         t.bookings[b] == Booking(s.bookings[b].provider, s.bookings[b].startsAt,
                                  if b == a then status else s.bookings[b].status)
  }

  /** A payment that succeeds without an earning gets one: its appointment's provider earns its amount less the fee. */
  predicate EarningWritten(s: Snapshot, t: Snapshot, id: int, status: PaymentStatus, config: CommissionConfig)
    requires PaymentsHaveBookings(s) && 0 <= id < |s.payments|
  {
    if status != Succeeded || exists i :: 0 <= i < |s.earnings| && s.earnings[i].payment == id
    then t.earnings == s.earnings
    else
      var p, fee := s.payments[id], PlatformFee(s.payments[id].amount, config);
      && fee.Ok? && |t.earnings| == |s.earnings| + 1 && t.earnings[..|s.earnings|] == s.earnings
      && var share := p.amount - fee.value;
         t.earnings[|s.earnings|]
         == Earning(s.bookings[p.appointment].provider, p.appointment, id, None, p.amount, fee.value, share, 0, 0,
                    p.currency, if share > 0 then ReadyForPayout else EarningPending)
  }

  // ----- The expiry sweep -----------------------------------------------------------------------------

  /** The sweep selects the payment, and its item does not raise. */
  predicate Expires(p: Payment, i: int, cutoff: int, faults: set<int>) {
    (p.status == PaymentPending || p.status == RequiresAction) && p.createdAt <= cutoff && i !in faults
  }

  /** Some selected payment of the appointment did not raise. */
  predicate LosesPayment(s: Snapshot, b: int, cutoff: int, faults: set<int>) {
    exists i :: 0 <= i < |s.payments| && s.payments[i].appointment == b && Expires(s.payments[i], i, cutoff, faults)
  }

  function SweptPayment(p: Payment, i: int, cutoff: int, faults: set<int>): Payment {
    Payment(p.appointment, p.amount, p.currency, p.createdAt, p.isDeposit,
            if Expires(p, i, cutoff, faults) then Canceled else p.status)
  }

  /** What the sweep has done after the first `n` of the ids it selected. */
  predicate LosesAmong(s: Snapshot, ids: seq<int>, faults: set<int>, b: int) {
    exists i :: i in ids && i !in faults && 0 <= i < |s.payments| && s.payments[i].appointment == b
  }

  lemma {:induction false} SweptBookings(s: Snapshot, ids: seq<int>, faults: set<int>, b: int)
    requires PaymentsHaveBookings(s) && 0 <= b < |s.bookings|
    requires forall a :: 0 <= a < |ids| ==> 0 <= ids[a] < |s.payments| && Unpaid(s.payments[ids[a]].status)
    requires forall a, c :: 0 <= a < c < |ids| ==> ids[a] < ids[c]
    ensures var t := ExpireAll(s, ids, faults);
            && |t.bookings| == |s.bookings|
            && t.bookings[b] == Booking(s.bookings[b].provider, s.bookings[b].startsAt,
                                        if s.bookings[b].status == PendingPayment && LosesAmong(s, ids, faults, b)
                                        then Cancelled else s.bookings[b].status)
    decreases |ids|
  {
    if ids != [] {
      var n := |ids| - 1;
      SweptBookings(s, ids[..n], faults, b);
      NotYetReached(s, ids, faults);
      LosesOneMore(s, ids, faults, b);
      if ids[n] !in faults {
        OneExpires(ExpireAll(s, ids[..n], faults), ids[n], b);
      }
    }
  }

  /** The last id's payment is as it was until the sweep comes to it. */
  lemma NotYetReached(s: Snapshot, ids: seq<int>, faults: set<int>)
    requires PaymentsHaveBookings(s) && ids != []
    requires forall a :: 0 <= a < |ids| ==> 0 <= ids[a] < |s.payments| && Unpaid(s.payments[ids[a]].status)
    requires forall a, c :: 0 <= a < c < |ids| ==> ids[a] < ids[c]
    ensures var n := |ids| - 1;
            var rest := ExpireAll(s, ids[..n], faults);
            |rest.payments| == |s.payments| && rest.payments[ids[n]] == s.payments[ids[n]]
  {
    var n := |ids| - 1;
    ExpireAllPayments(s, ids[..n], faults);
  }

  /** The sweep's item on one payment: its appointment, if it waits, is cancelled. */
  lemma OneExpires(s: Snapshot, id: int, b: int)
    requires 0 <= id < |s.payments| && Unpaid(s.payments[id].status) && 0 <= b < |s.bookings|
    requires 0 <= s.payments[id].appointment < |s.bookings|
    ensures var t := ExpireOne(s, id);
            && |t.bookings| == |s.bookings|
            && t.bookings[b] == Booking(s.bookings[b].provider, s.bookings[b].startsAt,
                                        if s.bookings[b].status == PendingPayment && s.payments[id].appointment == b
                                        then Cancelled else s.bookings[b].status)
  {
  }

  lemma LosesOneMore(s: Snapshot, ids: seq<int>, faults: set<int>, b: int)
    requires ids != [] && forall a :: 0 <= a < |ids| ==> 0 <= ids[a] < |s.payments|
    ensures var n := |ids| - 1;
            LosesAmong(s, ids, faults, b) <==>
            LosesAmong(s, ids[..n], faults, b) || (ids[n] !in faults && s.payments[ids[n]].appointment == b)
  {
    var n := |ids| - 1;
    assert ids == ids[..n] + [ids[n]];
    if ids[n] !in faults && s.payments[ids[n]].appointment == b {
      assert ids[n] in ids;
    }
  }

  /**
   A sweep cancels exactly the selected payments that did not raise, and exactly their appointments that wait for a
   payment; it touches nothing else.
   */
  lemma SweepEffect(s: Snapshot, cutoff: int, faults: set<int>)
    requires PaymentsHaveBookings(s)
    ensures var t := Swept(s, cutoff, faults);
            && |t.payments| == |s.payments| && |t.bookings| == |s.bookings|
            && (forall i :: 0 <= i < |s.payments| ==> t.payments[i] == SweptPayment(s.payments[i], i, cutoff, faults))
            && (forall b :: 0 <= b < |s.bookings| ==>
                  t.bookings[b]
                  == Booking(s.bookings[b].provider, s.bookings[b].startsAt,
                             if s.bookings[b].status == PendingPayment && LosesPayment(s, b, cutoff, faults)
                             then Cancelled else s.bookings[b].status))
            && t.refunds == s.refunds && t.earnings == s.earnings && t.payouts == s.payouts
            && t.providers == s.providers
  {
    var ids := ExpiredIds(s.payments, cutoff);
    ExpireAllPayments(s, ids, faults);
    forall b | 0 <= b < |s.bookings|
      ensures Swept(s, cutoff, faults).bookings[b]
              == Booking(s.bookings[b].provider, s.bookings[b].startsAt,
                         if s.bookings[b].status == PendingPayment && LosesPayment(s, b, cutoff, faults)
                         then Cancelled else s.bookings[b].status)
    {
      SweptBookings(s, ids, faults, b);
      assert LosesAmong(s, ids, faults, b) <==> LosesPayment(s, b, cutoff, faults);
    }
  }

  predicate IsOpen(s: AppointmentStatus) {
    s == Pending || s == PendingPayment || s == Confirmed
  }

  // ----- Cancellations --------------------------------------------------------------------------------

  /** A cancellation fails exactly on an unknown, completed or missed appointment, and repeating it changes nothing. */
  lemma CancellationAccepted(s: Snapshot, a: int, service: Option<ServicePolicy>, now: int, accepted: bool)
    ensures BookingCancelled(s, a, service, now, accepted).Ok? <==>
            0 <= a < |s.bookings| && s.bookings[a].status != AppointmentCompleted && s.bookings[a].status != NoShow
    ensures 0 <= a < |s.bookings| && s.bookings[a].status == Cancelled ==>
              BookingCancelled(s, a, service, now, accepted) == Ok(s)
  {
  }

  /**
   An open appointment becomes CANCELLED, and its latest payment gets at most one refund row, of exactly the amount the
   policy gives, settled by the provider's answer. Only that payment and its earning can change with it.
   */
  lemma CancellationEffect(s: Snapshot, a: int, service: Option<ServicePolicy>, now: int, accepted: bool)
    requires JointSound(s) && 0 <= a < |s.bookings|
    requires IsOpen(s.bookings[a].status)
    ensures var t, latest := BookingCancelled(s, a, service, now, accepted).value, LatestPayment(s.payments, a);
            && BookingWritten(s, t, a, Cancelled) && t.payouts == s.payouts
            && var amount := if latest.Some? then CancellationRefund(s, latest.value, service, now) else 0;
               if amount == 0 then t.refunds == s.refunds && t.payments == s.payments && t.earnings == s.earnings
               else RefundMade(s, t, latest.value, amount, accepted)
  {
    var s1 := s.(bookings := s.bookings[a := s.bookings[a].(status := Cancelled)]);
    BookingChangeKeeps(s, s1.bookings);
    var latest := LatestPayment(s.payments, a);
    if latest.Some? {
      var amount := CancellationRefund(s1, latest.value, service, now);
      assert amount == CancellationRefund(s, latest.value, service, now);
      if amount != 0 {
        RefundEffect(s1, latest.value, amount, accepted);
      }
    }
  }

  /** One refund row is added with the answer's status, and an accepted one reaches its payment and its earning. */
  predicate RefundMade(s: Snapshot, t: Snapshot, id: int, amount: nat, accepted: bool)
    requires 0 <= id < |s.payments|
  {
    && t.refunds == s.refunds + [Refund(id, amount, if accepted then RefundSucceeded else RefundFailed)]
    && PaymentWritten(s, t, id, if accepted && SucceededRefunds(s.refunds, id) + amount >= s.payments[id].amount
                                then Refunded else s.payments[id].status)
    && (if accepted then EarningReduced(s, t, id, amount) else t.earnings == s.earnings)
  }

  // ----- What a step of a run does to an appointment ----------------------------------------------------

  /** One of the appointment's payments has become SUCCEEDED. */
  predicate PaidNow(s: Snapshot, t: Snapshot, b: int) {
    exists id :: 0 <= id < |s.payments| && id < |t.payments| && s.payments[id].appointment == b
                 && s.payments[id].status != Succeeded && t.payments[id].status == Succeeded
  }

  /** One of the appointment's payments has become FAILED or CANCELED. */
  predicate LostNow(s: Snapshot, t: Snapshot, b: int) {
    exists id :: 0 <= id < |s.payments| && id < |t.payments| && s.payments[id].appointment == b
                 && s.payments[id].status != t.payments[id].status
                 && (t.payments[id].status == PaymentFailed || t.payments[id].status == Canceled)
  }

  /** How one step may change the status of an appointment, and why. */
  predicate StatusStep(s: Snapshot, t: Snapshot, a: Action, b: int)
    requires 0 <= b < |s.bookings| && b < |t.bookings|
  {
    var before, after := s.bookings[b].status, t.bookings[b].status;
    || after == before
    || (after == Confirmed && (before == Pending || before == PendingPayment) && PaidNow(s, t, b))
    || (after == Cancelled && before == PendingPayment && LostNow(s, t, b))
    || (after == Cancelled && IsOpen(before) && a.CancelBooking? && a.booking == b)
  }

  /** An appointment keeps its provider, and its start unless the step reschedules it. */
  predicate RowStep(s: Snapshot, t: Snapshot, a: Action, b: int)
    requires 0 <= b < |s.bookings| && b < |t.bookings|
  {
    && t.bookings[b].provider == s.bookings[b].provider
    && t.bookings[b].startsAt
       == if a.Reschedule? && a.booking == b && IsOpen(s.bookings[b].status) then a.newStart else s.bookings[b].startsAt
  }

  lemma WebhookStep(s: Snapshot, a: Action, b: int)
    requires JointSound(s) && 0 <= b < |s.bookings| && a.Webhook?
    ensures var t := BooksAfter(s, a); b < |t.bookings| && StatusStep(s, t, a, b) && RowStep(s, t, a, b)
  {
    var id, status := a.payment, a.paymentStatus;
    if 0 <= id < |s.payments| && !Skips(s.payments[id].status, status) {
      AppliedWebhook(s, id, status, a.config);
    } else {
      SkippedWebhook(s, id, status, a.config);
    }
  }

  lemma SweepStatusStep(s: Snapshot, a: Action, b: int)
    requires JointSound(s) && 0 <= b < |s.bookings| && a.Sweep?
    ensures var t := BooksAfter(s, a); b < |t.bookings| && StatusStep(s, t, a, b) && RowStep(s, t, a, b)
  {
    SweepEffect(s, a.cutoff, a.faults);
    if LosesPayment(s, b, a.cutoff, a.faults) {
      var i :| 0 <= i < |s.payments| && s.payments[i].appointment == b
               && Expires(s.payments[i], i, a.cutoff, a.faults);
      assert BooksAfter(s, a).payments[i] == SweptPayment(s.payments[i], i, a.cutoff, a.faults);
    }
  }

  lemma CancelStatusStep(s: Snapshot, a: Action, b: int)
    requires JointSound(s) && 0 <= b < |s.bookings| && a.CancelBooking?
    ensures var t := BooksAfter(s, a); b < |t.bookings| && StatusStep(s, t, a, b) && RowStep(s, t, a, b)
  {
    CancellationAccepted(s, a.booking, a.service, a.now, a.accepted);
    if 0 <= a.booking < |s.bookings| && Blocking(s.bookings[a.booking].status) {
      CancellationEffect(s, a.booking, a.service, a.now, a.accepted);
    }
  }

  lemma RefundStatusStep(s: Snapshot, a: Action, b: int)
    requires JointSound(s) && 0 <= b < |s.bookings| && a.RequestRefund?
    ensures var t := BooksAfter(s, a); b < |t.bookings| && StatusStep(s, t, a, b) && RowStep(s, t, a, b)
  {
    if RefundAllowed(s, a.payment, a.refundAmount) {
      RefundCreatedKeeps(s, a.payment, a.refundAmount, a.accepted);
    }
  }

  lemma BooksStep(s: Snapshot, a: Action, b: int)
    requires JointSound(s) && 0 <= b < |s.bookings|
    ensures var t := BooksAfter(s, a); b < |t.bookings| && StatusStep(s, t, a, b) && RowStep(s, t, a, b)
  {
    match a
    case Webhook(id, status, config) => WebhookStep(s, a, b);
    case Sweep(cutoff, faults) => SweepStatusStep(s, a, b);
    case CancelBooking(c, service, now, accepted) => CancelStatusStep(s, a, b);
    case RequestRefund(id, amount, accepted) => RefundStatusStep(s, a, b);
    case _ =>
  }

  /** How one step may change the status of a payment, and why. */
  predicate PaymentStep(s: Snapshot, t: Snapshot, a: Action, id: int)
    requires 0 <= id < |s.payments| && id < |t.payments|
  {
    var before, after := s.payments[id].status, t.payments[id].status;
    || after == before
    || (a.Webhook? && a.payment == id && after == a.paymentStatus && !Skips(before, after))
    || (a.Sweep? && after == Canceled && Expires(s.payments[id], id, a.cutoff, a.faults))
    || (after == Refunded && (before == Succeeded || before == Refunded)
        && SucceededRefunds(s.refunds, id) < SucceededRefunds(t.refunds, id)
        && SucceededRefunds(t.refunds, id) >= s.payments[id].amount)
  }

  lemma BooksPaymentStep(s: Snapshot, a: Action, id: int)
    requires JointSound(s) && 0 <= id < |s.payments|
    ensures var t := BooksAfter(s, a); id < |t.payments| && PaymentStep(s, t, a, id)
  {
    match a
    case Webhook(p, status, config) => WebhookPaymentStep(s, a, id);
    case Sweep(cutoff, faults) => SweepEffect(s, cutoff, faults);
    case CancelBooking(b, service, now, accepted) =>
      CancellationAccepted(s, b, service, now, accepted);
      if 0 <= b < |s.bookings| && IsOpen(s.bookings[b].status) {
        CancelledPaymentStep(s, a, id);
      }
    case RequestRefund(p, amount, accepted) => RefundPaymentStep(s, a, id);
    case _ =>
  }

  lemma WebhookPaymentStep(s: Snapshot, a: Action, id: int)
    requires JointSound(s) && 0 <= id < |s.payments| && a.Webhook?
    ensures var t := BooksAfter(s, a); id < |t.payments| && PaymentStep(s, t, a, id)
  {
    SkippedWebhook(s, a.payment, a.paymentStatus, a.config);
    if 0 <= a.payment < |s.payments| && !Skips(s.payments[a.payment].status, a.paymentStatus) {
      AppliedWebhook(s, a.payment, a.paymentStatus, a.config);
    }
  }

  lemma RefundPaymentStep(s: Snapshot, a: Action, id: int)
    requires JointSound(s) && 0 <= id < |s.payments| && a.RequestRefund?
    ensures var t := BooksAfter(s, a); id < |t.payments| && PaymentStep(s, t, a, id)
  {
    if RefundAllowed(s, a.payment, a.refundAmount) {
      RefundEffect(s, a.payment, a.refundAmount, a.accepted);
      RefundMadeStep(s, BooksAfter(s, a), a, a.payment, a.refundAmount, a.accepted, id);
    }
  }

  lemma CancelledPaymentStep(s: Snapshot, a: Action, id: int)
    requires JointSound(s) && 0 <= id < |s.payments| && a.CancelBooking?
    requires 0 <= a.booking < |s.bookings| && IsOpen(s.bookings[a.booking].status)
    ensures var t := BooksAfter(s, a); id < |t.payments| && PaymentStep(s, t, a, id)
  {
    var b := a.booking;
    var latest := LatestPayment(s.payments, b);
    CancellationEffect(s, b, a.service, a.now, a.accepted);
    if latest.Some? {
      var amount := CancellationRefund(s, latest.value, a.service, a.now);
      if amount != 0 {
        NothingToRefundUnlessPaid(s, latest.value, a.service, a.now);
        RefundMadeStep(s, BooksAfter(s, a), a, latest.value, amount, a.accepted, id);
      }
    }
  }

  lemma NothingToRefundUnlessPaid(s: Snapshot, id: int, service: Option<ServicePolicy>, now: int)
    requires 0 <= id < |s.payments| && 0 <= s.payments[id].appointment < |s.bookings|
    requires CancellationRefund(s, id, service, now) != 0
    ensures s.payments[id].status == Succeeded || s.payments[id].status == Refunded
  {
  }

  lemma RefundMadeStep(s: Snapshot, t: Snapshot, a: Action, id: int, amount: nat, accepted: bool, other: int)
    requires 0 <= id < |s.payments| && 0 <= other < |s.payments| && amount > 0
    requires s.payments[id].status == Succeeded || s.payments[id].status == Refunded
    requires RefundMade(s, t, id, amount, accepted)
    ensures other < |t.payments| && PaymentStep(s, t, a, other)
  {
    AmountCounted(s.refunds, Refund(id, amount, if accepted then RefundSucceeded else RefundFailed), id);
  }

  lemma AmountCounted(rs: seq<Refund>, r: Refund, id: int)
    ensures SucceededRefunds(rs + [r], id)
            == SucceededRefunds(rs, id) + if r.payment == id && r.status == RefundSucceeded then r.amount else 0
  {
    assert (rs + [r])[..|rs|] == rs;
  }

  /** In every run a payment changes status only by a webhook, by expiring, or by a refund that reaches its amount. */
  lemma PaymentStepsOverAllRuns(providers: set<int>, actions: seq<Action>, a: Action, id: int)
    requires 0 <= id < |Run(Empty(providers), actions).books.payments|
    ensures var s, t := Run(Empty(providers), actions).books, Next(Run(Empty(providers), actions), a).books;
            id < |t.payments| && PaymentStep(s, t, a, id)
  {
    ReachableSound(providers, actions);
    var y := Run(Empty(providers), actions);
    if a.WorkerLists? || a.WorkerClaims? || a.WorkerSubmits? || a.WorkerSettles? || a.WorkerCrashes? {
      WorkersLeaveBookings(y, a);
    } else {
      BooksPaymentStep(y.books, a, id);
    }
  }

  /** The tables of a worker's step differ in payouts and earnings alone. */
  lemma WorkersLeaveBookings(y: System, a: Action)
    requires a.WorkerLists? || a.WorkerClaims? || a.WorkerSubmits? || a.WorkerSettles? || a.WorkerCrashes?
    ensures var s, t := y.books, Next(y, a).books;
            t.bookings == s.bookings && t.payments == s.payments && t.refunds == s.refunds && t.providers == s.providers
  {
  }

  /**
   In every run: an appointment is confirmed only by a step in which one of its payments becomes SUCCEEDED, loses a
   pending payment's place only by one of its payments failing or by its own cancellation, and no step reopens it.
   */
  lemma StatusStepsOverAllRuns(providers: set<int>, actions: seq<Action>, a: Action, b: int)
    requires 0 <= b < |Run(Empty(providers), actions).books.bookings|
    ensures var s, t := Run(Empty(providers), actions).books, Next(Run(Empty(providers), actions), a).books;
            b < |t.bookings| && StatusStep(s, t, a, b) && RowStep(s, t, a, b)
  {
    ReachableSound(providers, actions);
    var y := Run(Empty(providers), actions);
    if a.WorkerLists? || a.WorkerClaims? || a.WorkerSubmits? || a.WorkerSettles? || a.WorkerCrashes? {
      WorkersLeaveBookings(y, a);
    } else {
      BooksStep(y.books, a, b);
    }
  }

  /** The rows a step adds: an open appointment as it was booked, or a payment of an appointment, to be acted on. */
  predicate RowsAdded(s: Snapshot, t: Snapshot, a: Action) {
    && |s.bookings| <= |t.bookings| && |s.payments| <= |t.payments|
    && t.bookings[|s.bookings|..]
       == (if a.NewBooking? && IsOpen(a.status) then [Booking(a.provider, a.startsAt, a.status)] else [])
    && t.payments[|s.payments|..]
       == (if a.NewCheckout? && 0 <= a.booking < |s.bookings|
           then [Payment(a.booking, a.amount, a.currency, a.createdAt, a.isDeposit, RequiresAction)] else [])
  }

  lemma BooksRowsAdded(s: Snapshot, a: Action)
    requires JointSound(s)
    ensures RowsAdded(s, BooksAfter(s, a), a)
  {
    match a
    case Webhook(id, status, config) =>
      SkippedWebhook(s, id, status, config);
      if 0 <= id < |s.payments| && !Skips(s.payments[id].status, status) {
        AppliedWebhook(s, id, status, config);
      }
    case Sweep(cutoff, faults) => SweepEffect(s, cutoff, faults);
    case CancelBooking(b, service, now, accepted) =>
      CancellationAccepted(s, b, service, now, accepted);
      if 0 <= b < |s.bookings| && IsOpen(s.bookings[b].status) {
        CancellationEffect(s, b, service, now, accepted);
      }
    case RequestRefund(id, amount, accepted) =>
      if RefundAllowed(s, id, amount) {
        RefundEffect(s, id, amount, accepted);
      }
    case _ =>
  }

  /** In every run only a booking adds an appointment and only a checkout adds a payment. */
  lemma RowsAddedOverAllRuns(providers: set<int>, actions: seq<Action>, a: Action)
    ensures RowsAdded(Run(Empty(providers), actions).books, Next(Run(Empty(providers), actions), a).books, a)
  {
    ReachableSound(providers, actions);
    var y := Run(Empty(providers), actions);
    if a.WorkerLists? || a.WorkerClaims? || a.WorkerSubmits? || a.WorkerSettles? || a.WorkerCrashes? {
      WorkersLeaveBookings(y, a);
    } else {
      BooksRowsAdded(y.books, a);
    }
  }
}
