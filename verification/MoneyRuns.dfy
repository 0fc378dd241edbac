/**
 All money steps as one machine: bookings, webhooks, expiry sweeps, refunds, cancellations, payouts, and
 any number of payout workers that may crash between any two of their steps. Every theorem is about
 every sequence of actions; an action that is not enabled, or that raises, leaves the tables alone.
 */
module MoneyRuns {
  import opened Options
  import opened Statuses
  import opened Commission
  import opened Earnings
  import opened Books
  import opened Ledger
  import opened Payments

  /** What the external payout provider did with a submission. */
  datatype Answer = Accepted(reference: string) | Rejected(reference: string) | Raised

  datatype Worker =
    | Idle
    | Listed(queue: seq<int>)
    | Claimed(id: int, queue: seq<int>)
    | Answered(id: int, answer: Answer, queue: seq<int>)

  /** `log` lists the payouts submitted to the external provider, in order. */
  datatype System = System(books: Snapshot, workers: map<int, Worker>, log: seq<int>)

  datatype Action =
    | NewBooking(provider: int, startsAt: int, status: AppointmentStatus)
    | Reschedule(booking: int, newStart: int)
    | CancelBooking(booking: int, service: Option<ServicePolicy>, now: int, accepted: bool)
    | NewCheckout(booking: int, amount: nat, currency: string, createdAt: int, isDeposit: bool)
    | Webhook(payment: int, paymentStatus: PaymentStatus, config: CommissionConfig)
    | Sweep(cutoff: int, faults: set<int>)
    | RequestRefund(payment: int, refundAmount: int, accepted: bool)
    | CreatePayout(provider: int)
    | WorkerLists(worker: int)
    | WorkerClaims(worker: int, fault: bool)
    | WorkerSubmits(worker: int, answer: Answer)
    | WorkerSettles(worker: int, fault: bool)
    | WorkerCrashes(worker: int)

  function Committed(s: Snapshot, r: Result<Snapshot>): Snapshot {
    if r.Ok? then r.value else s
  }

  function PendingIds(ps: seq<Payout>): (ids: seq<int>)
    ensures forall k :: k in ids <==> 0 <= k < |ps| && ps[k].status == PayoutPending
  {
    if ps == [] then []
    else PendingIds(ps[..|ps| - 1]) + if ps[|ps| - 1].status == PayoutPending then [|ps| - 1] else []
  }

  function StateOf(y: System, w: int): Worker {
    if w in y.workers then y.workers[w] else Idle
  }

  function Claim(s: Snapshot, k: int): Snapshot
    requires 0 <= k < |s.payouts|
  {
    s.(payouts := s.payouts[k := s.payouts[k].(status := Processing)])
  }

  /** The tables after the action of a client or an operator. */
  function BooksAfter(s: Snapshot, a: Action): Snapshot {
    match a
    case NewBooking(provider, startsAt, status) =>
      if Blocking(status) then s.(bookings := s.bookings + [Booking(provider, startsAt, status)]) else s
    case Reschedule(b, newStart) =>
      if 0 <= b < |s.bookings| && Blocking(s.bookings[b].status)
      then s.(bookings := s.bookings[b := s.bookings[b].(startsAt := newStart)]) else s
    case CancelBooking(b, service, now, accepted) =>
      Committed(s, BookingCancelled(s, b, service, now, accepted))
    case NewCheckout(b, amount, currency, createdAt, isDeposit) =>
      if 0 <= b < |s.bookings|
      then s.(payments := s.payments + [Payment(b, amount, currency, createdAt, isDeposit, RequiresAction)]) else s
    case Webhook(id, status, config) => Committed(s, StatusMarked(s, id, status, config))
    case Sweep(cutoff, faults) => Swept(s, cutoff, faults)
    case RequestRefund(id, amount, accepted) => Committed(s, RefundCreated(s, id, amount, accepted))
    case CreatePayout(provider) => Committed(s, PayoutCreated(s, provider))
    case _ => s
  }

  /** A worker's next step over its queue, one committed transaction or external call at a time. */
  function Next(y: System, a: Action): System {
    match a
    case WorkerLists(w) =>
      if StateOf(y, w) == Idle then y.(workers := y.workers[w := Listed(PendingIds(y.books.payouts))]) else y
    case WorkerClaims(w, fault) =>
      (match StateOf(y, w)
       case Listed(queue) =>
         if queue == [] then y.(workers := y.workers[w := Idle])
         else if fault || !(0 <= queue[0] < |y.books.payouts|) || y.books.payouts[queue[0]].status != PayoutPending
         then y.(workers := y.workers[w := Listed(queue[1..])])
         else y.(books := Claim(y.books, queue[0]), workers := y.workers[w := Claimed(queue[0], queue[1..])])
       case _ => y)
    case WorkerSubmits(w, answer) =>
      (match StateOf(y, w)
       case Claimed(id, queue) => y.(workers := y.workers[w := Answered(id, answer, queue)], log := y.log + [id])
       case _ => y)
    case WorkerSettles(w, fault) =>
      (match StateOf(y, w)
       case Answered(id, answer, queue) =>
         var settled := y.workers[w := Listed(queue)];
         if fault then
           // A failed commit falls through to marking the payout failed; when that fails too the worker moves on.
           y.(workers := if answer == Raised then settled else y.workers[w := Answered(id, Raised, queue)])
         else
           (match answer
            case Accepted(reference) =>
              y.(books := Committed(y.books, PayoutCompleted(y.books, id, Some(reference))), workers := settled)
            case Rejected(reference) =>
              y.(books := Committed(y.books, PayoutFailed(y.books, id, Some(reference))), workers := settled)
            case Raised =>
              y.(books := Committed(y.books, PayoutFailed(y.books, id, None)), workers := settled))
       case _ => y)
    case WorkerCrashes(w) => y.(workers := y.workers[w := Idle])
    case _ => y.(books := BooksAfter(y.books, a))
  }

  function Run(y: System, actions: seq<Action>): System
    decreases |actions|
  {
    if actions == [] then y else Next(Run(y, actions[..|actions| - 1]), actions[|actions| - 1])
  }

  function Empty(providers: set<int>): System {
    System(Snapshot(providers, [], [], [], [], []), map[], [])
  }

  // ----- The joint invariant of payments, bookings, refunds and earnings ----------------------------

  predicate StatusSound(s: Snapshot, id: int)
    requires 0 <= id < |s.payments| && PaymentsHaveBookings(s)
  {
    var p := s.payments[id];
    && (p.status == Succeeded || p.status == PaymentFailed || p.status == Canceled
        ==> s.bookings[p.appointment].status != PendingPayment)
    && (p.status == Succeeded ==> FindByPayment(s.earnings, id).Some?)
  }

  predicate EarningsMatch(s: Snapshot) {
    forall i :: 0 <= i < |s.earnings| ==>
      0 <= s.earnings[i].payment < |s.payments| && s.earnings[i].gross == s.payments[s.earnings[i].payment].amount
  }

  predicate RefundsSound(s: Snapshot) {
    && (forall k :: 0 <= k < |s.refunds| ==> 0 <= s.refunds[k].payment < |s.payments| && s.refunds[k].amount > 0)
    && (forall id :: 0 <= id < |s.payments| ==> SucceededRefunds(s.refunds, id) <= s.payments[id].amount)
  }

  ghost predicate JointSound(s: Snapshot) {
    && PaymentsHaveBookings(s)
    && (forall id :: 0 <= id < |s.payments| ==> StatusSound(s, id))
    && EarningsMatch(s)
    && RefundsSound(s)
    && Balanced(s.earnings, s.payouts)
  }

  // ----- What every step preserves, one table change at a time --------------------------------------

  /** Two earnings tables with the same payments and amounts row by row. */
  predicate SameOrigins(es: seq<Earning>, fs: seq<Earning>) {
    |es| == |fs| && forall i :: 0 <= i < |es| ==> es[i].payment == fs[i].payment && es[i].gross == fs[i].gross
  }

  lemma OriginsKeep(es: seq<Earning>, fs: seq<Earning>, id: int)
    requires SameOrigins(es, fs)
    ensures FindByPayment(es, id).Some? == FindByPayment(fs, id).Some?
  {
    var a, b := FindByPayment(es, id), FindByPayment(fs, id);
    if a.Some? {
      assert fs[a.value].payment == id;
    }
    if b.Some? {
      assert es[b.value].payment == id;
    }
  }

  /** Replacing the ledger by one with the same origins keeps everything but the balance, which is given. */
  lemma LedgerChangeKeeps(s: Snapshot, es: seq<Earning>, ps: seq<Payout>)
    requires JointSound(s) && SameOrigins(s.earnings, es) && Balanced(es, ps)
    ensures JointSound(s.(earnings := es, payouts := ps))
  {
    var s' := s.(earnings := es, payouts := ps);
    forall id | 0 <= id < |s'.payments| ensures StatusSound(s', id) {
      assert StatusSound(s, id);
      OriginsKeep(s.earnings, es, id);
    }
  }

  /** Bookings may change as long as no row becomes `PendingPayment` that was not. */
  lemma BookingChangeKeeps(s: Snapshot, bs: seq<Booking>)
    requires JointSound(s) && |s.bookings| <= |bs|
    requires forall i ::
                 0 <= i < |s.bookings| && bs[i].status == PendingPayment ==> s.bookings[i].status == PendingPayment
    ensures JointSound(s.(bookings := bs))
  {
    var s' := s.(bookings := bs);
    forall id | 0 <= id < |s'.payments| ensures StatusSound(s', id) {
      assert StatusSound(s, id);
    }
  }

  lemma CheckoutKeeps(s: Snapshot, p: Payment)
    requires JointSound(s) && 0 <= p.appointment < |s.bookings| && p.status == RequiresAction
    ensures JointSound(s.(payments := s.payments + [p]))
  {
    var s' := s.(payments := s.payments + [p]);
    forall id | 0 <= id < |s'.payments| ensures StatusSound(s', id) {
      if id < |s.payments| {
        assert StatusSound(s, id);
      }
    }
    NoRefundsYet(s.refunds, |s.payments|);
  }

  lemma {:induction false} NoRefundsYet(rs: seq<Refund>, id: int)
    requires forall k :: 0 <= k < |rs| ==> rs[k].payment != id
    ensures SucceededRefunds(rs, id) == 0
  {
    if rs != [] {
      NoRefundsYet(rs[..|rs| - 1], id);
    }
  }

  lemma StatusMarkedKeeps(s: Snapshot, id: int, status: PaymentStatus, config: CommissionConfig)
    requires JointSound(s)
    ensures JointSound(Committed(s, StatusMarked(s, id, status, config)))
  {
    if 0 <= id < |s.payments| && !Ignored(s.payments[id].status, status) {
      assert StatusSound(s, id);
      var a := s.payments[id].appointment;
      var booking :=
        if status == Succeeded then ConfirmPaid(s.bookings[a])
        else if status == PaymentFailed || status == Canceled then CancelUnpaid(s.bookings[a])
        else s.bookings[a];
      var s1 := s.(bookings := s.bookings[a := booking]);
      BookingChangeKeeps(s, s1.bookings);
      var s2 := s1.(payments := s.payments[id := s.payments[id].(status := status)]);
      if status == Succeeded {
        SucceededKeeps(s1, id, config);
      } else {
        forall i | 0 <= i < |s2.payments| ensures StatusSound(s2, i) {
          assert StatusSound(s1, i);
        }
        assert JointSound(s2);
      }
      assert s.bookings[a := s.bookings[a]] == s.bookings;
    }
  }

  lemma SucceededKeeps(s: Snapshot, id: int, config: CommissionConfig)
    requires JointSound(s) && 0 <= id < |s.payments|
    requires s.bookings[s.payments[id].appointment].status != PendingPayment
    ensures var s2 := s.(payments := s.payments[id := s.payments[id].(status := Succeeded)]);
            EarningEnsured(s2, id, config).Ok? ==> JointSound(EarningEnsured(s2, id, config).value)
  {
    var s2 := s.(payments := s.payments[id := s.payments[id].(status := Succeeded)]);
    var r := EarningEnsured(s2, id, config);
    if r.Ok? {
      var s3 := r.value;
      if FindByPayment(s2.earnings, id).None? {
        AddEarningKeeps(s.earnings, s.payouts, s3.earnings[|s.earnings|]);
      }
      forall i | 0 <= i < |s3.payments| ensures StatusSound(s3, i) {
        assert StatusSound(s, i);
        var found := FindByPayment(s.earnings, i);
        if found.Some? {
          assert s3.earnings[found.value].payment == i;
        } else if i == id {
          assert s3.earnings[|s.earnings|].payment == id;
        }
      }
    }
  }

  lemma SweepKeeps(s: Snapshot, ids: seq<int>, faults: set<int>)
    requires JointSound(s)
    ensures JointSound(ExpireAll(s, ids, faults))
    decreases |ids|
  {
    if ids != [] {
      var rest := ids[..|ids| - 1];
      SweepKeeps(s, rest, faults);
      ExpireOneKeeps(ExpireAll(s, rest, faults), ids[|ids| - 1]);
    }
  }

  lemma ExpireOneKeeps(s: Snapshot, id: int)
    requires JointSound(s)
    ensures JointSound(ExpireOne(s, id))
  {
    if 0 <= id < |s.payments| && Unpaid(s.payments[id].status) {
      var a := s.payments[id].appointment;
      var s1 := s.(bookings := s.bookings[a := CancelUnpaid(s.bookings[a])]);
      BookingChangeKeeps(s, s1.bookings);
      var s' := ExpireOne(s, id);
      forall i | 0 <= i < |s'.payments| ensures StatusSound(s', i) {
        assert StatusSound(s1, i);
      }
    }
  }

  lemma {:induction false} SucceededRefundsUpdate(rs: seq<Refund>, k: int, r: Refund, id: int)
    requires 0 <= k < |rs|
    ensures SucceededRefunds(rs[k := r], id)
            == SucceededRefunds(rs, id) - SucceededRefunds([rs[k]], id) + SucceededRefunds([r], id)
  {
    var n := |rs| - 1;
    if k < n {
      SucceededRefundsUpdate(rs[..n], k, r, id);
      assert rs[k := r][..n] == rs[..n][k := r];
    } else {
      assert rs[k := r][..n] == rs[..n];
    }
  }

  /** One refund, in the step that settles it: the running total, the payment's status, and the invariant. */
  lemma RefundCreatedKeeps(s: Snapshot, id: int, amount: int, accepted: bool)
    requires JointSound(s) && RefundAllowed(s, id, amount)
    ensures var s' := RefundCreated(s, id, amount, accepted).value;
            && JointSound(s')
            && (forall j :: SucceededRefunds(s'.refunds, j)
                            == SucceededRefunds(s.refunds, j) + if j == id && accepted then amount else 0)
            && s'.bookings == s.bookings && |s'.payments| == |s.payments|
            && (forall j :: 0 <= j < |s.payments| ==>
                  s'.payments[j] == if j == id && SucceededRefunds(s'.refunds, id) >= s.payments[id].amount && accepted
                                    then s.payments[j].(status := Refunded) else s.payments[j])
            && SameOrigins(s.earnings, s'.earnings) && s'.payouts == s.payouts
  {
    var s' := RefundCreated(s, id, amount, accepted).value;
    RefundRow(s, id, amount, accepted);
    if accepted {
      var es := RefundEarning(s.earnings, id, amount);
      RefundedLedger(s, id, amount);
      forall j | 0 <= j < |s'.payments| ensures StatusSound(s', j) {
        assert StatusSound(s.(earnings := es), j);
      }
    } else {
      forall j | 0 <= j < |s'.payments| ensures StatusSound(s', j) {
        assert StatusSound(s, j);
      }
    }
  }

  lemma RefundedLedger(s: Snapshot, id: int, amount: int)
    requires JointSound(s) && amount > 0
    ensures JointSound(s.(earnings := RefundEarning(s.earnings, id, amount)))
    ensures SameOrigins(s.earnings, RefundEarning(s.earnings, id, amount))
  {
    RefundEarningKeeps(s.earnings, s.payouts, id, amount);
    RefundOrigins(s.earnings, id, amount);
    LedgerChangeKeeps(s, RefundEarning(s.earnings, id, amount), s.payouts);
  }

  /** A settled refund is one more row, and moves the total of its payment alone. */
  lemma RefundRow(s: Snapshot, id: int, amount: int, accepted: bool)
    requires RefundAllowed(s, id, amount)
    ensures var s' := RefundCreated(s, id, amount, accepted).value;
            && s'.refunds == s.refunds + [Refund(id, amount, if accepted then RefundSucceeded else RefundFailed)]
            && forall j :: SucceededRefunds(s'.refunds, j)
                           == SucceededRefunds(s.refunds, j) + if j == id && accepted then amount else 0
  {
    var k := |s.refunds|;
    var pending, final := Refund(id, amount, RefundPending),
      Refund(id, amount, if accepted then RefundSucceeded else RefundFailed);
    var s' := RefundCreated(s, id, amount, accepted).value;
    assert (s.refunds + [pending])[k := final] == s.refunds + [final];
    forall j
        ensures SucceededRefunds(s'.refunds, j)
                == SucceededRefunds(s.refunds, j) + if j == id && accepted then amount else 0 {
      assert s'.refunds[..k] == s.refunds;
    }
  }

  lemma RefundOrigins(es: seq<Earning>, payment: int, amount: int)
    ensures SameOrigins(es, RefundEarning(es, payment, amount))
  {
  }

  lemma BookingCancelledKeeps(s: Snapshot, b: int, service: Option<ServicePolicy>, now: int, accepted: bool)
    requires JointSound(s)
    ensures JointSound(Committed(s, BookingCancelled(s, b, service, now, accepted)))
  {
    if 0 <= b < |s.bookings| && Blocking(s.bookings[b].status) {
      var s1 := s.(bookings := s.bookings[b := s.bookings[b].(status := Cancelled)]);
      BookingChangeKeeps(s, s1.bookings);
      var latest := LatestPayment(s.payments, b);
      if latest.Some? {
        RefundRequestKeeps(s1, latest.value, CancellationRefund(s1, latest.value, service, now), accepted);
      }
    }
  }

  lemma RefundRequestKeeps(s: Snapshot, id: int, amount: int, accepted: bool)
    requires JointSound(s)
    ensures JointSound(Committed(s, RefundCreated(s, id, amount, accepted)))
  {
    if RefundAllowed(s, id, amount) {
      RefundCreatedKeeps(s, id, amount, accepted);
    }
  }

  lemma PayoutRequestKeeps(s: Snapshot, provider: int)
    requires JointSound(s)
    ensures JointSound(Committed(s, PayoutCreated(s, provider)))
  {
    var r := PayoutCreated(s, provider);
    if r.Ok? {
      PayoutCreatedKeeps(s, provider);
      LedgerChangeKeeps(s, r.value.earnings, r.value.payouts);
    }
  }

  /** Every action of a client or operator keeps the joint invariant. */
  lemma BooksAfterKeeps(s: Snapshot, a: Action)
    requires JointSound(s)
    ensures JointSound(BooksAfter(s, a))
  {
    match a
    case NewBooking(provider, startsAt, status) =>
      BookingChangeKeeps(s, s.bookings + [Booking(provider, startsAt, status)]);
    case Reschedule(b, newStart) =>
      if 0 <= b < |s.bookings| {
        BookingChangeKeeps(s, s.bookings[b := s.bookings[b].(startsAt := newStart)]);
      }
    case CancelBooking(b, service, now, accepted) => BookingCancelledKeeps(s, b, service, now, accepted);
    case NewCheckout(b, amount, currency, createdAt, isDeposit) =>
      if 0 <= b < |s.bookings| {
        CheckoutKeeps(s, Payment(b, amount, currency, createdAt, isDeposit, RequiresAction));
      }
    case Webhook(id, status, config) => StatusMarkedKeeps(s, id, status, config);
    case Sweep(cutoff, faults) => SweepKeeps(s, ExpiredIds(s.payments, cutoff), faults);
    case RequestRefund(id, amount, accepted) => RefundRequestKeeps(s, id, amount, accepted);
    case CreatePayout(provider) => PayoutRequestKeeps(s, provider);
    case _ =>
  }
}
