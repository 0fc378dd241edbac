/**
 Whose money an earning is, over every run: its payment's appointment's provider, in the payment's currency, and the
 payment was paid. Steps move its amounts and its link, never its owner.
 */
module EarningOrigins {
  import opened Options
  import opened Statuses
  import opened Commission
  import opened Earnings
  import opened Books
  import opened Ledger
  import opened Payments
  import opened MoneyRuns
  import opened MoneyTheorems
  import opened RefundEffects
  import opened PaymentEffects
  import opened PayoutEffects

  /** The earning belongs to a payment that was paid, and to the provider whose appointment was paid for. */
  predicate Belongs(s: Snapshot, e: Earning) {
    && 0 <= e.payment < |s.payments|
    && var p := s.payments[e.payment];
       && (p.status == Succeeded || p.status == Refunded)
       && e.appointment == p.appointment && e.currency == p.currency && e.gross == p.amount
       && 0 <= p.appointment < |s.bookings| && e.provider == s.bookings[p.appointment].provider
  }

  predicate SameOwner(e: Earning, f: Earning) {
    && f.provider == e.provider && f.appointment == e.appointment && f.payment == e.payment
    && f.gross == e.gross && f.fee == e.fee && f.currency == e.currency
  }

  /** Rows an earning refers to may only gain statuses that keep it paid. */
  predicate RowsKept(s: Snapshot, t: Snapshot) {
    && |s.payments| <= |t.payments| && |s.bookings| <= |t.bookings|
    && (forall i :: 0 <= i < |s.payments| ==> PaymentEvolves(s.payments[i], t.payments[i]))
    && (forall b :: 0 <= b < |s.bookings| ==> t.bookings[b].provider == s.bookings[b].provider)
  }

  lemma StillBelongs(s: Snapshot, t: Snapshot, e: Earning, f: Earning)
    requires Belongs(s, e) && RowsKept(s, t) && SameOwner(e, f)
    ensures Belongs(t, f)
  {
    assert PaymentEvolves(s.payments[e.payment], t.payments[e.payment]);
  }

  lemma StepKeepsRows(y: System, a: Action)
    requires SystemSound(y)
    ensures RowsKept(y.books, Next(y, a).books)
  {
    NextEvolves(y, a);
    forall b | 0 <= b < |y.books.bookings|
      ensures b < |Next(y, a).books.bookings|
              && Next(y, a).books.bookings[b].provider == y.books.bookings[b].provider
    {
      if a.WorkerLists? || a.WorkerClaims? || a.WorkerSubmits? || a.WorkerSettles? || a.WorkerCrashes? {
        WorkersLeaveBookings(y, a);
      } else {
        BooksStep(y.books, a, b);
      }
    }
  }

  /** Every earning of `t` has the owner of the one of `s` in its place, and one past the end belongs. */
  predicate OwnersKept(s: Snapshot, t: Snapshot) {
    && |s.earnings| <= |t.earnings|
    && (forall i :: 0 <= i < |s.earnings| ==> SameOwner(s.earnings[i], t.earnings[i]))
    && (forall i :: |s.earnings| <= i < |t.earnings| ==> Belongs(t, t.earnings[i]))
  }

  lemma WebhookOwners(s: Snapshot, id: int, status: PaymentStatus, config: CommissionConfig)
    requires JointSound(s)
    ensures OwnersKept(s, Committed(s, StatusMarked(s, id, status, config)))
  {
    if 0 <= id < |s.payments| && !Skips(s.payments[id].status, status) {
      AppliedWebhook(s, id, status, config);
      var r := StatusMarked(s, id, status, config);
      if r.Ok? {
        assert forall i :: 0 <= i < |s.earnings| ==> r.value.earnings[i] == r.value.earnings[..|s.earnings|][i];
      }
    } else {
      SkippedWebhook(s, id, status, config);
    }
  }

  lemma CancelOwners(s: Snapshot, b: int, service: Option<ServicePolicy>, now: int, accepted: bool)
    requires JointSound(s)
    ensures OwnersKept(s, Committed(s, BookingCancelled(s, b, service, now, accepted)))
  {
    CancellationAccepted(s, b, service, now, accepted);
    if 0 <= b < |s.bookings| && IsOpen(s.bookings[b].status) {
      CancellationEffect(s, b, service, now, accepted);
    }
  }

  lemma BooksOwners(s: Snapshot, a: Action)
    requires JointSound(s)
    ensures OwnersKept(s, BooksAfter(s, a))
  {
    match a
    case Webhook(id, status, config) => WebhookOwners(s, id, status, config);
    case Sweep(cutoff, faults) => SweepEffect(s, cutoff, faults);
    case CancelBooking(b, service, now, accepted) => CancelOwners(s, b, service, now, accepted);
    case RequestRefund(id, amount, accepted) => RefundOwners(s, id, amount, accepted);
    case CreatePayout(provider) => PayoutOwners(s, provider);
    case _ =>
  }

  lemma RefundOwners(s: Snapshot, id: int, amount: int, accepted: bool)
    requires JointSound(s)
    ensures OwnersKept(s, Committed(s, RefundCreated(s, id, amount, accepted)))
  {
    if RefundAllowed(s, id, amount) {
      RefundEffect(s, id, amount, accepted);
    }
  }

  lemma PayoutOwners(s: Snapshot, provider: int)
    ensures OwnersKept(s, Committed(s, PayoutCreated(s, provider)))
  {
    if PayoutCreated(s, provider).Ok? {
      PayoutCreatedEffect(s, provider);
    }
  }

  lemma WorkerOwners(y: System, a: Action)
    requires SystemSound(y)
    requires a.WorkerLists? || a.WorkerClaims? || a.WorkerSubmits? || a.WorkerSettles? || a.WorkerCrashes?
    ensures OwnersKept(y.books, Next(y, a).books)
  {
    if a.WorkerSettles? && StateOf(y, a.worker).Answered? {
      assert WorkerSound(y.workers[a.worker], y.books.payouts, y.log);
      Settles(y, a.worker, a.fault);
      AnswerOwners(y.books, StateOf(y, a.worker).id, StateOf(y, a.worker).answer);
    } else {
      NoAnswerNoEarnings(y, a);
    }
  }

  lemma AnswerOwners(s: Snapshot, k: int, answer: Answer)
    requires 0 <= k < |s.payouts|
    ensures OwnersKept(s, AnsweredBooks(s, k, answer))
  {
  }

  lemma NoAnswerNoEarnings(y: System, a: Action)
    requires a.WorkerLists? || a.WorkerClaims? || a.WorkerSubmits? || a.WorkerSettles? || a.WorkerCrashes?
    requires a.WorkerSettles? ==> !StateOf(y, a.worker).Answered?
    ensures Next(y, a).books.earnings == y.books.earnings
  {
  }

  ghost predicate AllBelong(s: Snapshot) {
    forall i :: 0 <= i < |s.earnings| ==> Belongs(s, s.earnings[i])
  }

  lemma StepBelongs(y: System, a: Action)
    requires SystemSound(y) && AllBelong(y.books)
    ensures AllBelong(Next(y, a).books)
  {
    var s, t := y.books, Next(y, a).books;
    StepKeepsRows(y, a);
    if a.WorkerLists? || a.WorkerClaims? || a.WorkerSubmits? || a.WorkerSettles? || a.WorkerCrashes? {
      WorkerOwners(y, a);
    } else {
      BooksOwners(s, a);
    }
    forall i | 0 <= i < |t.earnings| ensures Belongs(t, t.earnings[i]) {
      if i < |s.earnings| {
        StillBelongs(s, t, s.earnings[i], t.earnings[i]);
      }
    }
  }

  /** In every reachable state every earning belongs to its payment and its provider. */
  lemma {:induction false} EarningsBelongOverAllRuns(providers: set<int>, actions: seq<Action>)
    ensures AllBelong(Run(Empty(providers), actions).books)
    decreases |actions|
  {
    if actions != [] {
      var before := actions[..|actions| - 1];
      EarningsBelongOverAllRuns(providers, before);
      ReachableSound(providers, before);
      StepBelongs(Run(Empty(providers), before), actions[|actions| - 1]);
    }
  }
}
