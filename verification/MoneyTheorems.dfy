/**
 The theorems about all runs of the money machine: the joint invariant, what is absorbing, the cap on
 refunds, at most one submission per payout, and the conservation law.
 */
module MoneyTheorems {
  import opened Options
  import opened Statuses
  import opened Commission
  import opened Earnings
  import opened Books
  import opened Ledger
  import opened Payments
  import opened MoneyRuns

  // ----- Payout workers -----------------------------------------------------------------------

  function Owned(w: Worker): Option<int> {
    match w
    case Claimed(id, _) => Some(id)
    case Answered(id, _, _) => Some(id)
    case _ => None
  }

  predicate Distinct(log: seq<int>) {
    forall i, j :: 0 <= i < j < |log| ==> log[i] != log[j]
  }

  predicate WorkerSound(w: Worker, ps: seq<Payout>, log: seq<int>) {
    match Owned(w)
    case None => true
    case Some(id) => 0 <= id < |ps| && ps[id].status == Processing && (id in log <==> w.Answered?)
  }

  /** A payout in hand belongs to one worker; one that is still pending was never submitted. */
  ghost predicate WorkersSound(y: System) {
    && Distinct(y.log)
    && (forall id :: id in y.log ==> 0 <= id < |y.books.payouts| && y.books.payouts[id].status != PayoutPending)
    && (forall w :: w in y.workers ==> WorkerSound(y.workers[w], y.books.payouts, y.log))
    && (forall v, w :: v in y.workers && w in y.workers && v != w && Owned(y.workers[v]).Some?
                       ==> Owned(y.workers[v]) != Owned(y.workers[w]))
  }

  ghost predicate SystemSound(y: System) {
    JointSound(y.books) && WorkersSound(y)
  }

  /** Operators and clients create payouts but never touch an existing one. */
  lemma BooksAfterPayouts(s: Snapshot, a: Action)
    ensures s.payouts <= BooksAfter(s, a).payouts
    ensures BooksAfter(s, a).payouts == s.payouts || a.CreatePayout?
  {
    if a.Sweep? {
      SweepPayouts(s, ExpiredIds(s.payments, a.cutoff), a.faults);
    }
  }

  lemma {:induction false} SweepPayouts(s: Snapshot, ids: seq<int>, faults: set<int>)
    ensures ExpireAll(s, ids, faults).payouts == s.payouts
    ensures ExpireAll(s, ids, faults).earnings == s.earnings
    ensures ExpireAll(s, ids, faults).refunds == s.refunds
    decreases |ids|
  {
    if ids != [] {
      SweepPayouts(s, ids[..|ids| - 1], faults);
    }
  }

  lemma NextKeeps(y: System, a: Action)
    requires SystemSound(y)
    ensures SystemSound(Next(y, a))
  {
    match a
    case WorkerLists(w) => WorkerMoves(y, w, Next(y, a));
    case WorkerClaims(w, fault) => ClaimKeeps(y, w, fault);
    case WorkerSubmits(w, answer) => SubmitKeeps(y, w, answer);
    case WorkerSettles(w, fault) => SettleKeeps(y, w, fault);
    case WorkerCrashes(w) => WorkerMoves(y, w, Next(y, a));
    case _ =>
      BooksAfterKeeps(y.books, a);
      BooksAfterPayouts(y.books, a);
  }

  /** A worker that gives up or keeps what it owns, over unchanged tables. */
  lemma WorkerMoves(y: System, w: int, z: System)
    requires SystemSound(y) && z.books == y.books && z.log == y.log
    requires z.workers == y.workers || (z.workers == y.workers[w := StateOf(z, w)] && Owned(StateOf(z, w)) == None)
    ensures SystemSound(z)
  {
    forall v | v in z.workers ensures WorkerSound(z.workers[v], z.books.payouts, z.log) {
      if v in y.workers {
        assert WorkerSound(y.workers[v], y.books.payouts, y.log);
      }
    }
  }

  lemma ClaimKeeps(y: System, w: int, fault: bool)
    requires SystemSound(y)
    ensures SystemSound(Next(y, WorkerClaims(w, fault)))
  {
    var z := Next(y, WorkerClaims(w, fault));
    if z.books == y.books {
      WorkerMoves(y, w, z);
    } else {
      var id := StateOf(y, w).queue[0];
      StatusChangeKeeps(y.books.earnings, y.books.payouts, id, z.books.payouts[id]);
      LedgerChangeKeeps(y.books, y.books.earnings, z.books.payouts);
      assert z.books == y.books.(earnings := y.books.earnings, payouts := z.books.payouts);
      forall v | v in y.workers && v != w
          ensures WorkerSound(z.workers[v], z.books.payouts, z.log) && Owned(z.workers[v]) != Some(id) {
        assert WorkerSound(y.workers[v], y.books.payouts, y.log);
      }
    }
  }

  lemma SubmitKeeps(y: System, w: int, answer: Answer)
    requires SystemSound(y)
    ensures SystemSound(Next(y, WorkerSubmits(w, answer)))
  {
    var z := Next(y, WorkerSubmits(w, answer));
    if StateOf(y, w).Claimed? {
      assert WorkerSound(y.workers[w], y.books.payouts, y.log);
      forall v | v in y.workers && v != w ensures WorkerSound(z.workers[v], z.books.payouts, z.log) {
        assert WorkerSound(y.workers[v], y.books.payouts, y.log);
      }
    }
  }

  lemma ReleaseOrigins(s: Snapshot, k: int, reference: Option<string>)
    requires 0 <= k < |s.payouts|
    ensures SameOrigins(s.earnings, PayoutFailed(s, k, reference).value.earnings)
  {
  }

  /** Both ways of settling a payout in hand keep the joint invariant and touch no other payout. */
  lemma SettlementKeeps(s: Snapshot, k: int, reference: Option<string>)
    requires JointSound(s) && 0 <= k < |s.payouts| && s.payouts[k].status == Processing
    ensures JointSound(PayoutCompleted(s, k, reference).value)
    ensures JointSound(PayoutFailed(s, k, reference).value)
  {
    var done, failed := PayoutCompleted(s, k, reference).value, PayoutFailed(s, k, reference).value;
    StatusChangeKeeps(s.earnings, s.payouts, k, done.payouts[k]);
    LedgerChangeKeeps(s, s.earnings, done.payouts);
    assert done == s.(earnings := s.earnings, payouts := done.payouts);
    PayoutFailedKeeps(s, k, reference);
    ReleaseOrigins(s, k, reference);
    LedgerChangeKeeps(s, failed.earnings, failed.payouts);
    assert failed == s.(earnings := failed.earnings, payouts := failed.payouts);
  }

  /** Settling writes only the payout in hand, whose worker lets go of it or still holds it. */
  lemma WorkersAfterSettling(y: System, w: int, id: int, z: System)
    requires WorkersSound(y) && w in y.workers && Owned(y.workers[w]) == Some(id) && id in y.log && z.log == y.log
    requires |z.books.payouts| == |y.books.payouts|
    requires forall k :: 0 <= k < |y.books.payouts| && k != id ==> z.books.payouts[k] == y.books.payouts[k]
    requires 0 <= id < |y.books.payouts| && z.books.payouts[id].status != PayoutPending
    requires z.workers == y.workers[w := StateOf(z, w)]
    requires Owned(StateOf(z, w)) == None
             || (StateOf(z, w).Answered? && StateOf(z, w).id == id && z.books.payouts == y.books.payouts)
    ensures WorkersSound(z)
  {
    forall v | v in z.workers ensures WorkerSound(z.workers[v], z.books.payouts, z.log) {
      if v != w {
        assert WorkerSound(y.workers[v], y.books.payouts, y.log);
      } else {
        assert WorkerSound(y.workers[w], y.books.payouts, y.log);
      }
    }
  }

  /** What an answer makes of the tables. */
  function AnsweredBooks(s: Snapshot, k: int, answer: Answer): Snapshot
    requires 0 <= k < |s.payouts|
  {
    match answer
    case Accepted(reference) => PayoutCompleted(s, k, Some(reference)).value
    case Rejected(reference) => PayoutFailed(s, k, Some(reference)).value
    case Raised => PayoutFailed(s, k, None).value
  }

  lemma Settles(y: System, w: int, fault: bool)
    requires StateOf(y, w).Answered? && 0 <= StateOf(y, w).id < |y.books.payouts|
    ensures var z, worker := Next(y, WorkerSettles(w, fault)), StateOf(y, w);
            && z.books == (if fault then y.books else AnsweredBooks(y.books, worker.id, worker.answer))
            && z.log == y.log && z.workers == y.workers[w := StateOf(z, w)]
            && StateOf(z, w) == if fault && worker.answer != Raised then Answered(worker.id, Raised, worker.queue)
                                else Listed(worker.queue)
  {
  }

  lemma AnsweredPayouts(s: Snapshot, k: int, answer: Answer)
    requires 0 <= k < |s.payouts| && s.payouts[k].status == Processing
    ensures var t := AnsweredBooks(s, k, answer);
            && |t.payouts| == |s.payouts| && (t.payouts[k].status == Completed || t.payouts[k].status == Failed)
            && forall j :: 0 <= j < |s.payouts| && j != k ==> t.payouts[j] == s.payouts[j]
  {
  }

  lemma SettleKeeps(y: System, w: int, fault: bool)
    requires SystemSound(y)
    ensures SystemSound(Next(y, WorkerSettles(w, fault)))
  {
    var worker := StateOf(y, w);
    if worker.Answered? {
      assert WorkerSound(y.workers[w], y.books.payouts, y.log);
      Settles(y, w, fault);
      AnsweredPayouts(y.books, worker.id, worker.answer);
      SettlementKeeps(y.books, worker.id, if worker.answer.Raised? then None else Some(worker.answer.reference));
      WorkersAfterSettling(y, w, worker.id, Next(y, WorkerSettles(w, fault)));
    }
  }

  // ----- Two states of one run ------------------------------------------------------------------

  predicate PayoutMoves(p: PayoutStatus, q: PayoutStatus) {
    p == q || (p == PayoutPending && q == Processing) || (p == Processing && (q == Completed || q == Failed))
  }

  predicate PayoutEvolves(p: Payout, q: Payout) {
    && q.provider == p.provider && q.total == p.total && q.currency == p.currency
    && (p.status == q.status || p.status == PayoutPending || (p.status == Processing && q.status != PayoutPending))
  }

  predicate PaymentEvolves(p: Payment, q: Payment) {
    q.appointment == p.appointment && q.amount == p.amount && q.currency == p.currency
        && (Paid(p.status) ==> Paid(q.status))
  }

  predicate EarningEvolves(e: Earning, f: Earning, ps: seq<Payout>) {
    && f.payment == e.payment && f.gross == e.gross && f.fee == e.fee
    && (e.payout.Some? && 0 <= e.payout.value < |ps| && ps[e.payout.value].status == Completed
        ==> f.payout == e.payout && f.status == e.status && f.providerAmount == e.providerAmount)
  }

  /** What a later state of a run may differ in: the absorbing statuses, the frozen rows, the growing totals. */
  ghost predicate Evolves(s: Snapshot, t: Snapshot) {
    && |s.bookings| <= |t.bookings| && |s.payments| <= |t.payments|
    && |s.earnings| <= |t.earnings| && |s.payouts| <= |t.payouts|
    && (forall i :: 0 <= i < |s.bookings| && s.bookings[i].status == Cancelled ==> t.bookings[i].status == Cancelled)
    && (forall i :: 0 <= i < |s.payments| ==> PaymentEvolves(s.payments[i], t.payments[i]))
    && (forall i :: 0 <= i < |s.earnings| ==> EarningEvolves(s.earnings[i], t.earnings[i], s.payouts))
    && (forall k :: 0 <= k < |s.payouts| ==> PayoutEvolves(s.payouts[k], t.payouts[k]))
    && (forall id :: SucceededRefunds(s.refunds, id) <= SucceededRefunds(t.refunds, id))
  }

  lemma EvolvesTransitive(s: Snapshot, t: Snapshot, u: Snapshot)
    requires Evolves(s, t) && Evolves(t, u)
    ensures Evolves(s, u)
  {
    forall i | 0 <= i < |s.payments| ensures PaymentEvolves(s.payments[i], u.payments[i]) {
      assert PaymentEvolves(s.payments[i], t.payments[i]) && PaymentEvolves(t.payments[i], u.payments[i]);
    }
    forall i | 0 <= i < |s.earnings| ensures EarningEvolves(s.earnings[i], u.earnings[i], s.payouts) {
      assert EarningEvolves(s.earnings[i], t.earnings[i], s.payouts)
          && EarningEvolves(t.earnings[i], u.earnings[i], t.payouts);
      var link := s.earnings[i].payout;
      if link.Some? && 0 <= link.value < |s.payouts| {
        assert PayoutEvolves(s.payouts[link.value], t.payouts[link.value]);
      }
    }
    forall k | 0 <= k < |s.payouts| ensures PayoutEvolves(s.payouts[k], u.payouts[k]) {
      assert PayoutEvolves(s.payouts[k], t.payouts[k]) && PayoutEvolves(t.payouts[k], u.payouts[k]);
    }
  }

  lemma ExpireOneEvolves(s: Snapshot, id: int)
    ensures Evolves(s, ExpireOne(s, id))
  {
  }

  lemma SweepEvolves(s: Snapshot, ids: seq<int>, faults: set<int>)
    ensures Evolves(s, ExpireAll(s, ids, faults))
    decreases |ids|
  {
    Same(s);
    if ids != [] {
      var rest := ids[..|ids| - 1];
      SweepEvolves(s, rest, faults);
      Same(ExpireAll(s, rest, faults));
      ExpireOneEvolves(ExpireAll(s, rest, faults), ids[|ids| - 1]);
      EvolvesTransitive(s, ExpireAll(s, rest, faults), ExpireAll(s, ids, faults));
    }
  }

  lemma RefundEvolves(s: Snapshot, id: int, amount: int, accepted: bool)
    requires JointSound(s) && RefundAllowed(s, id, amount)
    ensures Evolves(s, RefundCreated(s, id, amount, accepted).value)
  {
    var t := RefundCreated(s, id, amount, accepted).value;
    RefundCreatedKeeps(s, id, amount, accepted);
    forall i | 0 <= i < |s.earnings| ensures EarningEvolves(s.earnings[i], t.earnings[i], s.payouts) {
      assert Sound(s.earnings[i]);
      ApplyRefundKeeps(s.earnings[i], amount);
    }
  }

  lemma CancelEvolves(s: Snapshot, b: int, service: Option<ServicePolicy>, now: int, accepted: bool)
    requires JointSound(s)
    ensures Evolves(s, Committed(s, BookingCancelled(s, b, service, now, accepted)))
  {
    if 0 <= b < |s.bookings| && Blocking(s.bookings[b].status) {
      var s1 := s.(bookings := s.bookings[b := s.bookings[b].(status := Cancelled)]);
      BookingChangeKeeps(s, s1.bookings);
      assert Evolves(s, s1);
      var latest := LatestPayment(s.payments, b);
      if latest.Some? {
        var amount := CancellationRefund(s1, latest.value, service, now);
        RefundRequestEvolves(s1, latest.value, amount, accepted);
        EvolvesTransitive(s, s1, Committed(s1, RefundCreated(s1, latest.value, amount, accepted)));
      }
    } else {
      Same(s);
    }
  }

  lemma RefundRequestEvolves(s: Snapshot, id: int, amount: int, accepted: bool)
    requires JointSound(s)
    ensures Evolves(s, Committed(s, RefundCreated(s, id, amount, accepted)))
  {
    if RefundAllowed(s, id, amount) {
      RefundEvolves(s, id, amount, accepted);
    } else {
      Same(s);
    }
  }

  lemma WebhookEvolves(s: Snapshot, id: int, status: PaymentStatus, config: CommissionConfig)
    requires JointSound(s)
    ensures Evolves(s, Committed(s, StatusMarked(s, id, status, config)))
  {
    var t := Committed(s, StatusMarked(s, id, status, config));
    WebhookWrites(s, id, status, config);
    assert forall i :: 0 <= i < |s.earnings| ==> t.earnings[i] == s.earnings[i];
  }

  /** A webhook adds to the earnings, and touches neither payouts nor refunds. */
  lemma WebhookWrites(s: Snapshot, id: int, status: PaymentStatus, config: CommissionConfig)
    requires JointSound(s)
    ensures var t := Committed(s, StatusMarked(s, id, status, config));
            && s.earnings <= t.earnings && t.payouts == s.payouts && t.refunds == s.refunds
            && |t.payments| == |s.payments| && |t.bookings| == |s.bookings|
            && (forall i :: 0 <= i < |s.payments| ==> PaymentEvolves(s.payments[i], t.payments[i]))
            && (forall i :: 0 <= i < |s.bookings| && s.bookings[i].status == Cancelled ==>
                  t.bookings[i].status == Cancelled)
  {
  }

  lemma CreatePayoutEvolves(s: Snapshot, provider: int)
    requires JointSound(s)
    ensures Evolves(s, Committed(s, PayoutCreated(s, provider)))
  {
    var r := PayoutCreated(s, provider);
    if r.Ok? {
      var t := r.value;
      forall i | 0 <= i < |s.earnings| ensures EarningEvolves(s.earnings[i], t.earnings[i], s.payouts) {
        assert Sound(s.earnings[i]) && t.earnings[i] == Collect(s.earnings[i], provider, |s.payouts|);
      }
      assert t.bookings == s.bookings && t.payments == s.payments && t.refunds == s.refunds;
      assert s.payouts <= t.payouts;
    }
  }

  lemma BooksAfterEvolves(s: Snapshot, a: Action)
    requires JointSound(s)
    ensures Evolves(s, BooksAfter(s, a))
  {
    match a
    case CancelBooking(b, service, now, accepted) => CancelEvolves(s, b, service, now, accepted);
    case Webhook(id, status, config) => WebhookEvolves(s, id, status, config);
    case Sweep(cutoff, faults) => SweepEvolves(s, ExpiredIds(s.payments, cutoff), faults);
    case RequestRefund(id, amount, accepted) => RefundRequestEvolves(s, id, amount, accepted);
    case CreatePayout(provider) => CreatePayoutEvolves(s, provider);
    case NewBooking(provider, startsAt, status) => BookingsEvolve(s, BooksAfter(s, a).bookings);
    case Reschedule(b, newStart) => BookingsEvolve(s, BooksAfter(s, a).bookings);
    case NewCheckout(b, amount, currency, createdAt, isDeposit) =>
      CheckoutEvolves(s, Payment(b, amount, currency, createdAt, isDeposit, RequiresAction));
      Same(s);
    case _ => Same(s);
  }

  lemma BookingsEvolve(s: Snapshot, bs: seq<Booking>)
    requires |s.bookings| <= |bs|
    requires forall i :: 0 <= i < |s.bookings| && s.bookings[i].status == Cancelled ==> bs[i].status == Cancelled
    ensures Evolves(s, s.(bookings := bs))
  {
  }

  lemma CheckoutEvolves(s: Snapshot, p: Payment)
    ensures Evolves(s, s.(payments := s.payments + [p]))
  {
  }

  /** Setting the status of a payout in hand, and releasing its earnings if it failed. */
  lemma SettlementEvolves(s: Snapshot, k: int, reference: Option<string>)
    requires 0 <= k < |s.payouts| && s.payouts[k].status == Processing
    ensures Evolves(s, PayoutCompleted(s, k, reference).value)
    ensures Evolves(s, PayoutFailed(s, k, reference).value)
  {
    var t := PayoutFailed(s, k, reference).value;
    forall i | 0 <= i < |s.earnings| ensures EarningEvolves(s.earnings[i], t.earnings[i], s.payouts) {
    }
  }

  lemma Same(s: Snapshot)
    ensures Evolves(s, s)
  {
  }

  lemma WorkerSettlesEvolves(y: System, w: int, fault: bool)
    requires SystemSound(y)
    ensures Evolves(y.books, Next(y, WorkerSettles(w, fault)).books)
  {
    Same(y.books);
    var worker := StateOf(y, w);
    if worker.Answered? && !fault {
      assert WorkerSound(y.workers[w], y.books.payouts, y.log);
      SettlementEvolves(y.books, worker.id, if worker.answer.Raised? then None else Some(worker.answer.reference));
    }
  }

  lemma WorkerClaimsEvolves(y: System, w: int, fault: bool)
    requires SystemSound(y)
    ensures Evolves(y.books, Next(y, WorkerClaims(w, fault)).books)
  {
    Same(y.books);
  }

  lemma LogGrows(y: System, a: Action)
    ensures y.log <= Next(y, a).log
  {
  }

  lemma NextEvolves(y: System, a: Action)
    requires SystemSound(y)
    ensures Evolves(y.books, Next(y, a).books)
    ensures y.log <= Next(y, a).log
  {
    LogGrows(y, a);
    match a
    case WorkerSettles(w, fault) => WorkerSettlesEvolves(y, w, fault);
    case WorkerClaims(w, fault) => WorkerClaimsEvolves(y, w, fault);
    case WorkerLists(w) => Same(y.books);
    case WorkerSubmits(w, answer) => Same(y.books);
    case WorkerCrashes(w) => Same(y.books);
    case _ => BooksAfterEvolves(y.books, a);
  }

  // ----- All runs -----------------------------------------------------------------------------

  lemma {:induction false} RunKeeps(y: System, actions: seq<Action>)
    requires SystemSound(y)
    ensures SystemSound(Run(y, actions)) && Evolves(y.books, Run(y, actions).books)
    ensures y.log <= Run(y, actions).log
    decreases |actions|
  {
    if actions != [] {
      var before := actions[..|actions| - 1];
      RunKeeps(y, before);
      NextKeeps(Run(y, before), actions[|actions| - 1]);
      NextEvolves(Run(y, before), actions[|actions| - 1]);
      EvolvesTransitive(y.books, Run(y, before).books, Run(y, actions).books);
    }
  }

  lemma ReachableSound(providers: set<int>, actions: seq<Action>)
    ensures SystemSound(Run(Empty(providers), actions))
  {
    assert SystemSound(Empty(providers));
    RunKeeps(Empty(providers), actions);
  }

  /** In every reachable state, for every provider and currency, what was earned is accounted for. */
  lemma ConservationOverAllRuns(providers: set<int>, actions: seq<Action>, provider: int, currency: string)
    ensures var s := Run(Empty(providers), actions).books;
            GrossTotal(s.earnings, provider, currency)
            == FeeTotal(s.earnings, provider, currency) + RefundedTotal(s.earnings, provider, currency)
               + ReadyTotal(s.earnings, provider, currency) + PaidTotal(s.payouts, provider, currency)
  {
    ReachableSound(providers, actions);
    var s := Run(Empty(providers), actions).books;
    BalancedIsConserved(s.earnings, s.payouts, provider, currency);
  }

  /** In every reachable state every earning is sound, and its link is to a payout that did not fail. */
  lemma EarningsSoundOverAllRuns(providers: set<int>, actions: seq<Action>, i: int)
    requires 0 <= i < |Run(Empty(providers), actions).books.earnings|
    ensures var s := Run(Empty(providers), actions).books;
            Sound(s.earnings[i]) && LinkSound(s.earnings[i], s.payouts)
  {
    ReachableSound(providers, actions);
  }

  /** No payout is submitted twice, by any workers, whatever crashes. */
  lemma SubmittedAtMostOnce(providers: set<int>, actions: seq<Action>)
    ensures Distinct(Run(Empty(providers), actions).log)
  {
    ReachableSound(providers, actions);
  }

  /** One step moves a payout only along PENDING, PROCESSING, then COMPLETED or FAILED, or not at all. */
  lemma PayoutPath(providers: set<int>, actions: seq<Action>, a: Action, k: int)
    requires 0 <= k < |Run(Empty(providers), actions).books.payouts|
    ensures var y := Run(Empty(providers), actions); var z := Next(y, a);
            k < |z.books.payouts| && PayoutMoves(y.books.payouts[k].status, z.books.payouts[k].status)
  {
    ReachableSound(providers, actions);
    NextMoves(Run(Empty(providers), actions), a, k);
  }

  lemma NextMoves(y: System, a: Action, k: int)
    requires WorkersSound(y) && 0 <= k < |y.books.payouts|
    ensures var z := Next(y, a);
            k < |z.books.payouts| && PayoutMoves(y.books.payouts[k].status, z.books.payouts[k].status)
  {
    match a
    case WorkerSettles(w, fault) =>
      var worker := StateOf(y, w);
      if worker.Answered? {
        assert WorkerSound(y.workers[w], y.books.payouts, y.log);
        Settles(y, w, fault);
        AnsweredPayouts(y.books, worker.id, worker.answer);
      }
    case WorkerClaims(w, fault) =>
    case WorkerSubmits(w, answer) =>
    case WorkerLists(w) =>
    case WorkerCrashes(w) =>
    case _ => BooksAfterPayouts(y.books, a);
  }

  /** An earning under a completed payout stays there, with its amount, in every later state. */
  lemma CompletedPayoutsKeepEarnings(providers: set<int>, actions: seq<Action>, later: seq<Action>, i: int, k: int)
    requires var s := Run(Empty(providers), actions).books;
             && 0 <= i < |s.earnings| && 0 <= k < |s.payouts|
             && s.earnings[i].payout == Some(k) && s.payouts[k].status == Completed
    ensures var s, t := Run(Empty(providers), actions).books, Run(Run(Empty(providers), actions), later).books;
            && i < |t.earnings| && k < |t.payouts| && t.payouts[k].status == Completed
            && t.earnings[i].status == PaidOut && t.earnings[i].payout == Some(k)
            && t.earnings[i].providerAmount == s.earnings[i].providerAmount
  {
    ReachableSound(providers, actions);
    RunKeeps(Run(Empty(providers), actions), later);
    var s, t := Run(Empty(providers), actions).books, Run(Run(Empty(providers), actions), later).books;
    assert Sound(s.earnings[i]) && EarningEvolves(s.earnings[i], t.earnings[i], s.payouts);
    assert PayoutEvolves(s.payouts[k], t.payouts[k]);
  }

  /** CANCELLED appointments and paid payments stay so. */
  lemma AbsorbingStatuses(providers: set<int>, actions: seq<Action>, later: seq<Action>)
    ensures var s, t := Run(Empty(providers), actions).books, Run(Run(Empty(providers), actions), later).books;
            && |s.bookings| <= |t.bookings| && |s.payments| <= |t.payments|
            && (forall b ::
                    0 <= b < |s.bookings| && s.bookings[b].status == Cancelled ==> t.bookings[b].status == Cancelled)
            && (forall id :: 0 <= id < |s.payments| && Paid(s.payments[id].status) ==> Paid(t.payments[id].status))
  {
    ReachableSound(providers, actions);
    RunKeeps(Run(Empty(providers), actions), later);
    var s, t := Run(Empty(providers), actions).books, Run(Run(Empty(providers), actions), later).books;
    forall id | 0 <= id < |s.payments| && Paid(s.payments[id].status) ensures Paid(t.payments[id].status) {
      assert PaymentEvolves(s.payments[id], t.payments[id]);
    }
  }

  /**
   A settled payment never leaves its appointment waiting for payment, and a succeeded one has exactly
   one earning, of its full amount.
   */
  lemma SettledPayments(providers: set<int>, actions: seq<Action>, id: int)
    requires 0 <= id < |Run(Empty(providers), actions).books.payments|
    ensures var s := Run(Empty(providers), actions).books; var p := s.payments[id];
            && 0 <= p.appointment < |s.bookings|
            && (p.status in {Succeeded, PaymentFailed, Canceled} ==> s.bookings[p.appointment].status != PendingPayment)
            && (p.status == Succeeded ==>
                  exists i :: 0 <= i < |s.earnings| && s.earnings[i].payment == id && s.earnings[i].gross == p.amount
                    && forall j :: 0 <= j < |s.earnings| && s.earnings[j].payment == id ==> j == i)
  {
    ReachableSound(providers, actions);
    var s := Run(Empty(providers), actions).books;
    assert StatusSound(s, id);
    if s.payments[id].status == Succeeded {
      var i := FindByPayment(s.earnings, id).value;
      assert s.earnings[i].payment == id && s.earnings[i].gross == s.payments[id].amount;
    }
  }

  /** A total moves only in a step that settles a refund, and that step sets the status. */
  lemma RefundStep(y: System, a: Action, id: int)
    requires SystemSound(y) && 0 <= id < |y.books.payments|
    ensures var s, t := y.books, Next(y, a).books;
            SucceededRefunds(s.refunds, id) < s.payments[id].amount == SucceededRefunds(t.refunds, id)
            ==> id < |t.payments| && t.payments[id].status == Refunded
  {
    var s := y.books;
    match a
    case CancelBooking(b, service, now, accepted) => CancelStep(s, b, service, now, accepted, id);
    case RequestRefund(p, amount, accepted) =>
      if RefundAllowed(s, p, amount) {
        RefundCreatedKeeps(s, p, amount, accepted);
      }
    case _ => OtherStepsLeaveRefunds(y, a);
  }

  lemma CancelStep(s: Snapshot, b: int, service: Option<ServicePolicy>, now: int, accepted: bool, id: int)
    requires JointSound(s) && 0 <= id < |s.payments|
    ensures var t := Committed(s, BookingCancelled(s, b, service, now, accepted));
            SucceededRefunds(s.refunds, id) < s.payments[id].amount == SucceededRefunds(t.refunds, id)
            ==> id < |t.payments| && t.payments[id].status == Refunded
  {
    if 0 <= b < |s.bookings| && Blocking(s.bookings[b].status) {
      var s1 := s.(bookings := s.bookings[b := s.bookings[b].(status := Cancelled)]);
      BookingChangeKeeps(s, s1.bookings);
      var latest := LatestPayment(s.payments, b);
      if latest.Some? && RefundAllowed(s1, latest.value, CancellationRefund(s1, latest.value, service, now)) {
        RefundCreatedKeeps(s1, latest.value, CancellationRefund(s1, latest.value, service, now), accepted);
      }
    }
  }

  lemma OtherStepsLeaveRefunds(y: System, a: Action)
    requires !a.CancelBooking? && !a.RequestRefund?
    ensures Next(y, a).books.refunds == y.books.refunds
  {
    if a.Sweep? {
      SweepPayouts(y.books, ExpiredIds(y.books.payments, a.cutoff), a.faults);
    }
  }

  /** Refunds never exceed the payment; the one that reaches the amount marks the payment refunded in its own step. */
  lemma RefundCap(providers: set<int>, actions: seq<Action>, a: Action, id: int)
    requires 0 <= id < |Run(Empty(providers), actions).books.payments|
    ensures var s, t := Run(Empty(providers), actions).books, Next(Run(Empty(providers), actions), a).books;
            && SucceededRefunds(s.refunds, id) <= s.payments[id].amount
            && id < |t.payments|
            && (SucceededRefunds(s.refunds, id) < s.payments[id].amount == SucceededRefunds(t.refunds, id)
                ==> t.payments[id].status == Refunded)
  {
    ReachableSound(providers, actions);
    var y := Run(Empty(providers), actions);
    NextEvolves(y, a);
    RefundStep(y, a, id);
  }

  /** Once fully refunded, every later positive refund is rejected, in every continuation of the run. */
  lemma FullyRefundedRejects(providers: set<int>, actions: seq<Action>, later: seq<Action>, id: int, amount: int,
      accepted: bool)
    requires 0 <= id < |Run(Empty(providers), actions).books.payments|
    requires var s := Run(Empty(providers), actions).books; SucceededRefunds(s.refunds, id) == s.payments[id].amount
    requires amount > 0
    ensures RefundCreated(Run(Run(Empty(providers), actions), later).books, id, amount, accepted).Err?
  {
    ReachableSound(providers, actions);
    RunKeeps(Run(Empty(providers), actions), later);
    var s, t := Run(Empty(providers), actions).books, Run(Run(Empty(providers), actions), later).books;
    assert PaymentEvolves(s.payments[id], t.payments[id]);
  }
}
