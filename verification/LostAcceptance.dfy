/**
 A payout the provider accepted can still end FAILED, when recording the acceptance raises: its earnings are then ready
 again and a second payout of them is accepted too. Without such a lost acceptance a FAILED payout was never accepted.
 */
module LostAcceptance {
  import opened Options
  import opened Rounding
  import opened Statuses
  import opened Commission
  import opened Earnings
  import opened Books
  import opened Ledger
  import opened Payments
  import opened MoneyRuns
  import opened MoneyTheorems
  import opened PaymentEffects
  import opened PayoutEffects

  // ----- When acceptances are recorded -----------------------------------------------------------------

  /** No commit that records an acceptance raises. */
  predicate AcceptancesRecorded(y: System, actions: seq<Action>)
    decreases |actions|
  {
    actions == [] ||
    (var before, a := actions[..|actions| - 1], actions[|actions| - 1];
     && AcceptancesRecorded(y, before)
     && (a.WorkerSettles? && a.fault && StateOf(Run(y, before), a.worker).Answered?
         ==> !StateOf(Run(y, before), a.worker).answer.Accepted?))
  }

  /** The payout was submitted, and the answer was an acceptance. */
  predicate WasAccepted(y: System, actions: seq<Action>, k: int)
    decreases |actions|
  {
    actions != []
    && var before, a := actions[..|actions| - 1], actions[|actions| - 1];
       || WasAccepted(y, before, k)
       || (a.WorkerSubmits? && a.answer.Accepted? && StateOf(Run(y, before), a.worker).Claimed?
           && StateOf(Run(y, before), a.worker).id == k)
  }

  /** An accepted payout is in hand with its acceptance, or COMPLETED, or stuck in PROCESSING. */
  ghost predicate AcceptedIsKept(z: System, k: int) {
    && 0 <= k < |z.books.payouts| && k in z.log
    && (z.books.payouts[k].status == Processing || z.books.payouts[k].status == Completed)
    && forall w :: w in z.workers && z.workers[w].Answered? && z.workers[w].id == k ==> z.workers[w].answer.Accepted?
  }

  lemma KeptStep(y: System, a: Action, k: int)
    requires SystemSound(y) && AcceptedIsKept(y, k)
    requires a.WorkerSettles? && a.fault && StateOf(y, a.worker).Answered? ==> !StateOf(y, a.worker).answer.Accepted?
    ensures AcceptedIsKept(Next(y, a), k)
  {
    NextPayoutStep(y, a, k);
    LogGrows(y, a);
    var z := Next(y, a);
    forall w | w in z.workers && z.workers[w].Answered? && z.workers[w].id == k ensures z.workers[w].answer.Accepted? {
      if w in y.workers {
        assert WorkerSound(y.workers[w], y.books.payouts, y.log);
      }
    }
  }

  lemma SubmittedIsKept(y: System, w: int, answer: Answer, k: int)
    requires SystemSound(y) && StateOf(y, w).Claimed? && StateOf(y, w).id == k && answer.Accepted?
    ensures AcceptedIsKept(Next(y, WorkerSubmits(w, answer)), k)
  {
    assert WorkerSound(y.workers[w], y.books.payouts, y.log);
    var z := Next(y, WorkerSubmits(w, answer));
    assert Owned(y.workers[w]) == Some(k);
    forall v | v in z.workers && v != w ensures Owned(z.workers[v]) != Some(k) {
    }
  }

  lemma {:induction false} AcceptedStays(providers: set<int>, actions: seq<Action>, k: int)
    requires AcceptancesRecorded(Empty(providers), actions) && WasAccepted(Empty(providers), actions, k)
    ensures AcceptedIsKept(Run(Empty(providers), actions), k)
    decreases |actions|
  {
    var before, a := actions[..|actions| - 1], actions[|actions| - 1];
    var y := Run(Empty(providers), before);
    ReachableSound(providers, before);
    if WasAccepted(Empty(providers), before, k) {
      AcceptedStays(providers, before, k);
      KeptStep(y, a, k);
    } else {
      SubmittedIsKept(y, a.worker, a.answer, k);
    }
  }

  /** In a run that records its acceptances, no FAILED payout was accepted. */
  lemma FailedWasNotAccepted(providers: set<int>, actions: seq<Action>, k: int)
    requires AcceptancesRecorded(Empty(providers), actions)
    requires var s := Run(Empty(providers), actions).books; 0 <= k < |s.payouts| && s.payouts[k].status == Failed
    ensures !WasAccepted(Empty(providers), actions, k)
  {
    if WasAccepted(Empty(providers), actions, k) {
      AcceptedStays(providers, actions, k);
      assert false;
    }
  }

  // ----- When one is lost -------------------------------------------------------------------------------

  /**
   From any reachable state in which a worker holds an acceptance: the commit raises once, the payout is marked FAILED,
   and exactly its earnings are ready for the next payout.
   */
  lemma LostAcceptanceReleases(y: System, w: int)
    requires SystemSound(y) && StateOf(y, w).Answered? && StateOf(y, w).answer.Accepted?
    ensures var k, t := StateOf(y, w).id, Next(Next(y, WorkerSettles(w, true)), WorkerSettles(w, false)).books;
            && 0 <= k < |y.books.payouts| && |t.payouts| == |y.books.payouts| && t.payouts[k].status == Failed
            && |t.earnings| == |y.books.earnings|
            && forall i :: 0 <= i < |t.earnings| ==>
                 t.earnings[i] == if y.books.earnings[i].payout == Some(k)
                                  then y.books.earnings[i].(status := ReadyForPayout, payout := None)
                                  else y.books.earnings[i]
  {
    assert WorkerSound(y.workers[w], y.books.payouts, y.log);
    var k, z := StateOf(y, w).id, Next(y, WorkerSettles(w, true));
    Settles(y, w, true);
    Settles(z, w, false);
    PayoutFailedEffect(y.books, k, None);
  }

  // ----- One earning, two accepted payouts ----------------------------------------------------------------

  const VISIT := Booking(1, 0, Confirmed)
  const WAITING := Payment(0, 100, "EUR", 0, false, RequiresAction)
  const PAID := Payment(0, 100, "EUR", 0, false, Succeeded)
  const EARNED := Earning(1, 0, 0, None, 100, 0, 100, 0, 0, "EUR", ReadyForPayout)
  const NO_FEE := CommissionConfig(Percentage, Some(0), Some(0))

  function Held(k: int): Earning {
    EARNED.(status := PaidOut, payout := Some(k))
  }

  function Row(status: PayoutStatus, reference: Option<string>): Payout {
    Payout(1, 100, "EUR", status, reference)
  }

  /** The tables around one earning. */
  function Tables(e: Earning, payouts: seq<Payout>): Snapshot {
    Snapshot({1}, [VISIT], [PAID], [], [e], payouts)
  }

  function Earn(): seq<Action> {
    [] + [NewBooking(1, 0, Confirmed)] + [NewCheckout(0, 100, "EUR", 0, false)] + [Webhook(0, Succeeded, NO_FEE)]
  }

  lemma RunMore(y: System, actions: seq<Action>, a: Action)
    ensures Run(y, actions + [a]) == Next(Run(y, actions), a)
  {
    assert (actions + [a])[..|actions|] == actions;
  }

  lemma NoFee(config: CommissionConfig)
    requires config == CommissionConfig(Percentage, Some(0), Some(0))
    ensures PlatformFee(100, config) == Ok(0)
  {
    PercentageFee(100, config);
    HalfUpExact(0, PERCENT_SCALE);
  }

  /** The first earning of a table without one. */
  lemma FirstEarning(s: Snapshot, id: int, config: CommissionConfig, fee: int)
    requires PaymentsHaveBookings(s) && 0 <= id < |s.payments| && s.payments[id].status == RequiresAction
    requires s.earnings == [] && PlatformFee(s.payments[id].amount, config) == Ok(fee) && fee < s.payments[id].amount
    ensures var r, p := StatusMarked(s, id, Succeeded, config), s.payments[id];
            r.Ok? && r.value.earnings == [Earning(s.bookings[p.appointment].provider, p.appointment, id, None, p.amount,
                                                  fee, p.amount - fee, 0, 0, p.currency, ReadyForPayout)]
  {
    AppliedWebhook(s, id, Succeeded, config);
  }

  lemma Succeeds(s: Snapshot, config: CommissionConfig)
    requires s.bookings == [VISIT] && s.payments == [WAITING] && s.earnings == []
    requires PlatformFee(100, config) == Ok(0)
    ensures var r := StatusMarked(s, 0, Succeeded, config);
            && r.Ok? && r.value.earnings == [EARNED]
  {
    FirstEarning(s, 0, config, 0);
  }

  lemma Writes(s: Snapshot, config: CommissionConfig)
    requires s.bookings == [VISIT] && s.payments == [WAITING] && s.earnings == []
    requires StatusMarked(s, 0, Succeeded, config).Ok?
    ensures var r := StatusMarked(s, 0, Succeeded, config);
            && r.value.payments == [PAID] && r.value.bookings == [VISIT]
            && r.value.refunds == s.refunds && r.value.payouts == s.payouts && r.value.providers == s.providers
  {
  }

  lemma Earns()
    ensures Run(Empty({1}), Earn()) == System(Tables(EARNED, []), map[], [])
  {
    var y := Empty({1});
    var booked, checkout := NewBooking(1, 0, Confirmed), NewCheckout(0, 100, "EUR", 0, false);
    RunMore(y, [], booked);
    RunMore(y, [] + [booked], checkout);
    var waiting := Snapshot({1}, [VISIT], [WAITING], [], [], []);
    assert Run(y, [] + [booked] + [checkout]).books == waiting;
    NoFee(NO_FEE);
    Succeeds(waiting, NO_FEE);
    Writes(waiting, NO_FEE);
    RunMore(y, [] + [booked] + [checkout], Webhook(0, Succeeded, NO_FEE));
  }

  lemma Collects(payouts: seq<Payout>)
    ensures PayoutCreated(Tables(EARNED, payouts), 1)
            == Ok(Tables(Held(|payouts|), payouts + [Row(PayoutPending, None)]))
  {
    var s := Tables(EARNED, payouts);
    assert Waits(s.earnings[0], 1);
    PayoutAccepted(s, 1);
    PayoutCreatedEffect(s, 1);
    var t := PayoutCreated(s, 1).value;
    assert [EARNED][..0] == [] && WaitingTotal([EARNED][..0], 1) == 0;
    assert WaitingTotal([EARNED], 1) == 100;
    assert t.payouts[|payouts|] == Row(PayoutPending, None);
    assert t.payouts == payouts + [Row(PayoutPending, None)];
    assert t.earnings == [Held(|payouts|)];
  }

  lemma LastPends(payouts: seq<Payout>)
    requires forall k :: 0 <= k < |payouts| ==> payouts[k].status != PayoutPending
    ensures PendingIds(payouts + [Row(PayoutPending, None)]) == [|payouts|]
  {
    NothingPends(payouts);
    assert (payouts + [Row(PayoutPending, None)])[..|payouts|] == payouts;
  }

  lemma {:induction false} NothingPends(payouts: seq<Payout>)
    requires forall k :: 0 <= k < |payouts| ==> payouts[k].status != PayoutPending
    ensures PendingIds(payouts) == []
  {
    if payouts != [] {
      NothingPends(payouts[..|payouts| - 1]);
    }
  }

  /** The system with one worker, around one earning. */
  function With(e: Earning, payouts: seq<Payout>, worker: Worker, log: seq<int>): System {
    System(Tables(e, payouts), map[9 := worker], log)
  }

  lemma Lists(y: System, payouts: seq<Payout>)
    requires y.books == Tables(Held(|payouts|), payouts + [Row(PayoutPending, None)])
    requires StateOf(y, 9) == Idle && (y.workers == map[] || y.workers == map[9 := Idle])
    requires forall k :: 0 <= k < |payouts| ==> payouts[k].status != PayoutPending
    ensures Next(y, WorkerLists(9))
            == With(Held(|payouts|), payouts + [Row(PayoutPending, None)], Listed([|payouts|]), y.log)
  {
    LastPends(payouts);
    assert y.workers[9 := Listed([|payouts|])] == map[9 := Listed([|payouts|])];
  }

  lemma Claims(e: Earning, payouts: seq<Payout>, log: seq<int>)
    ensures var k := |payouts|;
            Next(With(e, payouts + [Row(PayoutPending, None)], Listed([k]), log), WorkerClaims(9, false))
            == With(e, payouts + [Row(Processing, None)], Claimed(k, []), log)
  {
    var k, pending := |payouts|, payouts + [Row(PayoutPending, None)];
    assert pending[k := Row(Processing, None)] == payouts + [Row(Processing, None)];
    assert [k][1..] == [];
  }

  lemma Submits(e: Earning, payouts: seq<Payout>, k: int, log: seq<int>, answer: Answer)
    ensures Next(With(e, payouts, Claimed(k, []), log), WorkerSubmits(9, answer))
            == With(e, payouts, Answered(k, answer, []), log + [k])
  {
  }

  /** The acceptance is lost: the payout fails, and the earning is ready again. */
  function Lose(): seq<Action> {
    [] + [WorkerSettles(9, true)] + [WorkerSettles(9, false)] + [WorkerClaims(9, false)]
  }

  lemma Loses(log: seq<int>)
    ensures var y := With(Held(0), [] + [Row(Processing, None)], Answered(0, Accepted("a"), []), log);
            Next(Next(Next(y, WorkerSettles(9, true)), WorkerSettles(9, false)), WorkerClaims(9, false))
            == With(EARNED, [Row(Failed, None)], Idle, log)
  {
    var y := With(Held(0), [] + [Row(Processing, None)], Answered(0, Accepted("a"), []), log);
    assert Next(y, WorkerSettles(9, true)) == With(Held(0), [] + [Row(Processing, None)], Answered(0, Raised, []), log);
    PayoutFailedEffect(y.books, 0, None);
    assert PayoutFailed(y.books, 0, None).value == Tables(EARNED, [Row(Failed, None)]);
  }

  lemma Records(log: seq<int>)
    ensures var y := With(Held(1), [Row(Failed, None), Row(Processing, None)], Answered(1, Accepted("b"), []), log);
            Next(y, WorkerSettles(9, false))
            == With(Held(1), [Row(Failed, None), Row(Completed, Some("b"))], Listed([]), log)
  {
  }

  lemma {:induction false} RunSplit(y: System, a: seq<Action>, b: seq<Action>)
    ensures Run(y, a + b) == Run(Run(y, a), b)
    decreases |b|
  {
    if b == [] {
      assert a + b == a;
    } else {
      assert (a + b)[..|a + b| - 1] == a + b[..|b| - 1];
      RunSplit(y, a, b[..|b| - 1]);
    }
  }

  function UpToAnswer(reference: string): seq<Action> {
    [] + [CreatePayout(1)] + [WorkerLists(9)] + [WorkerClaims(9, false)] + [WorkerSubmits(9, Accepted(reference))]
  }

  /** From a ready earning and an idle worker to the acceptance of a new payout of it. */
  lemma RunToAnswer(y: System, payouts: seq<Payout>, reference: string)
    requires y.books == Tables(EARNED, payouts) && (y.workers == map[] || y.workers == map[9 := Idle])
    requires forall k :: 0 <= k < |payouts| ==> payouts[k].status != PayoutPending
    ensures Run(y, UpToAnswer(reference))
            == With(Held(|payouts|), payouts + [Row(Processing, None)],
                    Answered(|payouts|, Accepted(reference), []), y.log + [|payouts|])
  {
    var create: seq<Action> := [] + [CreatePayout(1)];
    RunMore(y, [], CreatePayout(1));
    Collects(payouts);
    var z := y.(books := Tables(Held(|payouts|), payouts + [Row(PayoutPending, None)]));
    assert Run(y, create) == z;
    RunMore(y, create, WorkerLists(9));
    Lists(z, payouts);
    RunMore(y, create + [WorkerLists(9)], WorkerClaims(9, false));
    Claims(Held(|payouts|), payouts, y.log);
    RunMore(y, create + [WorkerLists(9)] + [WorkerClaims(9, false)], WorkerSubmits(9, Accepted(reference)));
    Submits(Held(|payouts|), payouts + [Row(Processing, None)], |payouts|, y.log, Accepted(reference));
  }

  lemma RunLoses(log: seq<int>)
    ensures Run(With(Held(0), [] + [Row(Processing, None)], Answered(0, Accepted("a"), []), log), Lose())
            == With(EARNED, [Row(Failed, None)], Idle, log)
  {
    var y := With(Held(0), [] + [Row(Processing, None)], Answered(0, Accepted("a"), []), log);
    RunMore(y, [], WorkerSettles(9, true));
    RunMore(y, [] + [WorkerSettles(9, true)], WorkerSettles(9, false));
    RunMore(y, [] + [WorkerSettles(9, true)] + [WorkerSettles(9, false)], WorkerClaims(9, false));
    Loses(log);
  }

  /** One payment is earned, and a first payout of it is accepted but ends FAILED. */
  function FirstLost(): seq<Action> {
    Earn() + UpToAnswer("a") + Lose()
  }

  lemma AfterFirst()
    ensures Run(Empty({1}), FirstLost()) == With(EARNED, [Row(Failed, None)], Idle, [0])
  {
    var none: seq<Payout> := [];
    Earns();
    RunSplit(Empty({1}), Earn(), UpToAnswer("a"));
    RunSplit(Empty({1}), Earn() + UpToAnswer("a"), Lose());
    RunToAnswer(System(Tables(EARNED, none), map[], []), none, "a");
    assert none + [Row(Processing, None)] == [] + [Row(Processing, None)] && [] + [0] == [0];
    RunLoses([0]);
  }

  /**
   The provider is told to pay one earning of 100 twice and accepts both times: the first payout ends FAILED because
   recording its acceptance raised, the second ends COMPLETED.
   */
  lemma PaidTwice()
    ensures var z := Run(Empty({1}), FirstLost() + UpToAnswer("b") + [WorkerSettles(9, false)]);
            && z.log == [0, 1] && z.books.earnings == [Held(1)] && Held(1).providerAmount == 100
            && z.books.payouts == [Row(Failed, None), Row(Completed, Some("b"))]
    ensures WasAccepted(Empty({1}), Earn() + UpToAnswer("a"), 0)
  {
    var failed := [Row(Failed, None)];
    AfterFirst();
    RunSplit(Empty({1}), FirstLost(), UpToAnswer("b"));
    RunToAnswer(With(EARNED, failed, Idle, [0]), failed, "b");
    assert failed + [Row(Processing, None)] == [Row(Failed, None), Row(Processing, None)] && [0] + [1] == [0, 1];
    RunMore(Empty({1}), FirstLost() + UpToAnswer("b"), WorkerSettles(9, false));
    Records([0, 1]);
    FirstAccepted();
  }

  lemma {:induction false} SubmittedWasAccepted(y: System, actions: seq<Action>, k: int, answer: Answer)
    requires Submitted(y, actions, k, answer) && answer.Accepted?
    ensures WasAccepted(y, actions, k)
    decreases |actions|
  {
    var before := actions[..|actions| - 1];
    if Submitted(y, before, k, answer) {
      SubmittedWasAccepted(y, before, k, answer);
    }
  }

  lemma FirstAccepted()
    ensures WasAccepted(Empty({1}), Earn() + UpToAnswer("a"), 0)
  {
    var none: seq<Payout> := [];
    var y, actions := Empty({1}), Earn() + UpToAnswer("a");
    Earns();
    RunSplit(y, Earn(), UpToAnswer("a"));
    RunToAnswer(System(Tables(EARNED, none), map[], []), none, "a");
    RunTraced({1}, actions);
    assert Run(y, actions).workers[9] == Answered(0, Accepted("a"), []);
    SubmittedWasAccepted(y, actions, 0, Accepted("a"));
  }
}
