/**
 What creating and settling a payout does to the tables, written out, and over runs: a payout ends only after it was
 submitted, and is COMPLETED only if the provider accepted it.
 */
module PayoutEffects {
  import opened Options
  import opened Statuses
  import opened Earnings
  import opened Books
  import opened Ledger
  import opened Payments
  import opened MoneyRuns
  import opened MoneyTheorems

  // ----- A new payout -----------------------------------------------------------------------------------

  /** The earning waits for the provider's next payout. */
  predicate Waits(e: Earning, provider: int) {
    e.provider == provider && e.status == ReadyForPayout && e.payout == None && e.providerAmount > 0
  }

  function WaitingTotal(es: seq<Earning>, provider: int): int {
    if es == [] then 0
    else
      var e := es[|es| - 1];
      WaitingTotal(es[..|es| - 1], provider) + if Waits(e, provider) then e.providerAmount else 0
  }

  lemma {:induction false} WaitingIsCollectable(es: seq<Earning>, provider: int)
    ensures WaitingTotal(es, provider) == CollectableTotal(es, provider)
  {
    if es != [] {
      WaitingIsCollectable(es[..|es| - 1], provider);
    }
  }

  /** A payout is created exactly for a known provider with waiting earnings, all of one currency. */
  lemma PayoutAccepted(s: Snapshot, provider: int)
    ensures PayoutCreated(s, provider).Ok? <==>
            && provider in s.providers
            && (exists i :: 0 <= i < |s.earnings| && Waits(s.earnings[i], provider))
            && (forall i, j ::
                  0 <= i < |s.earnings| && 0 <= j < |s.earnings|
                  && Waits(s.earnings[i], provider) && Waits(s.earnings[j], provider)
                  ==> s.earnings[i].currency == s.earnings[j].currency)
  {
    var ready := ReadyFor(s.earnings, provider);
    if ready != [] {
      assert ready[0] in ready;
      assert Waits(s.earnings[ready[0]], provider);
    }
    if i :| 0 <= i < |s.earnings| && Waits(s.earnings[i], provider) {
      assert i in ready;
    }
  }

  /**
   The new payout is PENDING, without a reference, of the provider's whole waiting total in its currency, and is next in
   the workers' queue. Exactly the waiting earnings are PAID_OUT into it, and nothing else changes.
   */
  lemma PayoutCreatedEffect(s: Snapshot, provider: int)
    requires PayoutCreated(s, provider).Ok?
    ensures var t, k := PayoutCreated(s, provider).value, |s.payouts|;
            && |t.payouts| == k + 1 && t.payouts[..k] == s.payouts
            && t.payouts[k].provider == provider && t.payouts[k].total == WaitingTotal(s.earnings, provider)
            && t.payouts[k].status == PayoutPending && t.payouts[k].reference == None && k in PendingIds(t.payouts)
            && |t.earnings| == |s.earnings|
            && (forall i :: 0 <= i < |s.earnings| ==>
                  t.earnings[i] == if Waits(s.earnings[i], provider)
                                   then s.earnings[i].(status := PaidOut, payout := Some(k)) else s.earnings[i])
            && (forall i :: 0 <= i < |s.earnings| && Waits(s.earnings[i], provider) ==>
                  s.earnings[i].currency == t.payouts[k].currency)
            && t.bookings == s.bookings && t.payments == s.payments && t.refunds == s.refunds
            && t.providers == s.providers
  {
    var ready := ReadyFor(s.earnings, provider);
    assert ready[0] in ready;
    WaitingIsCollectable(s.earnings, provider);
  }

  // ----- A settled payout ---------------------------------------------------------------------------------

  /** One payout has the status and, if one was given, the reference. */
  predicate PayoutWritten(s: Snapshot, t: Snapshot, k: int, status: PayoutStatus, reference: Option<string>) {
    && |t.payouts| == |s.payouts|
    && forall j :: 0 <= j < |s.payouts| ==>
         var p := s.payouts[j];
         t.payouts[j] == if j == k then Payout(p.provider, p.total, p.currency, status,
                                               if reference.Some? then reference else p.reference) else p
  }

  /** Completing writes the payout alone; completing it again changes nothing. */
  lemma PayoutCompletedEffect(s: Snapshot, k: int, reference: Option<string>)
    requires 0 <= k < |s.payouts|
    ensures var t := PayoutCompleted(s, k, reference).value;
            && (s.payouts[k].status == Completed ==> t == s)
            && (s.payouts[k].status != Completed ==> PayoutWritten(s, t, k, Completed, reference))
            && t.(payouts := s.payouts) == s
  {
  }

  /** Failing also makes exactly the payout's earnings ready for the next one; failing it again changes nothing. */
  lemma PayoutFailedEffect(s: Snapshot, k: int, reference: Option<string>)
    requires 0 <= k < |s.payouts|
    ensures var t := PayoutFailed(s, k, reference).value;
            && (s.payouts[k].status == Failed ==> t == s)
            && (s.payouts[k].status != Failed ==>
                  && PayoutWritten(s, t, k, Failed, reference) && |t.earnings| == |s.earnings|
                  && forall i :: 0 <= i < |s.earnings| ==>
                       t.earnings[i] == if s.earnings[i].payout == Some(k)
                                        then s.earnings[i].(status := ReadyForPayout, payout := None)
                                        else s.earnings[i])
            && t.(payouts := s.payouts, earnings := s.earnings) == s
  {
  }

  // ----- Steps ----------------------------------------------------------------------------------------------

  /** How one step may change the status of a payout, and why. */
  predicate PayoutStep(y: System, z: System, a: Action, k: int)
    requires 0 <= k < |y.books.payouts| && k < |z.books.payouts|
  {
    var before, after := y.books.payouts[k], z.books.payouts[k];
    || after == before
    || (before.status == PayoutPending && after == before.(status := Processing)
        && a.WorkerClaims? && !a.fault && StateOf(z, a.worker).Claimed? && StateOf(z, a.worker).id == k)
    || (before.status == Processing && a.WorkerSettles? && !a.fault
        && StateOf(y, a.worker).Answered? && StateOf(y, a.worker).id == k
        && match StateOf(y, a.worker).answer
           case Accepted(reference) => after == before.(status := Completed, reference := Some(reference))
           case Rejected(reference) => after == before.(status := Failed, reference := Some(reference))
           case Raised => after == before.(status := Failed))
  }

  lemma SettleStep(y: System, w: int, fault: bool, k: int)
    requires WorkersSound(y) && 0 <= k < |y.books.payouts|
    ensures var z := Next(y, WorkerSettles(w, fault));
            k < |z.books.payouts| && PayoutStep(y, z, WorkerSettles(w, fault), k)
  {
    var worker := StateOf(y, w);
    if worker.Answered? {
      assert WorkerSound(y.workers[w], y.books.payouts, y.log);
      Settles(y, w, fault);
      AnsweredPayouts(y.books, worker.id, worker.answer);
    }
  }

  lemma NextPayoutStep(y: System, a: Action, k: int)
    requires WorkersSound(y) && 0 <= k < |y.books.payouts|
    ensures var z := Next(y, a); k < |z.books.payouts| && PayoutStep(y, z, a, k)
  {
    match a
    case WorkerSettles(w, fault) => SettleStep(y, w, fault, k);
    case WorkerClaims(w, fault) =>
    case WorkerSubmits(w, answer) =>
    case WorkerLists(w) =>
    case WorkerCrashes(w) =>
    case _ => BooksAfterPayouts(y.books, a);
  }

  /** In every run a payout is claimed while PENDING and settled while PROCESSING, by the answer its worker got. */
  lemma PayoutStepsOverAllRuns(providers: set<int>, actions: seq<Action>, a: Action, k: int)
    requires 0 <= k < |Run(Empty(providers), actions).books.payouts|
    ensures var y := Run(Empty(providers), actions); var z := Next(y, a);
            k < |z.books.payouts| && PayoutStep(y, z, a, k)
  {
    ReachableSound(providers, actions);
    NextPayoutStep(Run(Empty(providers), actions), a, k);
  }

  // ----- Completed means accepted -----------------------------------------------------------------------------

  /** At some step a worker that had claimed payout `k` submitted it and got this answer. */
  predicate Submitted(y: System, actions: seq<Action>, k: int, answer: Answer)
    decreases |actions|
  {
    actions != []
    && var before, a := actions[..|actions| - 1], actions[|actions| - 1];
       || Submitted(y, before, k, answer)
       || (a.WorkerSubmits? && a.answer == answer && StateOf(Run(y, before), a.worker).Claimed?
           && StateOf(Run(y, before), a.worker).id == k)
  }

  predicate Ended(p: Payout) {
    p.status == Completed || p.status == Failed
  }

  /** What workers hold as an answer was given, and what has ended was submitted; COMPLETED was accepted. */
  ghost predicate Traced(y: System, actions: seq<Action>) {
    var z := Run(y, actions);
    && (forall w :: w in z.workers && z.workers[w].Answered? && z.workers[w].answer != Raised
                    ==> Submitted(y, actions, z.workers[w].id, z.workers[w].answer))
    && (forall w :: w in z.workers && z.workers[w].Answered? ==> z.workers[w].id in z.log)
    && (forall k :: 0 <= k < |z.books.payouts| && Ended(z.books.payouts[k]) ==> k in z.log)
    && (forall k :: 0 <= k < |z.books.payouts| && z.books.payouts[k].status == Completed ==>
          z.books.payouts[k].reference.Some?
          && Submitted(y, actions, k, Accepted(z.books.payouts[k].reference.value)))
  }

  lemma WorkersTraced(y: System, actions: seq<Action>, a: Action, w: int)
    requires Traced(y, actions) && SystemSound(Run(y, actions))
    requires var z := Next(Run(y, actions), a); w in z.workers && z.workers[w].Answered?
    ensures var z := Next(Run(y, actions), a);
            && (z.workers[w].answer != Raised ==> Submitted(y, actions + [a], z.workers[w].id, z.workers[w].answer))
            && z.workers[w].id in z.log
  {
    assert (actions + [a])[..|actions|] == actions;
    AnswersCarried(Run(y, actions), a, w);
    LogGrows(Run(y, actions), a);
  }

  /** An answer in hand was in hand before, or replaced by `Raised`, or has just been given for the claimed payout. */
  lemma AnswersCarried(y: System, a: Action, w: int)
    requires w in Next(y, a).workers && Next(y, a).workers[w].Answered?
    ensures var now := Next(y, a).workers[w];
            || (w in y.workers && y.workers[w].Answered? && y.workers[w].id == now.id
                && (y.workers[w].answer == now.answer || now.answer == Raised))
            || (a.WorkerSubmits? && a.worker == w && a.answer == now.answer && StateOf(y, w).Claimed?
                && StateOf(y, w).id == now.id && Next(y, a).log == y.log + [now.id])
  {
  }

  lemma NewPayoutsPend(y: System, a: Action, k: int)
    requires |y.books.payouts| <= k < |Next(y, a).books.payouts|
    ensures Next(y, a).books.payouts[k].status == PayoutPending
  {
    if !(a.WorkerLists? || a.WorkerClaims? || a.WorkerSubmits? || a.WorkerSettles? || a.WorkerCrashes?) {
      BooksAfterPayouts(y.books, a);
      assert a.CreatePayout?;
      PayoutCreatedEffect(y.books, a.provider);
    }
  }

  lemma PayoutsTraced(y: System, actions: seq<Action>, a: Action, k: int)
    requires Traced(y, actions) && SystemSound(Run(y, actions))
    requires 0 <= k < |Next(Run(y, actions), a).books.payouts|
    ensures var z := Next(Run(y, actions), a); var p := z.books.payouts[k];
            && (Ended(p) ==> k in z.log)
            && (p.status == Completed ==>
                  p.reference.Some? && Submitted(y, actions + [a], k, Accepted(p.reference.value)))
  {
    var x := Run(y, actions);
    assert (actions + [a])[..|actions|] == actions;
    LogGrows(x, a);
    if k < |x.books.payouts| {
      NextPayoutStep(x, a, k);
    } else {
      NewPayoutsPend(x, a, k);
    }
  }

  lemma {:induction false} RunTraced(providers: set<int>, actions: seq<Action>)
    ensures Traced(Empty(providers), actions)
    decreases |actions|
  {
    if actions != [] {
      var before, a := actions[..|actions| - 1], actions[|actions| - 1];
      RunTraced(providers, before);
      ReachableSound(providers, before);
      TracedStep(Empty(providers), before, a);
      assert before + [a] == actions;
    }
  }

  lemma TracedStep(y: System, actions: seq<Action>, a: Action)
    requires Traced(y, actions) && SystemSound(Run(y, actions))
    ensures Traced(y, actions + [a])
  {
    assert (actions + [a])[..|actions|] == actions;
    var z := Next(Run(y, actions), a);
    assert Run(y, actions + [a]) == z;
    forall w | w in z.workers && z.workers[w].Answered?
      ensures z.workers[w].answer != Raised ==> Submitted(y, actions + [a], z.workers[w].id, z.workers[w].answer)
      ensures z.workers[w].id in z.log
    {
      WorkersTraced(y, actions, a, w);
    }
    forall k | 0 <= k < |z.books.payouts|
      ensures var p := z.books.payouts[k];
              && (Ended(p) ==> k in z.log)
              && (p.status == Completed ==>
                    p.reference.Some? && Submitted(y, actions + [a], k, Accepted(p.reference.value)))
    {
      PayoutsTraced(y, actions, a, k);
    }
  }

  /** In every reachable state a payout that has ended was submitted to the external provider. */
  lemma EndedWasSubmitted(providers: set<int>, actions: seq<Action>, k: int)
    requires var s := Run(Empty(providers), actions).books;
             0 <= k < |s.payouts| && (s.payouts[k].status == Completed || s.payouts[k].status == Failed)
    ensures k in Run(Empty(providers), actions).log
  {
    RunTraced(providers, actions);
  }

  /** A COMPLETED payout carries a reference under which the external provider accepted it when it was submitted. */
  lemma CompletedWasAccepted(providers: set<int>, actions: seq<Action>, k: int)
    requires var s := Run(Empty(providers), actions).books; 0 <= k < |s.payouts| && s.payouts[k].status == Completed
    ensures var p := Run(Empty(providers), actions).books.payouts[k];
            p.reference.Some? && Submitted(Empty(providers), actions, k, Accepted(p.reference.value))
  {
    RunTraced(providers, actions);
  }

  // ----- Crashed workers ----------------------------------------------------------------------------------------

  /** The payout is in nobody's hands. */
  ghost predicate Orphaned(y: System, k: int) {
    && 0 <= k < |y.books.payouts| && y.books.payouts[k].status == Processing
    && forall w :: w in y.workers ==> Owned(y.workers[w]) != Some(k)
  }

  /** A worker that crashes with a payout in hand orphans it. */
  lemma CrashOrphans(y: System, w: int)
    requires WorkersSound(y) && w in y.workers && Owned(y.workers[w]).Some?
    ensures Orphaned(Next(y, WorkerCrashes(w)), Owned(y.workers[w]).value)
  {
    assert WorkerSound(y.workers[w], y.books.payouts, y.log);
  }

  lemma OrphanStep(y: System, a: Action, k: int)
    requires SystemSound(y) && Orphaned(y, k)
    ensures Orphaned(Next(y, a), k) && Next(y, a).books.payouts[k] == y.books.payouts[k]
  {
    NextPayoutStep(y, a, k);
  }

  /** No continuation ever settles, submits or releases an orphaned payout: it stays in PROCESSING. */
  lemma {:induction false} OrphansStay(y: System, actions: seq<Action>, k: int)
    requires SystemSound(y) && Orphaned(y, k)
    ensures Orphaned(Run(y, actions), k) && Run(y, actions).books.payouts[k] == y.books.payouts[k]
    decreases |actions|
  {
    if actions != [] {
      var before := actions[..|actions| - 1];
      OrphansStay(y, before, k);
      RunKeeps(y, before);
      OrphanStep(Run(y, before), actions[|actions| - 1], k);
    }
  }
}
