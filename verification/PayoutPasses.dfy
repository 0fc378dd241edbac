/**
 One pass of a payout worker: what it does to the tables, with every commit that may fail, and that it is the worker's
 own steps of the money machine run undisturbed.
 */
module PayoutPasses {
  import opened Options
  import opened Earnings
  import opened Books
  import opened Ledger
  import opened MoneyRuns

  /** What happens to each payout: the provider's answer, and which commits raise. */
  datatype Plan = Plan(answers: int -> Answer, claimFails: set<int>, settleFails: set<int>, markFails: set<int>)

  /** The payout is claimed, so it is submitted. */
  predicate Claimable(s: Snapshot, k: int, plan: Plan) {
    0 <= k < |s.payouts| && s.payouts[k].status == PayoutPending && k !in plan.claimFails
  }

  /** The provider answered and the commit of that answer went through. */
  predicate SettledAtOnce(k: int, plan: Plan) {
    !plan.answers(k).Raised? && k !in plan.settleFails
  }

  /** A claimed payout, settled by its answer; when that raises it is marked failed, and when that raises it stays. */
  function Settled(s: Snapshot, k: int, plan: Plan): Snapshot
    requires 0 <= k < |s.payouts|
  {
    match plan.answers(k)
    case Accepted(reference) =>
      if SettledAtOnce(k, plan) then PayoutCompleted(s, k, Some(reference)).value else MarkedFailed(s, k, plan)
    case Rejected(reference) =>
      if SettledAtOnce(k, plan) then PayoutFailed(s, k, Some(reference)).value else MarkedFailed(s, k, plan)
    case Raised => MarkedFailed(s, k, plan)
  }

  function MarkedFailed(s: Snapshot, k: int, plan: Plan): Snapshot
    requires 0 <= k < |s.payouts|
  {
    if k in plan.markFails then s else PayoutFailed(s, k, None).value
  }

  function ItemDone(s: Snapshot, k: int, plan: Plan): Snapshot {
    if Claimable(s, k, plan) then Settled(Claim(s, k), k, plan) else s
  }

  function PassBooks(s: Snapshot, ids: seq<int>, plan: Plan): Snapshot {
    if ids == [] then s else ItemDone(PassBooks(s, ids[..|ids| - 1], plan), ids[|ids| - 1], plan)
  }

  /** What the pass submits. */
  function PassLog(s: Snapshot, ids: seq<int>, plan: Plan): seq<int> {
    if ids == [] then []
    else
      var front, k := ids[..|ids| - 1], ids[|ids| - 1];
      PassLog(s, front, plan) + if Claimable(PassBooks(s, front, plan), k, plan) then [k] else []
  }

  /** How a claimed payout ends; one whose failure could not be recorded stays in processing. */
  function FinalStatus(k: int, plan: Plan): PayoutStatus {
    if SettledAtOnce(k, plan) then (if plan.answers(k).Accepted? then Completed else Failed)
    else if k in plan.markFails then Processing
    else Failed
  }

  predicate AllPending(s: Snapshot, ids: seq<int>) {
    && (forall a :: 0 <= a < |ids| ==> 0 <= ids[a] < |s.payouts| && s.payouts[ids[a]].status == PayoutPending)
    && (forall a, b :: 0 <= a < b < |ids| ==> ids[a] != ids[b])
  }

  predicate Worked(k: int, ids: seq<int>, plan: Plan) {
    k in ids && k !in plan.claimFails
  }

  lemma SettledOutcome(s: Snapshot, k: int, plan: Plan)
    requires 0 <= k < |s.payouts| && s.payouts[k].status == PayoutPending && k !in plan.claimFails
    ensures var t := ItemDone(s, k, plan);
            && |t.payouts| == |s.payouts| && |t.earnings| == |s.earnings|
            && (forall j :: 0 <= j < |s.payouts| && j != k ==> t.payouts[j] == s.payouts[j])
            && t.payouts[k].status == FinalStatus(k, plan)
            && (forall i :: 0 <= i < |s.earnings| ==>
                  t.earnings[i] == if FinalStatus(k, plan) == Failed then Release(s.earnings[i], k) else s.earnings[i])
  {
  }

  /**
   What a pass leaves: each listed payout whose claim went through ends by its answer, exactly the earnings of the
   failed ones are released, and everything else is as it was.
   */
  lemma {:induction false} PassOutcome(s: Snapshot, ids: seq<int>, plan: Plan)
    requires AllPending(s, ids)
    ensures var t := PassBooks(s, ids, plan);
            && |t.payouts| == |s.payouts| && |t.earnings| == |s.earnings|
            && (forall k :: 0 <= k < |s.payouts| ==>
                  t.payouts[k].status == if Worked(k, ids, plan) then FinalStatus(k, plan) else s.payouts[k].status)
            && (forall i :: 0 <= i < |s.earnings| ==> t.earnings[i] == ReleasedBy(s.earnings[i], ids, plan))
  {
    if ids != [] {
      var front, k := ids[..|ids| - 1], ids[|ids| - 1];
      PassOutcome(s, front, plan);
      assert forall j :: j in ids <==> j in front || j == k;
      var mid := PassBooks(s, front, plan);
      assert mid.payouts[k].status == PayoutPending;
      if k !in plan.claimFails {
        SettledOutcome(mid, k, plan);
      }
    }
  }

  /** A pass submits each listed payout whose claim went through, once. */
  lemma {:induction false} PassSubmits(s: Snapshot, ids: seq<int>, plan: Plan)
    requires AllPending(s, ids)
    ensures forall k :: k in PassLog(s, ids, plan) <==> Worked(k, ids, plan)
    ensures forall a, b :: 0 <= a < b < |PassLog(s, ids, plan)| ==> PassLog(s, ids, plan)[a] != PassLog(s, ids, plan)[b]
  {
    if ids != [] {
      var n := |ids| - 1;
      PassSubmits(s, ids[..n], plan);
      StillPending(s, ids, n, plan);
      assert forall j :: j in ids <==> j in ids[..n] || j == ids[n];
      assert ids[n] !in PassLog(s, ids[..n], plan);
    }
  }

  /** How many of the listed payouts are claimed and end completed. */
  function CompletedIn(ids: seq<int>, plan: Plan): nat {
    if ids == [] then 0
    else
      var front, k := ids[..|ids| - 1], ids[|ids| - 1];
      CompletedIn(front, plan) + if k !in plan.claimFails && FinalStatus(k, plan) == Completed then 1 else 0
  }

  /** One more item of a pass over payouts that are all pending. */
  lemma PassStep(s: Snapshot, ids: seq<int>, n: nat, plan: Plan)
    requires AllPending(s, ids) && n < |ids|
    ensures var mid, k := PassBooks(s, ids[..n], plan), ids[n];
            && |mid.payouts| == |s.payouts| && mid.payouts[k].status == PayoutPending
            && PassBooks(s, ids[..n + 1], plan)
               == (if k in plan.claimFails then mid else Settled(Claim(mid, k), k, plan))
            && PassLog(s, ids[..n + 1], plan) == PassLog(s, ids[..n], plan) + (if k in plan.claimFails then [] else [k])
    ensures CompletedIn(ids[..n + 1], plan)
         == CompletedIn(ids[..n], plan) + if ids[n] !in plan.claimFails && FinalStatus(ids[n], plan) == Completed
            then 1 else 0
  {
    assert ids[..n + 1][..n] == ids[..n];
    StillPending(s, ids, n, plan);
  }

  lemma StillPending(s: Snapshot, ids: seq<int>, n: nat, plan: Plan)
    requires AllPending(s, ids) && n < |ids|
    ensures var mid := PassBooks(s, ids[..n], plan);
            |mid.payouts| == |s.payouts| && mid.payouts[ids[n]].status == PayoutPending
  {
    PassOutcome(s, ids[..n], plan);
    assert ids[n] !in ids[..n];
  }

  function ReleasedBy(e: Earning, ids: seq<int>, plan: Plan): Earning {
    if e.payout.Some? && Worked(e.payout.value, ids, plan) && FinalStatus(e.payout.value, plan) == Failed
    then e.(status := ReadyForPayout, payout := None) else e
  }

  // ----- The worker's steps -----------------------------------------------------------------------

  function SettleSteps(w: int, k: int, plan: Plan): seq<Action> {
    if SettledAtOnce(k, plan) then [WorkerSettles(w, false)]
    else if plan.answers(k).Raised? then [WorkerSettles(w, k in plan.markFails)]
    else [WorkerSettles(w, true), WorkerSettles(w, k in plan.markFails)]
  }

  function ItemSteps(w: int, k: int, plan: Plan): seq<Action> {
    [WorkerClaims(w, k in plan.claimFails), WorkerSubmits(w, plan.answers(k))] + SettleSteps(w, k, plan)
  }

  function QueueSteps(w: int, ids: seq<int>, plan: Plan): seq<Action> {
    if ids == [] then [] else QueueSteps(w, ids[..|ids| - 1], plan) + ItemSteps(w, ids[|ids| - 1], plan)
  }

  /** List, work through the queue, and find it empty. */
  function PassSteps(w: int, ids: seq<int>, plan: Plan): seq<Action> {
    [WorkerLists(w)] + QueueSteps(w, ids, plan) + [WorkerClaims(w, false)]
  }

  lemma {:induction false} RunSplit(y: System, a: seq<Action>, b: seq<Action>)
    ensures Run(y, a + b) == Run(Run(y, a), b)
    decreases |b|
  {
    if b == [] {
      assert a + b == a;
    } else {
      assert (a + b)[..|a + b| - 1] == a + b[..|b| - 1];
      RunSplit(y, a, b[..|b| - 1]);
    }
  }

  lemma RunOne(y: System, a: Action)
    ensures Run(y, [a]) == Next(y, a)
  {
    assert [a][..0] == [];
  }

  lemma RunTwo(y: System, a: Action, b: Action)
    ensures Run(y, [a, b]) == Next(Next(y, a), b)
  {
    assert [a, b][..1] == [a];
    RunOne(y, a);
  }

  /** The system with these tables and log, and the worker in this state. */
  function Moved(y: System, w: int, books: Snapshot, worker: Worker, log: seq<int>): System {
    y.(books := books, workers := y.workers[w := worker], log := log)
  }

  lemma Overwritten(y: System, w: int, b1: Snapshot, w1: Worker, l1: seq<int>, b2: Snapshot, w2: Worker, l2: seq<int>)
    ensures Moved(Moved(y, w, b1, w1, l1), w, b2, w2, l2) == Moved(y, w, b2, w2, l2)
  {
    assert y.workers[w := w1][w := w2] == y.workers[w := w2];
  }

  lemma SettlesAtOnce(y: System, w: int, k: int, rest: seq<int>, plan: Plan)
    requires StateOf(y, w) == Answered(k, plan.answers(k), rest) && 0 <= k < |y.books.payouts|
    requires SettledAtOnce(k, plan)
    ensures Next(y, WorkerSettles(w, false)) == Moved(y, w, Settled(y.books, k, plan), Listed(rest), y.log)
  {
  }

  lemma SettlementRaises(y: System, w: int, k: int, answer: Answer, rest: seq<int>)
    requires StateOf(y, w) == Answered(k, answer, rest) && !answer.Raised?
    ensures Next(y, WorkerSettles(w, true)) == Moved(y, w, y.books, Answered(k, Raised, rest), y.log)
  {
  }

  lemma FailureIsMarked(y: System, w: int, k: int, rest: seq<int>, plan: Plan)
    requires StateOf(y, w) == Answered(k, Raised, rest) && 0 <= k < |y.books.payouts|
    ensures Next(y, WorkerSettles(w, k in plan.markFails))
            == Moved(y, w, MarkedFailed(y.books, k, plan), Listed(rest), y.log)
  {
  }

  lemma SettleRuns(y: System, w: int, k: int, rest: seq<int>, plan: Plan)
    requires StateOf(y, w) == Answered(k, plan.answers(k), rest) && 0 <= k < |y.books.payouts|
    ensures Run(y, SettleSteps(w, k, plan)) == Moved(y, w, Settled(y.books, k, plan), Listed(rest), y.log)
  {
    if SettledAtOnce(k, plan) {
      RunOne(y, WorkerSettles(w, false));
      SettlesAtOnce(y, w, k, rest, plan);
    } else if plan.answers(k).Raised? {
      RunOne(y, WorkerSettles(w, k in plan.markFails));
      FailureIsMarked(y, w, k, rest, plan);
    } else {
      var raised := Moved(y, w, y.books, Answered(k, Raised, rest), y.log);
      RunTwo(y, WorkerSettles(w, true), WorkerSettles(w, k in plan.markFails));
      SettlementRaises(y, w, k, plan.answers(k), rest);
      FailureIsMarked(raised, w, k, rest, plan);
      Overwritten(y, w, y.books, Answered(k, Raised, rest), y.log, Settled(y.books, k, plan), Listed(rest), y.log);
    }
  }

  lemma IdleSettles(y: System, w: int, fault: bool)
    requires StateOf(y, w).Listed?
    ensures Next(y, WorkerSettles(w, fault)) == y
  {
  }

  /** A worker with nothing in hand settles nothing. */
  lemma IdleSettleRuns(y: System, w: int, k: int, plan: Plan)
    requires StateOf(y, w).Listed?
    ensures Run(y, SettleSteps(w, k, plan)) == y
  {
    IdleSettles(y, w, k in plan.markFails);
    if SettledAtOnce(k, plan) {
      RunOne(y, WorkerSettles(w, false));
      IdleSettles(y, w, false);
    } else if plan.answers(k).Raised? {
      RunOne(y, WorkerSettles(w, k in plan.markFails));
    } else {
      RunTwo(y, WorkerSettles(w, true), WorkerSettles(w, k in plan.markFails));
      IdleSettles(y, w, true);
    }
  }

  /** The system after the worker's steps on one payout. */
  function ItemMoved(y: System, w: int, k: int, rest: seq<int>, plan: Plan): System {
    Moved(y, w, ItemDone(y.books, k, plan), Listed(rest), y.log + if Claimable(y.books, k, plan) then [k] else [])
  }

  lemma ItemRuns(y: System, w: int, k: int, rest: seq<int>, plan: Plan)
    requires StateOf(y, w) == Listed([k] + rest)
    ensures Run(y, ItemSteps(w, k, plan)) == ItemMoved(y, w, k, rest, plan)
  {
    var claim, submit := WorkerClaims(w, k in plan.claimFails), WorkerSubmits(w, plan.answers(k));
    assert ([k] + rest)[1..] == rest;
    RunSplit(y, [claim, submit], SettleSteps(w, k, plan));
    RunTwo(y, claim, submit);
    if Claimable(y.books, k, plan) {
      var books := Claim(y.books, k);
      var submitted := Moved(y, w, books, Answered(k, plan.answers(k), rest), y.log + [k]);
      Overwritten(y, w, books, Claimed(k, rest), y.log, books, Answered(k, plan.answers(k), rest), y.log + [k]);
      assert Next(Next(y, claim), submit) == submitted;
      SettleRuns(submitted, w, k, rest, plan);
      Overwritten(y, w, books, Answered(k, plan.answers(k), rest), y.log + [k],
                  Settled(books, k, plan), Listed(rest), y.log + [k]);
    } else {
      var skipped := Moved(y, w, y.books, Listed(rest), y.log);
      assert Next(Next(y, claim), submit) == skipped;
      IdleSettleRuns(skipped, w, k, plan);
      assert y.log + [] == y.log;
    }
  }

  /** The system after the first `n` payouts of the queue. */
  function QueueMoved(y: System, w: int, ids: seq<int>, n: nat, plan: Plan): System
    requires n <= |ids|
  {
    Moved(y, w, PassBooks(y.books, ids[..n], plan), Listed(ids[n..]), y.log + PassLog(y.books, ids[..n], plan))
  }

  lemma QueueMovesOn(y: System, w: int, ids: seq<int>, n: nat, plan: Plan)
    requires n < |ids|
    ensures ItemMoved(QueueMoved(y, w, ids, n, plan), w, ids[n], ids[n + 1..], plan)
            == QueueMoved(y, w, ids, n + 1, plan)
  {
    var here, there := QueueMoved(y, w, ids, n, plan), QueueMoved(y, w, ids, n + 1, plan);
    assert ids[..n + 1][..n] == ids[..n];
    assert there.books == ItemDone(here.books, ids[n], plan);
    assert there.log == here.log + if Claimable(here.books, ids[n], plan) then [ids[n]] else [];
    Overwritten(y, w, here.books, Listed(ids[n..]), here.log, there.books, Listed(ids[n + 1..]), there.log);
  }

  lemma {:induction false} QueueRuns(y: System, w: int, ids: seq<int>, n: nat, plan: Plan)
    requires n <= |ids| && StateOf(y, w) == Listed(ids) && w in y.workers
    ensures Run(y, QueueSteps(w, ids[..n], plan)) == QueueMoved(y, w, ids, n, plan)
  {
    if n == 0 {
      assert ids[..0] == [] && ids[0..] == ids && y.log + [] == y.log;
      assert y.workers[w := Listed(ids)] == y.workers;
    } else {
      var front, k := ids[..n - 1], ids[n - 1];
      assert ids[..n][..n - 1] == front && ids[n - 1..] == [k] + ids[n..];
      QueueRuns(y, w, ids, n - 1, plan);
      RunSplit(y, QueueSteps(w, front, plan), ItemSteps(w, k, plan));
      ItemRuns(QueueMoved(y, w, ids, n - 1, plan), w, k, ids[n..], plan);
      QueueMovesOn(y, w, ids, n - 1, plan);
    }
  }

  lemma ListRuns(y: System, w: int)
    requires StateOf(y, w) == Idle
    ensures Run(y, [WorkerLists(w)]) == Moved(y, w, y.books, Listed(PendingIds(y.books.payouts)), y.log)
  {
    RunOne(y, WorkerLists(w));
  }

  lemma EmptyRuns(y: System, w: int)
    requires StateOf(y, w) == Listed([])
    ensures Run(y, [WorkerClaims(w, false)]) == Moved(y, w, y.books, Idle, y.log)
  {
    RunOne(y, WorkerClaims(w, false));
  }

  /** An idle worker's steps, run undisturbed, are the pass: its tables, its submissions, and the worker idle again. */
  lemma PassIsRun(y: System, w: int, plan: Plan)
    requires StateOf(y, w) == Idle
    ensures var ids := PendingIds(y.books.payouts);
            Run(y, PassSteps(w, ids, plan))
            == Moved(y, w, PassBooks(y.books, ids, plan), Idle, y.log + PassLog(y.books, ids, plan))
  {
    var ids := PendingIds(y.books.payouts);
    var listed := Moved(y, w, y.books, Listed(ids), y.log);
    var books, log := PassBooks(y.books, ids, plan), y.log + PassLog(y.books, ids, plan);
    assert ids[..|ids|] == ids && ids[|ids|..] == [];
    RunSplit(y, [WorkerLists(w)] + QueueSteps(w, ids, plan), [WorkerClaims(w, false)]);
    RunSplit(y, [WorkerLists(w)], QueueSteps(w, ids, plan));
    ListRuns(y, w);
    QueueRuns(listed, w, ids, |ids|, plan);
    Overwritten(y, w, y.books, Listed(ids), y.log, books, Listed([]), log);
    EmptyRuns(Moved(y, w, books, Listed([]), log), w);
    Overwritten(y, w, books, Listed([]), log, books, Idle, log);
  }
}
