/**
 The payment services as they run: methods that update the tables in place and loop over rows, each
 proved to have exactly the effect of the function that the theorems about all runs are stated for.
 */
module MoneyServices {
  import opened Options
  import opened Rounding
  import opened Commission
  import opened Earnings
  import opened Books
  import opened Ledger
  import opened Payments
  import opened MoneyRuns
  import opened PayoutPasses

  class EarningService {
    const db: Database

    constructor (db: Database)
      ensures this.db == db
    {
      this.db := db;
    }

    method EnsureEarningForPayment(id: int, config: CommissionConfig) returns (created: Result<bool>)
      requires 0 <= id < |db.payments| && 0 <= db.payments[id].appointment < |db.bookings|
      modifies db`earnings
      ensures var r := EarningEnsured(old(db.Contents()), id, config);
              && created.Err? == r.Err?
              && db.Contents() == Committed(old(db.Contents()), r)
      ensures created.Ok? ==> created.value == (|db.earnings| == |old(db.earnings)| + 1)
    {
      var existing := FindByPayment(db.earnings, id);
      if existing.Some? {
        return Ok(false);
      }
      var p := db.payments[id];
      var fee := PlatformFee(p.amount, config);
      if fee.Err? {
        return Err(fee.error);
      }
      var share := Max(p.amount - fee.value, 0);
      db.earnings := db.earnings + [
        Earning(db.bookings[p.appointment].provider, p.appointment, id, None, p.amount, fee.value, share, 0, 0,
                p.currency,
                if share > 0 then ReadyForPayout else EarningPending)];
      return Ok(true);
    }

    method ApplyRefundAdjustmentForPayment(payment: int, amount: int)
      modifies db`earnings
      ensures db.earnings == RefundEarning(old(db.earnings), payment, amount)
    {
      var found := FindByPayment(db.earnings, payment);
      if found.None? {
        return;
      }
      var e := db.earnings[found.value];
      var impact: int := RefundImpact(e, amount);
      if impact <= 0 {
        assert db.earnings[found.value := e] == db.earnings;
        return;
      }
      if e.status == PaidOut {
        impact := Min(impact, Max(e.providerAmount - e.adjustmentPending, 0));
        db.earnings := db.earnings[found.value := e.(adjustmentPending := e.adjustmentPending + impact)];
        return;
      }
      impact := Min(impact, e.providerAmount);
      if impact <= 0 {
        assert db.earnings[found.value := e] == db.earnings;
        return;
      }
      var rest := Max(e.providerAmount - impact, 0);
      db.earnings := db.earnings[found.value :=
        e.(providerAmount := rest, refunded := e.refunded + impact,
           status := if rest == 0 then EarningPending else e.status)];
    }
  }

  class PayoutService {
    const db: Database

    constructor (db: Database)
      ensures this.db == db
    {
      this.db := db;
    }

    /** Collects everything ready for the provider into a new payout, row by row. */
    method CreatePayout(provider: int) returns (id: Result<int>)
      modifies db`earnings, db`payouts
      ensures var r := PayoutCreated(old(db.Contents()), provider);
              && id.Ok? == r.Ok?
              && db.Contents() == Committed(old(db.Contents()), r)
      ensures id.Ok? ==> id.value == |old(db.payouts)|
    {
      if provider !in db.providers {
        return Err(NotFound);
      }
      var es := db.earnings;
      var ready := ReadyFor(es, provider);
      if ready == [] {
        return Err(Invalid);
      }
      var total, oneCurrency := TotalReady(provider);
      if !oneCurrency {
        return Err(Mismatch);
      }
      var payout := |db.payouts|;
      db.payouts := db.payouts + [Payout(provider, total, es[ready[0]].currency, PayoutPending, None)];
      LinkReady(provider, payout);
      return Ok(payout);
    }

    method TotalReady(provider: int) returns (total: int, oneCurrency: bool)
      requires ReadyFor(db.earnings, provider) != []
      ensures total == CollectableTotal(db.earnings, provider)
      ensures oneCurrency <==> OneCurrency(db.earnings, provider)
    {
      var ready := ReadyFor(db.earnings, provider);
      total, oneCurrency := Totals(db.earnings, ready);
      TotalOfReady(db.earnings, provider);
      CurrencyOfReady(db.earnings, provider, db.earnings[ready[0]].currency);
    }

    method LinkReady(provider: int, payout: int)
      modifies db`earnings
      ensures db.earnings ==
              seq(|old(db.earnings)|,
                  i requires 0 <= i < |old(db.earnings)| => Collect(old(db.earnings)[i], provider, payout))
    {
      var es := db.earnings;
      var ready := ReadyFor(es, provider);
      for k := 0 to |ready|
        invariant |db.earnings| == |es|
        invariant forall i :: 0 <= i < |es| ==> db.earnings[i] == if i in ready[..k]
                  then Collect(es[i], provider, payout) else es[i]
      {
        var e := db.earnings[ready[k]];
        db.earnings := db.earnings[ready[k] := e.(status := PaidOut, payout := Some(payout))];
      }
    }

    method MarkPayoutCompleted(k: int, reference: Option<string>) returns (ok: bool)
      modifies db`payouts
      ensures ok == PayoutCompleted(old(db.Contents()), k, reference).Ok?
      ensures db.Contents() == Committed(old(db.Contents()), PayoutCompleted(old(db.Contents()), k, reference))
    {
      if !(0 <= k < |db.payouts|) {
        return false;
      }
      var p := db.payouts[k];
      if p.status == Completed {
        return true;
      }
      db.payouts := db.payouts[k := p.(status := Completed,
                                       reference := if reference.Some? then reference else p.reference)];
      return true;
    }

    /** Releases the linked earnings one by one, then fails the payout. */
    method MarkPayoutFailed(k: int, reference: Option<string>) returns (ok: bool)
      modifies db`payouts, db`earnings
      ensures ok == PayoutFailed(old(db.Contents()), k, reference).Ok?
      ensures db.Contents() == Committed(old(db.Contents()), PayoutFailed(old(db.Contents()), k, reference))
    {
      if !(0 <= k < |db.payouts|) {
        return false;
      }
      var p := db.payouts[k];
      if p.status == Failed {
        return true;
      }
      var es := db.earnings;
      for i := 0 to |es|
        invariant db.payouts == old(db.payouts) && |db.earnings| == |es|
        invariant forall j :: 0 <= j < |es| ==> db.earnings[j] == if j < i then Release(es[j], k) else es[j]
      {
        if es[i].payout == Some(k) {
          db.earnings := db.earnings[i := es[i].(status := ReadyForPayout, payout := None)];
        }
      }
      assert db.earnings == seq(|es|, i requires 0 <= i < |es| => Release(es[i], k));
      db.payouts := db.payouts[k := p.(status := Failed,
                                       reference := if reference.Some? then reference else p.reference)];
      return true;
    }

    /** One pass of a worker; a commit that raises is rolled back, and the item ends as the plan of failures says. */
    method ProcessPendingPayouts(plan: Plan)
      returns (processed: nat, completed: nat, failed: nat, ghost log: seq<int>)
      modifies db`payouts, db`earnings
      ensures db.Contents() == PassBooks(old(db.Contents()), PendingIds(old(db.payouts)), plan)
      ensures log == PassLog(old(db.Contents()), PendingIds(old(db.payouts)), plan)
      ensures processed == |PendingIds(old(db.payouts))| && completed + failed == processed
      ensures completed == CompletedIn(PendingIds(old(db.payouts)), plan)
    {
      ghost var start := db.Contents();
      var pending := PendingIds(db.payouts);
      PendingAreDistinct(start, pending);
      log := [];
      processed, completed, failed := 0, 0, 0;
      for n := 0 to |pending|
        invariant db.Contents() == PassBooks(start, pending[..n], plan) && log == PassLog(start, pending[..n], plan)
        invariant processed == n && completed + failed == processed && completed == CompletedIn(pending[..n], plan)
      {
        PassStep(start, pending, n, plan);
        var done := ProcessItem(pending[n], plan);
        processed := processed + 1;
        log := log + if pending[n] in plan.claimFails then [] else [pending[n]];
        if done {
          completed := completed + 1;
        } else {
          failed := failed + 1;
        }
      }
      assert pending[..|pending|] == pending;
    }

    /** One pending payout: claim it, then settle it. */
    method ProcessItem(k: int, plan: Plan) returns (completed: bool)
      requires 0 <= k < |db.payouts| && db.payouts[k].status == PayoutPending
      modifies db`payouts, db`earnings
      ensures db.Contents() == if k in plan.claimFails then old(db.Contents())
                               else Settled(Claim(old(db.Contents()), k), k, plan)
      ensures completed <==> k !in plan.claimFails && FinalStatus(k, plan) == Completed
    {
      if k in plan.claimFails {
        return false;
      }
      db.payouts := db.payouts[k := db.payouts[k].(status := Processing)];
      completed := Settle(k, plan);
    }

    /** The provider's answer for a claimed payout, and the failure path when recording it raises. */
    method Settle(k: int, plan: Plan) returns (completed: bool)
      requires 0 <= k < |db.payouts| && db.payouts[k].status == Processing
      modifies db`payouts, db`earnings
      ensures db.Contents() == Settled(old(db.Contents()), k, plan)
      ensures completed <==> FinalStatus(k, plan) == Completed
    {
      var answer := plan.answers(k);
      if !answer.Raised? && k !in plan.settleFails {
        if answer.Accepted? {
          var _ := MarkPayoutCompleted(k, Some(answer.reference));
        } else {
          var _ := MarkPayoutFailed(k, Some(answer.reference));
        }
        return answer.Accepted?;
      }
      if k !in plan.markFails {
        var _ := MarkPayoutFailed(k, None);
      }
      return false;
    }
  }

  lemma PendingAreDistinct(s: Snapshot, pending: seq<int>)
    requires pending == PendingIds(s.payouts)
    ensures AllPending(s, pending)
  {
    PendingDistinct(s.payouts);
    assert forall a :: 0 <= a < |pending| ==> pending[a] in pending;
  }

  /** The sum of the listed earnings, and whether they share the first one's currency. */
  method Totals(es: seq<Earning>, ids: seq<int>) returns (total: int, oneCurrency: bool)
    requires ids != [] && forall a :: 0 <= a < |ids| ==> 0 <= ids[a] < |es|
    ensures total == TotalOf(es, ids)
    ensures oneCurrency <==> AllIn(es, ids, es[ids[0]].currency)
  {
    total, oneCurrency := 0, true;
    for k := 0 to |ids|
      invariant total == TotalOf(es, ids[..k])
      invariant oneCurrency <==> AllIn(es, ids[..k], es[ids[0]].currency)
    {
      TotalStep(es, ids, k);
      total := total + es[ids[k]].providerAmount;
      oneCurrency := oneCurrency && es[ids[k]].currency == es[ids[0]].currency;
    }
    assert ids[..|ids|] == ids;
  }

  function TotalOf(es: seq<Earning>, ids: seq<int>): int
    requires forall a :: 0 <= a < |ids| ==> 0 <= ids[a] < |es|
  {
    if ids == [] then 0 else TotalOf(es, ids[..|ids| - 1]) + es[ids[|ids| - 1]].providerAmount
  }

  /** Every listed earning is in the currency. */
  predicate AllIn(es: seq<Earning>, ids: seq<int>, currency: string)
    requires forall a :: 0 <= a < |ids| ==> 0 <= ids[a] < |es|
  {
    forall a :: 0 <= a < |ids| ==> es[ids[a]].currency == currency
  }

  lemma TotalStep(es: seq<Earning>, ids: seq<int>, k: nat)
    requires k < |ids| && forall a :: 0 <= a < |ids| ==> 0 <= ids[a] < |es|
    ensures TotalOf(es, ids[..k + 1]) == TotalOf(es, ids[..k]) + es[ids[k]].providerAmount
    ensures forall c :: AllIn(es, ids[..k + 1], c) <==> AllIn(es, ids[..k], c) && es[ids[k]].currency == c
  {
    assert ids[..k + 1][..k] == ids[..k];
    assert ids[..k + 1] == ids[..k] + [ids[k]];
  }

  lemma {:induction false} TotalOfPrefix(es: seq<Earning>, fs: seq<Earning>, ids: seq<int>)
    requires forall a :: 0 <= a < |ids| ==> 0 <= ids[a] < |es|
    requires es <= fs
    ensures TotalOf(es, ids) == TotalOf(fs, ids)
  {
    if ids != [] {
      TotalOfPrefix(es, fs, ids[..|ids| - 1]);
    }
  }

  lemma {:induction false} TotalOfReady(es: seq<Earning>, provider: int)
    ensures TotalOf(es, ReadyFor(es, provider)) == CollectableTotal(es, provider)
  {
    if es != [] {
      var init := es[..|es| - 1];
      TotalOfReady(init, provider);
      TotalOfPrefix(init, es, ReadyFor(init, provider));
      var last := if Collectable(es[|es| - 1], provider) then [|es| - 1] else [];
      if last != [] {
        assert (ReadyFor(init, provider) + last)[..|ReadyFor(init, provider)|] == ReadyFor(init, provider);
      } else {
        assert ReadyFor(init, provider) + last == ReadyFor(init, provider);
      }
    }
  }

  lemma CurrencyOfReady(es: seq<Earning>, provider: int, currency: string)
    requires ReadyFor(es, provider) != [] && currency == es[ReadyFor(es, provider)[0]].currency
    ensures OneCurrency(es, provider)
            <==> AllIn(es, ReadyFor(es, provider), currency)
  {
    var ready := ReadyFor(es, provider);
    if AllIn(es, ready, currency) {
      forall i | 0 <= i < |es| && Collectable(es[i], provider) ensures es[i].currency == currency {
        assert i in ready;
      }
    }
  }

  lemma {:induction false} PendingDistinct(ps: seq<Payout>)
    ensures forall a, b :: 0 <= a < b < |PendingIds(ps)| ==> PendingIds(ps)[a] < PendingIds(ps)[b]
  {
    if ps != [] {
      var init := ps[..|ps| - 1];
      PendingDistinct(init);
      forall a | 0 <= a < |PendingIds(init)| ensures PendingIds(init)[a] < |ps| - 1 {
        assert PendingIds(init)[a] in PendingIds(init);
      }
    }
  }
}
