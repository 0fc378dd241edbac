/**
 Payouts collect the earnings that are ready, and release them again when they fail. The conservation
 law: for every provider and currency, what was earned is what was kept as fees, refunded, is still
 ready, or sits in a payout that did not fail.
 */
module Ledger {
  import opened Options
  import opened Earnings
  import opened Books

  // ----- Sums over earnings -------------------------------------------------------------------

  function SumOf(es: seq<Earning>, f: Earning -> int): int {
    if es == [] then 0 else SumOf(es[..|es| - 1], f) + f(es[|es| - 1])
  }

  lemma {:induction false} SumSame(es: seq<Earning>, f: Earning -> int, fs: seq<Earning>, g: Earning -> int)
    requires |es| == |fs|
    requires forall i :: 0 <= i < |es| ==> f(es[i]) == g(fs[i])
    ensures SumOf(es, f) == SumOf(fs, g)
  {
    if es != [] {
      SumSame(es[..|es| - 1], f, fs[..|fs| - 1], g);
    }
  }

  lemma {:induction false} SumSplit(es: seq<Earning>, f: Earning -> int, g: Earning -> int, h: Earning -> int)
    requires forall i :: 0 <= i < |es| ==> f(es[i]) == g(es[i]) + h(es[i])
    ensures SumOf(es, f) == SumOf(es, g) + SumOf(es, h)
  {
    if es != [] {
      SumSplit(es[..|es| - 1], f, g, h);
    }
  }

  lemma {:induction false} SumZero(es: seq<Earning>, f: Earning -> int)
    requires forall i :: 0 <= i < |es| ==> f(es[i]) == 0
    ensures SumOf(es, f) == 0
  {
    if es != [] {
      SumZero(es[..|es| - 1], f);
    }
  }

  lemma {:induction false} SumAtLeast(es: seq<Earning>, f: Earning -> int, k: int)
    requires 0 <= k < |es|
    requires forall i :: 0 <= i < |es| ==> f(es[i]) >= 0
    ensures SumOf(es, f) >= f(es[k])
  {
    if k == |es| - 1 {
      SumNonNegative(es[..k], f);
    } else {
      SumAtLeast(es[..|es| - 1], f, k);
    }
  }

  lemma {:induction false} SumNonNegative(es: seq<Earning>, f: Earning -> int)
    requires forall i :: 0 <= i < |es| ==> f(es[i]) >= 0
    ensures SumOf(es, f) >= 0
  {
    if es != [] {
      SumNonNegative(es[..|es| - 1], f);
    }
  }

  // ----- The quantities of the conservation law ------------------------------------------------

  predicate Of(e: Earning, provider: int, currency: string) {
    e.provider == provider && e.currency == currency
  }

  function GrossTotal(es: seq<Earning>, provider: int, currency: string): int {
    SumOf(es, (e: Earning) => if Of(e, provider, currency) then e.gross else 0)
  }

  function FeeTotal(es: seq<Earning>, provider: int, currency: string): int {
    SumOf(es, (e: Earning) => if Of(e, provider, currency) then e.fee else 0)
  }

  function RefundedTotal(es: seq<Earning>, provider: int, currency: string): int {
    SumOf(es, (e: Earning) => if Of(e, provider, currency) then e.refunded else 0)
  }

  function ReadyTotal(es: seq<Earning>, provider: int, currency: string): int {
    SumOf(es, (e: Earning) =>
            if Of(e, provider, currency) && e.status == ReadyForPayout then e.providerAmount else 0)
  }

  function HeldTotal(es: seq<Earning>, provider: int, currency: string): int {
    SumOf(es, (e: Earning) => if Of(e, provider, currency) && e.payout.Some? then e.providerAmount else 0)
  }

  /** The part of `HeldTotal` held by the first `n` payouts. */
  function HeldBelow(es: seq<Earning>, provider: int, currency: string, n: nat): int {
    SumOf(es, (e: Earning) =>
            if Of(e, provider, currency) && e.payout.Some? && e.payout.value < n then e.providerAmount else 0)
  }

  /** What the earnings linked to payout `k` amount to. */
  function LinkedTotal(es: seq<Earning>, k: int): int {
    SumOf(es, (e: Earning) => if e.payout == Some(k) then e.providerAmount else 0)
  }

  /** Totals of the payouts that did not fail. */
  function PaidTotal(ps: seq<Payout>, provider: int, currency: string): int {
    if ps == [] then 0
    else
      var p := ps[|ps| - 1];
      PaidTotal(ps[..|ps| - 1], provider, currency)
      + if p.provider == provider && p.currency == currency && p.status != Failed then p.total else 0
  }

  predicate Conserved(es: seq<Earning>, ps: seq<Payout>, provider: int, currency: string) {
    GrossTotal(es, provider, currency)
    == FeeTotal(es, provider, currency) + RefundedTotal(es, provider, currency)
       + ReadyTotal(es, provider, currency) + PaidTotal(ps, provider, currency)
  }

  // ----- The invariant ------------------------------------------------------------------------

  /** A linked earning belongs to a payout that did not fail, of its own provider and currency. */
  predicate LinkSound(e: Earning, ps: seq<Payout>) {
    e.payout.Some? ==>
      && 0 <= e.payout.value < |ps|
      && ps[e.payout.value].status != Failed
      && Of(e, ps[e.payout.value].provider, ps[e.payout.value].currency)
  }

  ghost predicate Balanced(es: seq<Earning>, ps: seq<Payout>) {
    && (forall i {:trigger es[i]} :: 0 <= i < |es| ==> Sound(es[i]) && LinkSound(es[i], ps))
    && (forall i, j :: 0 <= i < j < |es| ==> es[i].payment != es[j].payment)
    && (forall k :: 0 <= k < |ps| ==> ps[k].total > 0)
    && (forall k :: 0 <= k < |ps| && ps[k].status != Failed ==> ps[k].total == LinkedTotal(es, k))
  }

  lemma {:induction false} HeldIsPaid(es: seq<Earning>, ps: seq<Payout>, provider: int, currency: string, n: nat)
    requires Balanced(es, ps) && n <= |ps|
    ensures HeldBelow(es, provider, currency, n) == PaidTotal(ps[..n], provider, currency)
  {
    if n == 0 {
      SumZero(es, (e: Earning) =>
                if Of(e, provider, currency) && e.payout.Some? && e.payout.value < n then e.providerAmount else 0);
    } else {
      HeldIsPaid(es, ps, provider, currency, n - 1);
      assert ps[..n][..n - 1] == ps[..n - 1];
      var here := (e: Earning) => if Of(e, provider, currency) && e.payout == Some(n - 1) then e.providerAmount else 0;
      SumSplit(es,
               (e: Earning) => if Of(e, provider, currency) && e.payout.Some? && e.payout.value < n
                   then e.providerAmount else 0,
               (e: Earning) => if Of(e, provider, currency) && e.payout.Some? && e.payout.value < n - 1
                   then e.providerAmount else 0,
               here);
      var p := ps[n - 1];
      if p.provider == provider && p.currency == currency && p.status != Failed {
        SumSame(es, here, es, (e: Earning) => if e.payout == Some(n - 1) then e.providerAmount else 0);
      } else {
        SumZero(es, here);
      }
    }
  }

  /** The invariant of the ledger implies the conservation law, for every provider and currency. */
  lemma BalancedIsConserved(es: seq<Earning>, ps: seq<Payout>, provider: int, currency: string)
    requires Balanced(es, ps)
    ensures Conserved(es, ps, provider, currency)
  {
    var gross := (e: Earning) => if Of(e, provider, currency) then e.gross else 0;
    var fee := (e: Earning) => if Of(e, provider, currency) then e.fee else 0;
    var refunded := (e: Earning) => if Of(e, provider, currency) then e.refunded else 0;
    var ready := (e: Earning) =>
      if Of(e, provider, currency) && e.status == ReadyForPayout then e.providerAmount else 0;
    var held := (e: Earning) => if Of(e, provider, currency) && e.payout.Some? then e.providerAmount else 0;
    var share := (e: Earning) => if Of(e, provider, currency) then e.providerAmount else 0;
    var kept := (e: Earning) => if Of(e, provider, currency) then e.fee + e.refunded else 0;
    SumSplit(es, gross, kept, share);
    SumSplit(es, kept, fee, refunded);
    SumSplit(es, share, ready, held);
    HeldIsPaid(es, ps, provider, currency, |ps|);
    assert ps[..|ps|] == ps;
    SumSame(es, held, es,
            (e: Earning) => if Of(e, provider, currency) && e.payout.Some? && e.payout.value < |ps|
                then e.providerAmount else 0);
  }

  // ----- Creating earnings and refunding them ---------------------------------------------------

  /** The earning of a payment, if there is one. */
  function FindByPayment(es: seq<Earning>, payment: int): (r: Option<int>)
    ensures r.Some? ==> 0 <= r.value < |es| && es[r.value].payment == payment
    ensures r.None? ==> forall i :: 0 <= i < |es| ==> es[i].payment != payment
  {
    if es == [] then None
    else
      var found := FindByPayment(es[..|es| - 1], payment);
      if found.Some? then found
      else if es[|es| - 1].payment == payment then Some(|es| - 1)
      else None
  }

  lemma AddEarningKeeps(es: seq<Earning>, ps: seq<Payout>, e: Earning)
    requires Balanced(es, ps)
    requires Sound(e) && e.payout == None
    requires FindByPayment(es, e.payment) == None
    ensures Balanced(es + [e], ps)
  {
    forall k | 0 <= k < |ps| ensures LinkedTotal(es + [e], k) == LinkedTotal(es, k) {
      assert (es + [e])[..|es|] == es;
    }
  }

  function RefundEarning(es: seq<Earning>, payment: int, amount: int): seq<Earning> {
    match FindByPayment(es, payment)
    case None => es
    case Some(i) => es[i := ApplyRefund(es[i], amount)]
  }

  lemma RefundEarningKeeps(es: seq<Earning>, ps: seq<Payout>, payment: int, amount: int)
    requires Balanced(es, ps)
    ensures Balanced(RefundEarning(es, payment, amount), ps)
  {
    var es' := RefundEarning(es, payment, amount);
    var found := FindByPayment(es, payment);
    if found.Some? {
      ApplyRefundKeeps(es[found.value], amount);
      forall k | 0 <= k < |ps| ensures LinkedTotal(es', k) == LinkedTotal(es, k) {
        var linked := (e: Earning) => if e.payout == Some(k) then e.providerAmount else 0;
        SumSame(es', linked, es, linked);
      }
    }
  }

  // ----- Payouts ------------------------------------------------------------------------------

  predicate Collectable(e: Earning, provider: int) {
    && e.provider == provider && e.status == ReadyForPayout && e.providerAmount > 0 && e.payout == None
  }

  /** The ids of the collectable earnings, in order. */
  function ReadyFor(es: seq<Earning>, provider: int): (ids: seq<int>)
    ensures forall i :: i in ids <==> 0 <= i < |es| && Collectable(es[i], provider)
    ensures forall a :: 0 <= a < |ids| ==> 0 <= ids[a] < |es| && Collectable(es[ids[a]], provider)
    ensures forall a, b :: 0 <= a < b < |ids| ==> ids[a] < ids[b]
  {
    if es == [] then []
    else
      ReadyFor(es[..|es| - 1], provider) + if Collectable(es[|es| - 1], provider) then [|es| - 1] else []
  }

  function CollectableTotal(es: seq<Earning>, provider: int): int {
    SumOf(es, (e: Earning) => if Collectable(e, provider) then e.providerAmount else 0)
  }

  function Collect(e: Earning, provider: int, payout: int): Earning {
    if Collectable(e, provider) then e.(status := PaidOut, payout := Some(payout)) else e
  }

  predicate OneCurrency(es: seq<Earning>, provider: int) {
    forall i, j :: 0 <= i < |es| && 0 <= j < |es| && Collectable(es[i], provider) && Collectable(es[j], provider)
                   ==> es[i].currency == es[j].currency
  }

  /** The tables after a payout of everything that is ready for the provider. */
  function PayoutCreated(s: Snapshot, provider: int): (r: Result<Snapshot>)
    ensures r.Ok? <==>
            provider in s.providers && ReadyFor(s.earnings, provider) != [] && OneCurrency(s.earnings, provider)
  {
    var ready := ReadyFor(s.earnings, provider);
    if provider !in s.providers then Err(NotFound)
    else if ready == [] then Err(Invalid)
    else if !OneCurrency(s.earnings, provider) then Err(Mismatch)
    else
      var id := |s.payouts|;
      Ok(s.(payouts := s.payouts + [Payout(provider, CollectableTotal(s.earnings, provider),
                                           s.earnings[ready[0]].currency, PayoutPending, None)],
            earnings := seq(|s.earnings|, i requires 0 <= i < |s.earnings| => Collect(s.earnings[i], provider, id))))
  }

  lemma CollectedSound(s: Snapshot, provider: int)
    requires Balanced(s.earnings, s.payouts) && PayoutCreated(s, provider).Ok?
    ensures var s' := PayoutCreated(s, provider).value;
            forall i {:trigger s'.earnings[i]} :: 0 <= i < |s'.earnings| ==>
              Sound(s'.earnings[i]) && LinkSound(s'.earnings[i], s'.payouts)
  {
    var s' := PayoutCreated(s, provider).value;
    assert ReadyFor(s.earnings, provider)[0] in ReadyFor(s.earnings, provider);
    forall i | 0 <= i < |s'.earnings| ensures Sound(s'.earnings[i]) && LinkSound(s'.earnings[i], s'.payouts) {
      assert Sound(s.earnings[i]) && LinkSound(s.earnings[i], s.payouts);
    }
  }

  lemma PayoutCreatedKeeps(s: Snapshot, provider: int)
    requires Balanced(s.earnings, s.payouts) && PayoutCreated(s, provider).Ok?
    ensures var s' := PayoutCreated(s, provider).value; Balanced(s'.earnings, s'.payouts)
  {
    var s' := PayoutCreated(s, provider).value;
    var es, es', ps, ps' := s.earnings, s'.earnings, s.payouts, s'.payouts;
    var first := ReadyFor(es, provider)[0];
    assert first in ReadyFor(es, provider);
    CollectedSound(s, provider);
    SumAtLeast(es, (e: Earning) => if Collectable(e, provider) then e.providerAmount else 0, first);
    forall k | 0 <= k < |ps'| && ps'[k].status != Failed ensures ps'[k].total == LinkedTotal(es', k) {
      var linked := (e: Earning) => if e.payout == Some(k) then e.providerAmount else 0;
      if k < |ps| {
        SumSame(es', linked, es, linked);
      } else {
        SumSame(es', linked, es, (e: Earning) => if Collectable(e, provider) then e.providerAmount else 0);
      }
    }
  }

  function PayoutCompleted(s: Snapshot, k: int, reference: Option<string>): (r: Result<Snapshot>)
    ensures r.Ok? <==> 0 <= k < |s.payouts|
  {
    if !(0 <= k < |s.payouts|) then Err(NotFound)
    else if s.payouts[k].status == Completed then Ok(s)
    else
      Ok(s.(payouts := s.payouts[k := s.payouts[k].(status := Completed, reference :=
        if reference.Some? then reference else s.payouts[k].reference)]))
  }

  function Release(e: Earning, k: int): Earning {
    if e.payout == Some(k) then e.(status := ReadyForPayout, payout := None) else e
  }

  function PayoutFailed(s: Snapshot, k: int, reference: Option<string>): (r: Result<Snapshot>)
    ensures r.Ok? <==> 0 <= k < |s.payouts|
  {
    if !(0 <= k < |s.payouts|) then Err(NotFound)
    else if s.payouts[k].status == Failed then Ok(s)
    else
      Ok(s.(payouts := s.payouts[k := s.payouts[k].(status := Failed, reference :=
              if reference.Some? then reference else s.payouts[k].reference)],
            earnings := seq(|s.earnings|, i requires 0 <= i < |s.earnings| => Release(s.earnings[i], k))))
  }

  /** Changing a payout's status between the three that hold earnings leaves the books balanced. */
  lemma StatusChangeKeeps(es: seq<Earning>, ps: seq<Payout>, k: int, p: Payout)
    requires Balanced(es, ps) && 0 <= k < |ps|
    requires ps[k].status != Failed && p.status != Failed
    requires p.provider == ps[k].provider && p.total == ps[k].total && p.currency == ps[k].currency
    ensures Balanced(es, ps[k := p])
  {
    var ps' := ps[k := p];
    forall i | 0 <= i < |es| ensures Sound(es[i]) && LinkSound(es[i], ps') {
      assert LinkSound(es[i], ps);
    }
  }

  lemma PayoutFailedKeeps(s: Snapshot, k: int, reference: Option<string>)
    requires Balanced(s.earnings, s.payouts) && 0 <= k < |s.payouts|
    ensures var s' := PayoutFailed(s, k, reference).value; Balanced(s'.earnings, s'.payouts)
  {
    if s.payouts[k].status != Failed {
      var s' := PayoutFailed(s, k, reference).value;
      var es, es', ps, ps' := s.earnings, s'.earnings, s.payouts, s'.payouts;
      forall i | 0 <= i < |es'| ensures Sound(es'[i]) && LinkSound(es'[i], ps') {
        assert Sound(es[i]) && LinkSound(es[i], ps);
      }
      forall j | 0 <= j < |ps'| && ps'[j].status != Failed ensures ps'[j].total == LinkedTotal(es', j) {
        var linked := (e: Earning) => if e.payout == Some(j) then e.providerAmount else 0;
        SumSame(es', linked, es, linked);
      }
    }
  }

  lemma {:induction false} PaidTotalUpdate(ps: seq<Payout>, k: int, p: Payout, provider: int, currency: string)
    requires 0 <= k < |ps|
    ensures PaidTotal(ps[k := p], provider, currency)
            == PaidTotal(ps, provider, currency) - PaidTotal([ps[k]], provider, currency)
               + PaidTotal([p], provider, currency)
  {
    var n := |ps| - 1;
    if k < n {
      PaidTotalUpdate(ps[..n], k, p, provider, currency);
      assert ps[k := p][..n] == ps[..n][k := p];
    } else {
      assert ps[k := p][..n] == ps[..n];
    }
  }

  /**
   `PayoutCompleted` does not look at the status it replaces. Completing a payout keeps the law exactly
   when the payout had not failed: a failed payout has already released its earnings.
   */
  lemma CompletionConserves(s: Snapshot, k: int, reference: Option<string>)
    requires Balanced(s.earnings, s.payouts) && 0 <= k < |s.payouts|
    ensures var s', p := PayoutCompleted(s, k, reference).value, s.payouts[k];
            Conserved(s'.earnings, s'.payouts, p.provider, p.currency) <==> p.status != Failed
  {
    var s', p := PayoutCompleted(s, k, reference).value, s.payouts[k];
    BalancedIsConserved(s.earnings, s.payouts, p.provider, p.currency);
    PaidTotalUpdate(s.payouts, k, s'.payouts[k], p.provider, p.currency);
    assert s'.payouts == s.payouts[k := s'.payouts[k]];
    assert [p][..0] == [] && [s'.payouts[k]][..0] == [];
  }
}
