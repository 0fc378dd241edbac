/**
 What an accepted refund takes from a provider's earning, written out, and over runs: an earning no payout ever held has
 lost exactly the clamped sum of its payment's refunds.
 */
module RefundEffects {
  import opened Options
  import opened Rounding
  import opened Statuses
  import opened Commission
  import opened Earnings
  import opened Books
  import opened Ledger
  import opened Payments
  import opened MoneyRuns
  import opened MoneyTheorems

  // ----- One refund -------------------------------------------------------------------------------------

  /** The provider's share of the payment, of what is still owed, was refunded, or is pending as an adjustment. */
  function Share(e: Earning): int {
    e.providerAmount + e.refunded + e.adjustmentPending
  }

  /** The share of a refund that falls on the provider: to the nearest unit, but at least one. */
  function Impact(e: Earning, amount: nat): nat {
    if e.gross > 0 && Share(e) > 0 && amount > 0 then Max(HalfUp(amount * Share(e), e.gross), 1) else 0
  }

  /**
   An earning after a refund of its payment. Not paid out, it loses the impact as far as it reaches; paid out, the
   impact is noted as an adjustment as far as the amount paid out reaches.
   */
  function Reduced(e: Earning, amount: nat): Earning {
    if e.payout.Some? then
      e.(adjustmentPending := Max(e.adjustmentPending, Min(e.providerAmount, e.adjustmentPending + Impact(e, amount))))
    else
      var taken := Min(Impact(e, amount), e.providerAmount);
      e.(providerAmount := e.providerAmount - taken, refunded := e.refunded + taken,
         status := if e.providerAmount - taken == 0 then EarningPending else ReadyForPayout)
  }

  lemma AppliedIsReduced(e: Earning, amount: nat)
    requires Sound(e)
    ensures ApplyRefund(e, amount) == Reduced(e, amount)
  {
    assert RefundImpact(e, amount) == Impact(e, amount);
  }

  /** One payment has the status, every other is as it was. */
  predicate PaymentWritten(s: Snapshot, t: Snapshot, id: int, status: PaymentStatus) {
    && |t.payments| == |s.payments|
    && forall i :: 0 <= i < |s.payments| ==>
         var p := s.payments[i];
         t.payments[i] == Payment(p.appointment, p.amount, p.currency, p.createdAt, p.isDeposit,
                                  if i == id then status else p.status)
  }

  /** Exactly the payment's earning is reduced. */
  predicate EarningReduced(s: Snapshot, t: Snapshot, id: int, amount: nat) {
    && |t.earnings| == |s.earnings|
    && forall i :: 0 <= i < |s.earnings| ==>
         t.earnings[i] == if s.earnings[i].payment == id then Reduced(s.earnings[i], amount) else s.earnings[i]
  }

  lemma RefundedRows(s: Snapshot, id: int, amount: nat)
    requires Balanced(s.earnings, s.payouts)
    ensures EarningReduced(s, s.(earnings := RefundEarning(s.earnings, id, amount)), id, amount)
  {
    var found := FindByPayment(s.earnings, id);
    forall i | 0 <= i < |s.earnings|
      ensures RefundEarning(s.earnings, id, amount)[i]
              == if s.earnings[i].payment == id then Reduced(s.earnings[i], amount) else s.earnings[i]
    {
      if s.earnings[i].payment == id {
        assert found.Some? && found.value == i;
        AppliedIsReduced(s.earnings[i], amount);
      }
    }
  }

  /**
   One refund in the step that settles it: one more row; an accepted one that reaches the amount marks the payment
   REFUNDED, and the payment's earning alone is reduced. A declined one leaves payments and earnings alone.
   */
  lemma RefundEffect(s: Snapshot, id: int, amount: nat, accepted: bool)
    requires JointSound(s) && RefundAllowed(s, id, amount)
    ensures var t := RefundCreated(s, id, amount, accepted).value;
            && t.refunds == s.refunds + [Refund(id, amount, if accepted then RefundSucceeded else RefundFailed)]
            && PaymentWritten(s, t, id,
                              if accepted && SucceededRefunds(s.refunds, id) + amount >= s.payments[id].amount
                              then Refunded else s.payments[id].status)
            && (if accepted then EarningReduced(s, t, id, amount) else t.earnings == s.earnings)
            && t.bookings == s.bookings && t.payouts == s.payouts && t.providers == s.providers
  {
    RefundRow(s, id, amount, accepted);
    RefundCreatedKeeps(s, id, amount, accepted);
    RefundedRows(s, id, amount);
  }

  /** One refund row has the status, every other is as it was. */
  predicate RefundWritten(s: Snapshot, t: Snapshot, k: int, status: RefundStatus) {
    && |t.refunds| == |s.refunds|
    && forall i :: 0 <= i < |s.refunds| ==>
         t.refunds[i]
         == Refund(s.refunds[i].payment, s.refunds[i].amount, if i == k then status else s.refunds[i].status)
  }

  /**
   Any refund row as the provider's answer settles it. An acceptance reaches its payment and its earning once: repeated,
   it changes nothing.
   */
  lemma SettlementEffect(s: Snapshot, k: int)
    requires Balanced(s.earnings, s.payouts)
    ensures RefundSettled(s, k).Err? <==> !(0 <= k < |s.refunds|)
    ensures 0 <= k < |s.refunds| && s.refunds[k].status == RefundSucceeded ==> RefundSettled(s, k) == Ok(s)
    ensures 0 <= k < |s.refunds| && s.refunds[k].status != RefundSucceeded
            && 0 <= s.refunds[k].payment < |s.payments| && s.refunds[k].amount >= 0 ==>
              var t, id := RefundSettled(s, k).value, s.refunds[k].payment;
              && RefundWritten(s, t, k, RefundSucceeded)
              && PaymentWritten(s, t, id, if SucceededRefunds(t.refunds, id) >= s.payments[id].amount then Refunded
                                          else s.payments[id].status)
              && EarningReduced(s, t, id, s.refunds[k].amount)
              && t.bookings == s.bookings && t.payouts == s.payouts && t.providers == s.providers
  {
    if 0 <= k < |s.refunds| && s.refunds[k].amount >= 0 {
      RefundedRows(s, s.refunds[k].payment, s.refunds[k].amount);
    }
  }

  /** A declined refund row is marked, and nothing else changes. */
  lemma DeclineEffect(s: Snapshot, k: int)
    ensures RefundDeclined(s, k).Err? <==> !(0 <= k < |s.refunds|)
    ensures 0 <= k < |s.refunds| ==>
              var t := RefundDeclined(s, k).value;
              RefundWritten(s, t, k, RefundFailed) && t.(refunds := s.refunds) == s
  {
  }

  /** On an untouched earning: the whole share is at stake, and the impact is its rounded part. */
  lemma FirstRefundTakesItsPart(s: Snapshot, id: int, amount: nat, i: int)
    requires JointSound(s) && RefundAllowed(s, id, amount)
    requires 0 <= i < |s.earnings| && s.earnings[i].payment == id && s.earnings[i].providerAmount > 0
    requires s.earnings[i].payout == None && s.earnings[i].refunded == 0 && s.earnings[i].adjustmentPending == 0
    ensures var e, t := s.earnings[i], RefundCreated(s, id, amount, true).value;
            var taken := Min(e.providerAmount, Max(HalfUp(amount * e.providerAmount, e.gross), 1));
            && e.gross > 0 && |t.earnings| == |s.earnings|
            && t.earnings[i].refunded == taken && t.earnings[i].providerAmount == e.providerAmount - taken
            && forall j :: 0 <= j < |s.earnings| && j != i ==> t.earnings[j] == s.earnings[j]
  {
    assert Sound(s.earnings[i]);
    RefundEffect(s, id, amount, true);
  }

  // ----- The refunds of a payment -----------------------------------------------------------------------

  /** The amounts of the payment's succeeded refunds, in order. */
  function SucceededAmounts(rs: seq<Refund>, payment: int): seq<int> {
    if rs == [] then []
    else
      var before, r := SucceededAmounts(rs[..|rs| - 1], payment), rs[|rs| - 1];
      if r.payment == payment && r.status == RefundSucceeded then before + [r.amount] else before
  }

  lemma {:induction false} AmountsAppend(rs: seq<Refund>, qs: seq<Refund>, payment: int)
    ensures SucceededAmounts(rs + qs, payment) == SucceededAmounts(rs, payment) + SucceededAmounts(qs, payment)
  {
    if qs == [] {
      assert rs + qs == rs;
    } else {
      assert (rs + qs)[..|rs + qs| - 1] == rs + qs[..|qs| - 1];
      AmountsAppend(rs, qs[..|qs| - 1], payment);
    }
  }

  lemma {:induction false} RefundsAppend(e: Earning, xs: seq<int>, ys: seq<int>)
    ensures ApplyRefunds(e, xs + ys) == ApplyRefunds(ApplyRefunds(e, xs), ys)
    decreases |xs|
  {
    if xs == [] {
      assert xs + ys == ys;
    } else {
      assert (xs + ys)[1..] == xs[1..] + ys;
      RefundsAppend(ApplyRefund(e, xs[0]), xs[1..], ys);
    }
  }

  // ----- Runs -------------------------------------------------------------------------------------------

  /** The refund rows of `t` are those of `s` and the added rows. */
  predicate Adds(s: Snapshot, t: Snapshot, rows: seq<Refund>) {
    t.refunds == s.refunds + rows
  }

  /** In no state of the run was the earning linked to a payout. */
  predicate NeverLinked(y: System, actions: seq<Action>, i: int)
    decreases |actions|
  {
    && 0 <= i < |Run(y, actions).books.earnings| && Run(y, actions).books.earnings[i].payout == None
    && (actions != [] ==> NeverLinked(y, actions[..|actions| - 1], i))
  }

  /** A refund is the only thing that touches an earning which is not linked before or after the step. */
  lemma UnlinkedBooksStep(s: Snapshot, a: Action, i: int) returns (rows: seq<Refund>)
    requires JointSound(s) && 0 <= i < |s.earnings| && s.earnings[i].payout == None
    requires i < |BooksAfter(s, a).earnings| && BooksAfter(s, a).earnings[i].payout == None
    ensures var t := BooksAfter(s, a);
            Adds(s, t, rows)
            && t.earnings[i] == ApplyRefunds(s.earnings[i], SucceededAmounts(rows, s.earnings[i].payment))
  {
    rows := [];
    assert s.refunds + [] == s.refunds;
    match a
    case CancelBooking(b, service, now, accepted) => rows := UnlinkedCancel(s, b, service, now, accepted, i);
    case RequestRefund(id, amount, accepted) => rows := UnlinkedRefund(s, id, amount, accepted, i);
    case Sweep(cutoff, faults) => SweepPayouts(s, ExpiredIds(s.payments, cutoff), faults);
    case CreatePayout(provider) =>
    case _ =>
  }

  lemma UnlinkedCancel(s: Snapshot, b: int, service: Option<ServicePolicy>, now: int, accepted: bool, i: int)
    returns (rows: seq<Refund>)
    requires JointSound(s) && 0 <= i < |s.earnings|
    ensures var t := Committed(s, BookingCancelled(s, b, service, now, accepted));
            Adds(s, t, rows) && |t.earnings| == |s.earnings|
            && t.earnings[i] == ApplyRefunds(s.earnings[i], SucceededAmounts(rows, s.earnings[i].payment))
  {
    rows := [];
    assert s.refunds + [] == s.refunds;
    if 0 <= b < |s.bookings| && Blocking(s.bookings[b].status) {
      var s1 := s.(bookings := s.bookings[b := s.bookings[b].(status := Cancelled)]);
      BookingChangeKeeps(s, s1.bookings);
      var latest := LatestPayment(s.payments, b);
      if latest.Some? {
        rows := UnlinkedRefund(s1, latest.value, CancellationRefund(s1, latest.value, service, now), accepted, i);
      }
    }
  }

  lemma UnlinkedRefund(s: Snapshot, id: int, amount: int, accepted: bool, i: int) returns (rows: seq<Refund>)
    requires JointSound(s) && 0 <= i < |s.earnings|
    ensures var t := Committed(s, RefundCreated(s, id, amount, accepted));
            Adds(s, t, rows) && |t.earnings| == |s.earnings|
            && t.earnings[i] == ApplyRefunds(s.earnings[i], SucceededAmounts(rows, s.earnings[i].payment))
  {
    rows := [];
    assert s.refunds + [] == s.refunds;
    if RefundAllowed(s, id, amount) {
      RefundEffect(s, id, amount, accepted);
      rows := [Refund(id, amount, if accepted then RefundSucceeded else RefundFailed)];
      OneRow(s.earnings[i], rows[0]);
      AppliedIsReduced(s.earnings[i], amount);
    }
  }

  lemma OneRow(e: Earning, r: Refund)
    ensures ApplyRefunds(e, SucceededAmounts([r], e.payment))
            == if r.payment == e.payment && r.status == RefundSucceeded then ApplyRefund(e, r.amount) else e
  {
    assert [r][..0] == [];
    assert SucceededAmounts([r][..0], e.payment) == [];
    assert [] + [r.amount] == [r.amount];
    assert ApplyRefunds(e, [r.amount]) == ApplyRefunds(ApplyRefund(e, r.amount), [r.amount][1..]);
  }

  lemma UnlinkedStep(y: System, a: Action, i: int) returns (rows: seq<Refund>)
    requires SystemSound(y) && 0 <= i < |y.books.earnings| && y.books.earnings[i].payout == None
    requires i < |Next(y, a).books.earnings| && Next(y, a).books.earnings[i].payout == None
    ensures var s, t := y.books, Next(y, a).books;
            Adds(s, t, rows) && Follows(s.earnings[i], t.earnings[i], rows)
  {
    if a.WorkerLists? || a.WorkerClaims? || a.WorkerSubmits? || a.WorkerSettles? || a.WorkerCrashes? {
      rows := [];
      assert y.books.refunds + [] == y.books.refunds;
      WorkerLeavesUnlinked(y, a, i);
    } else {
      rows := UnlinkedBooksStep(y.books, a, i);
    }
  }

  lemma WorkerLeavesUnlinked(y: System, a: Action, i: int)
    requires 0 <= i < |y.books.earnings| && y.books.earnings[i].payout == None
    requires a.WorkerLists? || a.WorkerClaims? || a.WorkerSubmits? || a.WorkerSettles? || a.WorkerCrashes?
    ensures Next(y, a).books.refunds == y.books.refunds
    ensures i < |Next(y, a).books.earnings| && Next(y, a).books.earnings[i] == y.books.earnings[i]
  {
  }

  lemma {:induction false} RefundsKeepPayment(e: Earning, xs: seq<int>)
    ensures ApplyRefunds(e, xs).payment == e.payment
    decreases |xs|
  {
    if xs != [] {
      RefundsKeepPayment(ApplyRefund(e, xs[0]), xs[1..]);
    }
  }

  /** The earning after all the added rows, from the earning before them. */
  predicate Follows(e: Earning, f: Earning, rows: seq<Refund>) {
    f == ApplyRefunds(e, SucceededAmounts(rows, e.payment))
  }

  lemma FollowsOn(e: Earning, f: Earning, g: Earning, first: seq<Refund>, more: seq<Refund>)
    requires Follows(e, f, first) && Follows(f, g, more)
    ensures Follows(e, g, first + more)
  {
    RefundsKeepPayment(e, SucceededAmounts(first, e.payment));
    AmountsAppend(first, more, e.payment);
    RefundsAppend(e, SucceededAmounts(first, e.payment), SucceededAmounts(more, e.payment));
  }

  lemma {:induction false} UnlinkedRun(y: System, actions: seq<Action>, i: int) returns (rows: seq<Refund>)
    requires SystemSound(y) && 0 <= i < |y.books.earnings| && NeverLinked(y, actions, i)
    ensures var s, t := y.books, Run(y, actions).books;
            Adds(s, t, rows) && i < |t.earnings| && Follows(s.earnings[i], t.earnings[i], rows)
    decreases |actions|
  {
    if actions == [] {
      rows := [];
      assert y.books.refunds + [] == y.books.refunds;
    } else {
      var before, a := actions[..|actions| - 1], actions[|actions| - 1];
      var first := UnlinkedRun(y, before, i);
      RunKeeps(y, before);
      rows := UnlinkedOneMore(y.books, Run(y, before), a, i, first);
    }
  }

  lemma UnlinkedOneMore(s: Snapshot, z: System, a: Action, i: int, first: seq<Refund>) returns (rows: seq<Refund>)
    requires SystemSound(z) && 0 <= i < |s.earnings| && i < |z.books.earnings| && z.books.earnings[i].payout == None
    requires i < |Next(z, a).books.earnings| && Next(z, a).books.earnings[i].payout == None
    requires Adds(s, z.books, first) && Follows(s.earnings[i], z.books.earnings[i], first)
    ensures Adds(s, Next(z, a).books, rows) && Follows(s.earnings[i], Next(z, a).books.earnings[i], rows)
  {
    var more := UnlinkedStep(z, a, i);
    AddsOn(s, z.books, Next(z, a).books, first, more);
    FollowsOn(s.earnings[i], z.books.earnings[i], Next(z, a).books.earnings[i], first, more);
    rows := first + more;
  }

  lemma AddsOn(s: Snapshot, t: Snapshot, u: Snapshot, first: seq<Refund>, more: seq<Refund>)
    requires Adds(s, t, first) && Adds(t, u, more)
    ensures Adds(s, u, first + more)
  {
    assert s.refunds + first + more == s.refunds + (first + more);
  }

  /** What the refunds in `rows` take together from a share `p` of a payment of `g`, each rounded on its own. */
  function Impacts(rows: seq<Refund>, payment: int, p: int, g: int): nat {
    if p > 0 && g > 0 then TotalImpact(SucceededAmounts(rows, payment), p, g) else 0
  }

  /**
   From any reachable state with an untouched earning, and as long as no payout holds it, the earning has lost exactly
   the clamped sum of the impacts of its payment's refunds since then, and nothing else of it has changed.
   */
  lemma RefundsOverAllRuns(providers: set<int>, actions: seq<Action>, later: seq<Action>, i: int)
    requires var y := Run(Empty(providers), actions);
             && 0 <= i < |y.books.earnings| && NeverLinked(y, later, i)
             && y.books.earnings[i].refunded == 0 && y.books.earnings[i].adjustmentPending == 0
    ensures var s, t := Run(Empty(providers), actions).books, Run(Run(Empty(providers), actions), later).books;
            && |s.refunds| <= |t.refunds| && i < |t.earnings|
            && var e := s.earnings[i];
               var taken :=
                 Min(e.providerAmount, Impacts(t.refunds[|s.refunds|..], e.payment, e.providerAmount, e.gross));
               t.earnings[i] == e.(refunded := taken, providerAmount := e.providerAmount - taken,
                                   status := if e.providerAmount == taken then EarningPending else ReadyForPayout)
  {
    ReachableSound(providers, actions);
    var y := Run(Empty(providers), actions);
    NowUnlinked(y, later, i);
    var rows := UnlinkedRun(y, later, i);
    assert Run(y, later).books.refunds[|y.books.refunds|..] == rows;
    UntouchedFollows(y.books.earnings[i], Run(y, later).books.earnings[i], rows);
  }

  lemma {:induction false} NowUnlinked(y: System, actions: seq<Action>, i: int)
    requires NeverLinked(y, actions, i)
    ensures 0 <= i < |y.books.earnings| && y.books.earnings[i].payout == None
    decreases |actions|
  {
    if actions != [] {
      NowUnlinked(y, actions[..|actions| - 1], i);
    }
  }

  lemma UntouchedFollows(e: Earning, f: Earning, rows: seq<Refund>)
    requires Sound(e) && e.payout == None && e.refunded == 0 && e.adjustmentPending == 0 && Follows(e, f, rows)
    ensures var taken := Min(e.providerAmount, Impacts(rows, e.payment, e.providerAmount, e.gross));
            f == e.(refunded := taken, providerAmount := e.providerAmount - taken,
                    status := if e.providerAmount == taken then EarningPending else ReadyForPayout)
  {
    var amounts := SucceededAmounts(rows, e.payment);
    if e.providerAmount > 0 {
      RefundsClampedSum(e, amounts);
    } else {
      RefundsWithoutShare(e, amounts);
    }
  }

  // ----- Refunds from before the earning ------------------------------------------------------------------

  lemma {:induction false} ImpactsVanish(rows: seq<Refund>, payment: int, p: int, g: int)
    requires forall k :: 0 <= k < |rows| ==> rows[k].amount > 0
    requires p > 0 && g > 0
    ensures Impacts(rows, payment, p, g) == 0 <==> SucceededRefunds(rows, payment) == 0
    ensures SucceededRefunds(rows, payment) >= 0
  {
    if rows != [] {
      var n := |rows| - 1;
      ImpactsVanish(rows[..n], payment, p, g);
      var before, r := SucceededAmounts(rows[..n], payment), rows[n];
      if r.payment == payment && r.status == RefundSucceeded {
        ImpactOfLast(before, r.amount, p, g);
      }
    }
  }

  lemma {:induction false} ImpactOfLast(xs: seq<int>, x: int, p: nat, g: nat)
    requires g > 0
    ensures TotalImpact(xs + [x], p, g) == TotalImpact(xs, p, g) + UnitImpact(x, p, g)
  {
    if xs == [] {
      assert [] + [x] == [x] && [x][1..] == [];
    } else {
      assert (xs + [x])[1..] == xs[1..] + [x];
      ImpactOfLast(xs[1..], x, p, g);
    }
  }

  lemma {:induction false} ImpactsAppend(rows: seq<Refund>, more: seq<Refund>, payment: int, p: int, g: int)
    ensures Impacts(rows + more, payment, p, g)
            == Impacts(rows, payment, p, g) + Impacts(more, payment, p, g)
  {
    AmountsAppend(rows, more, payment);
    if p > 0 && g > 0 {
      TotalsAppend(SucceededAmounts(rows, payment), SucceededAmounts(more, payment), p, g);
    }
  }

  lemma {:induction false} TotalsAppend(xs: seq<int>, ys: seq<int>, p: nat, g: nat)
    requires g > 0
    ensures TotalImpact(xs + ys, p, g) == TotalImpact(xs, p, g) + TotalImpact(ys, p, g)
  {
    if xs == [] {
      assert xs + ys == ys;
    } else {
      assert (xs + ys)[1..] == xs[1..] + ys;
      TotalsAppend(xs[1..], ys, p, g);
    }
  }

  /**
   The earning accounts for all the succeeded refunds of its payment, in this state and every later one in which no
   payout has held it, if and only if none of them came before it, or it had no share to lose.
   */
  lemma AllRefundsCounted(providers: set<int>, actions: seq<Action>, i: int)
    requires var y := Run(Empty(providers), actions);
             && 0 <= i < |y.books.earnings| && y.books.earnings[i].payout == None
             && y.books.earnings[i].refunded == 0 && y.books.earnings[i].adjustmentPending == 0
    ensures var y := Run(Empty(providers), actions); var e := y.books.earnings[i];
            AlwaysCounted(y, i, e) <==> e.providerAmount == 0 || SucceededRefunds(y.books.refunds, e.payment) == 0
  {
    var y := Run(Empty(providers), actions);
    var e := y.books.earnings[i];
    ReachableSound(providers, actions);
    assert Sound(e);
    if e.providerAmount > 0 {
      ImpactsVanish(y.books.refunds, e.payment, e.providerAmount, e.gross);
    }
    if e.providerAmount == 0 || SucceededRefunds(y.books.refunds, e.payment) == 0 {
      forall later | NeverLinked(y, later, i) ensures Counted(Run(y, later).books, i, e) {
        RefundsOverAllRuns(providers, actions, later, i);
        var s, t := y.books, Run(y, later).books;
        assert t.refunds == s.refunds + t.refunds[|s.refunds|..] by {
          var rows := UnlinkedRun(y, later, i);
        }
        ImpactsAppend(s.refunds, t.refunds[|s.refunds|..], e.payment, e.providerAmount, e.gross);
      }
    } else {
      var none: seq<Action> := [];
      assert Run(y, none) == y && NeverLinked(y, none, i);
      assert !Counted(y.books, i, e);
    }
  }

  ghost predicate AlwaysCounted(y: System, i: int, e: Earning) {
    forall later :: NeverLinked(y, later, i) ==> Counted(Run(y, later).books, i, e)
  }

  /** The earning that once was `e` has lost what all the succeeded refunds of its payment take together. */
  predicate Counted(t: Snapshot, i: int, e: Earning) {
    0 <= i < |t.earnings|
    && t.earnings[i].refunded
       == Min(e.providerAmount, Impacts(t.refunds, e.payment, e.providerAmount, e.gross))
  }

  lemma RunMore(y: System, actions: seq<Action>, a: Action)
    ensures Run(y, actions + [a]) == Next(Run(y, actions), a)
  {
    assert (actions + [a])[..|actions|] == actions;
  }

  const WAITING := Booking(1, 0, Pending)
  const HALFWAY := Payment(0, 100, "EUR", 0, false, Refunded)

  /** A checkout whose payment is reported REFUNDED before it ever was SUCCEEDED. */
  function Reported(config: CommissionConfig): seq<Action> {
    [] + [NewBooking(1, 0, Pending)] + [NewCheckout(0, 100, "EUR", 0, false)] + [Webhook(0, Refunded, config)]
  }

  lemma AfterReport(config: CommissionConfig)
    ensures Run(Empty({1}), Reported(config)).books == Snapshot({1}, [WAITING], [HALFWAY], [], [], [])
  {
    var y := Empty({1});
    var booked, checkout := NewBooking(1, 0, Pending), NewCheckout(0, 100, "EUR", 0, false);
    RunMore(y, [], booked);
    RunMore(y, [] + [booked], checkout);
    RunMore(y, [] + [booked] + [checkout], Webhook(0, Refunded, config));
  }

  lemma AfterRefund(s: Snapshot)
    requires s.payments == [HALFWAY] && s.refunds == [] && s.earnings == []
    ensures var t := RefundCreated(s, 0, 50, true).value;
            RefundCreated(s, 0, 50, true).Ok? && t.payments == s.payments && t.earnings == s.earnings
            && t.bookings == s.bookings && SucceededRefunds(t.refunds, 0) == 50
  {
    RefundRow(s, 0, 50, true);
  }

  lemma AfterSuccess(s: Snapshot, config: CommissionConfig)
    requires s.bookings == [WAITING] && s.payments == [HALFWAY] && s.earnings == []
    requires config == CommissionConfig(Percentage, Some(0), Some(0))
    ensures var r := StatusMarked(s, 0, Succeeded, config);
            r.Ok? && r.value.refunds == s.refunds
            && r.value.earnings == [Earning(1, 0, 0, None, 100, 0, 100, 0, 0, "EUR", ReadyForPayout)]
  {
    PercentageFee(100, config);
    HalfUpExact(0, PERCENT_SCALE);
  }

  /** A refund accepted then is in the table when the payment succeeds, and the new earning knows nothing of it. */
  lemma EarlyRefundIsForgotten(config: CommissionConfig)
    requires config == CommissionConfig(Percentage, Some(0), Some(0))
    ensures var actions := Reported(config) + [RequestRefund(0, 50, true)] + [Webhook(0, Succeeded, config)];
            var s := Run(Empty({1}), actions).books;
            && |s.earnings| == 1 && s.earnings[0].payment == 0 && s.earnings[0].payout == None
            && s.earnings[0].refunded == 0 && s.earnings[0].adjustmentPending == 0
            && s.earnings[0].providerAmount == 100
            && SucceededRefunds(s.refunds, 0) == 50
  {
    var y, first := Empty({1}), Reported(config);
    AfterReport(config);
    RunMore(y, first, RequestRefund(0, 50, true));
    AfterRefund(Run(y, first).books);
    RunMore(y, first + [RequestRefund(0, 50, true)], Webhook(0, Succeeded, config));
    AfterSuccess(Run(y, first + [RequestRefund(0, 50, true)]).books, config);
  }
}
