/**
 Payments, their appointments and their refunds: what a webhook, an expiry sweep, a refund or a
 cancellation does to the tables, as functions from one state to the next.
 */
module Payments {
  import opened Options
  import opened Rounding
  import opened Statuses
  import opened Commission
  import opened Earnings
  import opened Books
  import opened Ledger

  const HOUR := 3600

  predicate Unpaid(s: PaymentStatus) {
    s == PaymentPending || s == RequiresAction
  }

  predicate Paid(s: PaymentStatus) {
    s == Succeeded || s == Refunded
  }

  // ----- Status updates -----------------------------------------------------------------------

  /** A webhook that repeats the status, or would take a paid payment back, changes nothing. */
  predicate Ignored(previous: PaymentStatus, next: PaymentStatus) {
    previous == next || (Paid(previous) && !Paid(next))
  }

  function CancelUnpaid(b: Booking): Booking {
    if b.status == PendingPayment then b.(status := Cancelled) else b
  }

  function ConfirmPaid(b: Booking): Booking {
    if b.status == PendingPayment || b.status == Pending then b.(status := Confirmed) else b
  }

  /** The earning the payment must have: the existing one, or a new one. */
  function EarningEnsured(s: Snapshot, id: int, config: CommissionConfig): (r: Result<Snapshot>)
    requires 0 <= id < |s.payments| && 0 <= s.payments[id].appointment < |s.bookings|
  {
    if FindByPayment(s.earnings, id).Some? then Ok(s)
    else
      var p := s.payments[id];
      match NewEarning(s.bookings[p.appointment].provider, p.appointment, id, p.amount, p.currency, config)
      case Err(error) => Err(error)
      case Ok(e) => Ok(s.(earnings := s.earnings + [e]))
  }

  /** The effect of a status webhook. On an error nothing is committed. */
  function StatusMarked(s: Snapshot, id: int, status: PaymentStatus, config: CommissionConfig): (r: Result<Snapshot>)
  {
    if !(0 <= id < |s.payments|) then Err(NotFound)
    else if Ignored(s.payments[id].status, status) then Ok(s)
    else
      var a := s.payments[id].appointment;
      var s1 := s.(payments := s.payments[id := s.payments[id].(status := status)]);
      if !(0 <= a < |s.bookings|) then Err(NotFound)
      else if status == Succeeded then
        EarningEnsured(s1.(bookings := s.bookings[a := ConfirmPaid(s.bookings[a])]), id, config)
      else if status == PaymentFailed || status == Canceled then
        Ok(s1.(bookings := s.bookings[a := CancelUnpaid(s.bookings[a])]))
      else Ok(s1)
  }

  // ----- Expiry -------------------------------------------------------------------------------

  predicate Expired(p: Payment, cutoff: int) {
    Unpaid(p.status) && p.createdAt <= cutoff
  }

  /** The ids the sweep selects. The source orders them by creation time; the effect does not depend on it. */
  function ExpiredIds(ps: seq<Payment>, cutoff: int): (ids: seq<int>)
    ensures forall i :: i in ids <==> 0 <= i < |ps| && Expired(ps[i], cutoff)
    ensures forall a :: 0 <= a < |ids| ==> 0 <= ids[a] < |ps|
    ensures forall a, b :: 0 <= a < b < |ids| ==> ids[a] < ids[b]
  {
    if ps == [] then []
    else ExpiredIds(ps[..|ps| - 1], cutoff) + if Expired(ps[|ps| - 1], cutoff) then [|ps| - 1] else []
  }

  /** The sweep's effect on one selected payment that did not raise. */
  function ExpireOne(s: Snapshot, id: int): Snapshot {
    if !(0 <= id < |s.payments|) || !Unpaid(s.payments[id].status)
        || !(0 <= s.payments[id].appointment < |s.bookings|) then s
    else
      var a := s.payments[id].appointment;
      s.(payments := s.payments[id := s.payments[id].(status := Canceled)],
         bookings := s.bookings[a := CancelUnpaid(s.bookings[a])])
  }

  /** One item after another; the ids in `faults` raise, are rolled back and skipped. */
  function ExpireAll(s: Snapshot, ids: seq<int>, faults: set<int>): Snapshot
    decreases |ids|
  {
    if ids == [] then s
    else
      var rest := ExpireAll(s, ids[..|ids| - 1], faults);
      if ids[|ids| - 1] in faults then rest else ExpireOne(rest, ids[|ids| - 1])
  }

  function Swept(s: Snapshot, cutoff: int, faults: set<int>): Snapshot {
    ExpireAll(s, ExpiredIds(s.payments, cutoff), faults)
  }

  predicate PaymentsHaveBookings(s: Snapshot) {
    forall i :: 0 <= i < |s.payments| ==> 0 <= s.payments[i].appointment < |s.bookings|
  }

  /** The sweep cancels exactly the selected payments that did not raise, and touches no other payment. */
  lemma {:induction false} ExpireAllPayments(s: Snapshot, ids: seq<int>, faults: set<int>)
    requires forall a :: 0 <= a < |ids| ==> 0 <= ids[a] < |s.payments| && Unpaid(s.payments[ids[a]].status)
    requires PaymentsHaveBookings(s)
    ensures var s' := ExpireAll(s, ids, faults);
            && |s'.payments| == |s.payments| && |s'.bookings| == |s.bookings|
            && s'.refunds == s.refunds && s'.earnings == s.earnings && s'.payouts == s.payouts
            && s'.providers == s.providers
            && forall i :: 0 <= i < |s.payments| ==>
                 s'.payments[i]
                 == if i in ids && i !in faults then s.payments[i].(status := Canceled) else s.payments[i]
    decreases |ids|
  {
    if ids != [] {
      ExpireAllPayments(s, ids[..|ids| - 1], faults);
    }
  }

  /** After a sweep, what is still expired at that cutoff is exactly what raised. */
  lemma SweepLeavesFaults(s: Snapshot, cutoff: int, faults: set<int>, i: int)
    requires PaymentsHaveBookings(s)
    ensures PaymentsHaveBookings(Swept(s, cutoff, faults))
    ensures |Swept(s, cutoff, faults).payments| == |s.payments|
    ensures i in ExpiredIds(Swept(s, cutoff, faults).payments, cutoff) <==>
            i in ExpiredIds(s.payments, cutoff) && i in faults
  {
    ExpireAllPayments(s, ExpiredIds(s.payments, cutoff), faults);
  }

  /**
   A second sweep at the same cutoff changes nothing if and only if no selected payment raised in the first.
   */
  lemma SecondSweepIsIdle(s: Snapshot, cutoff: int, faults: set<int>)
    requires PaymentsHaveBookings(s)
    ensures var s' := Swept(s, cutoff, faults);
            Swept(s', cutoff, {}) == s' <==> forall i :: i in ExpiredIds(s.payments, cutoff) ==> i !in faults
  {
    var s' := Swept(s, cutoff, faults);
    var second := ExpiredIds(s'.payments, cutoff);
    if second == [] {
      forall i | i in ExpiredIds(s.payments, cutoff) ensures i !in faults {
        SweepLeavesFaults(s, cutoff, faults, i);
      }
    } else {
      assert second[0] in second;
      SweepLeavesFaults(s, cutoff, faults, second[0]);
      SweepCancels(s', cutoff, second[0]);
    }
  }

  lemma SweepCancels(s: Snapshot, cutoff: int, i: int)
    requires PaymentsHaveBookings(s) && i in ExpiredIds(s.payments, cutoff)
    ensures Swept(s, cutoff, {}) != s
  {
    ExpireAllPayments(s, ExpiredIds(s.payments, cutoff), {});
    assert Swept(s, cutoff, {}).payments[i].status == Canceled;
  }

  // ----- Refunds ------------------------------------------------------------------------------

  /** What was successfully refunded of a payment. */
  function SucceededRefunds(rs: seq<Refund>, payment: int): int {
    if rs == [] then 0
    else
      var r := rs[|rs| - 1];
      SucceededRefunds(rs[..|rs| - 1], payment)
      + if r.payment == payment && r.status == RefundSucceeded then r.amount else 0
  }

  function Refundable(s: Snapshot, id: int): int
    requires 0 <= id < |s.payments|
  {
    Max(s.payments[id].amount - SucceededRefunds(s.refunds, id), 0)
  }

  /** The provider accepted the refund: the payment may become refunded, and the earning bears its share. */
  function RefundSettled(s: Snapshot, k: int): Result<Snapshot> {
    if !(0 <= k < |s.refunds|) then Err(NotFound)
    else if s.refunds[k].status == RefundSucceeded then Ok(s)
    else
      var r := s.refunds[k];
      var s1 := s.(refunds := s.refunds[k := r.(status := RefundSucceeded)]);
      if !(0 <= r.payment < |s.payments|) then Ok(s1)
      else
        var p := s.payments[r.payment];
        Ok(s1.(payments := if SucceededRefunds(s1.refunds, r.payment) >= p.amount
                           then s.payments[r.payment := p.(status := Refunded)] else s.payments,
               earnings := RefundEarning(s.earnings, r.payment, r.amount)))
  }

  function RefundDeclined(s: Snapshot, k: int): Result<Snapshot> {
    if !(0 <= k < |s.refunds|) then Err(NotFound)
    else if s.refunds[k].status == RefundFailed then Ok(s)
    else Ok(s.(refunds := s.refunds[k := s.refunds[k].(status := RefundFailed)]))
  }

  predicate RefundAllowed(s: Snapshot, id: int, amount: int) {
    0 <= id < |s.payments| && Paid(s.payments[id].status) && 0 < amount <= Refundable(s, id)
  }

  /** A refund request, with the external provider's answer; asking for nothing does nothing. */
  function RefundCreated(s: Snapshot, id: int, amount: int, accepted: bool): (r: Result<Snapshot>)
    ensures r.Ok? <==> 0 <= id < |s.payments| && (amount == 0 || RefundAllowed(s, id, amount))
  {
    if !(0 <= id < |s.payments|) then Err(NotFound)
    else if amount < 0 then Err(Invalid)
    else if amount == 0 then Ok(s)
    else if !Paid(s.payments[id].status) then Err(Invalid)
    else if amount > Refundable(s, id) then Err(Invalid)
    else
      var k := |s.refunds|;
      var s1 := s.(refunds := s.refunds + [Refund(id, amount, RefundPending)]);
      if accepted then RefundSettled(s1, k) else RefundDeclined(s1, k)
  }

  // ----- Cancellation policies ------------------------------------------------------------------

  datatype PolicyType = Flexible | Moderate | Strict

  /** The part of the booked service that decides a refund; times are in seconds. */
  datatype ServicePolicy =
    ServicePolicy(requiresPayment: bool, policy: PolicyType, windowHours: nat, deposit: Option<nat>)

  /** A window of zero hours falls back to the default, as zero is false in the source. */
  function Window(p: ServicePolicy): int {
    if p.windowHours != 0 then p.windowHours
    else if p.policy == Moderate then 24
    else 48
  }

  function RetainedLate(p: ServicePolicy, pay: Payment): (r: nat) {
    if pay.isDeposit then pay.amount
    else if p.deposit.Some? then Min(p.deposit.value, pay.amount)
    else Max(HalfUp(pay.amount * 20, 100), 1)
  }

  function PolicyTarget(p: ServicePolicy, pay: Payment, startsAt: int, now: int): int {
    var early := startsAt - now >= Window(p) * HOUR;
    match p.policy
    case Flexible => pay.amount
    case Moderate => if early then pay.amount else Max(pay.amount - RetainedLate(p, pay), 0)
    case Strict => if early then HalfUp(pay.amount * 50, 100) else 0
  }

  function CancellationRefund(s: Snapshot, id: int, service: Option<ServicePolicy>, now: int): (amount: int)
    requires 0 <= id < |s.payments| && 0 <= s.payments[id].appointment < |s.bookings|
    ensures 0 <= amount <= Refundable(s, id)
  {
    var p := s.payments[id];
    if !Paid(p.status) || service.None? || !service.value.requiresPayment then 0
    else
      Min(Max(PolicyTarget(service.value, p, s.bookings[p.appointment].startsAt, now), 0), Refundable(s, id))
  }

  /**
   What each policy leaves of a payment nothing was refunded of yet: everything, half of it to the nearest unit, all
   but the deposit or the fifth that is kept, or nothing.
   */
  lemma CancellationAmounts(s: Snapshot, id: int, service: ServicePolicy, now: int)
    requires 0 <= id < |s.payments| && 0 <= s.payments[id].appointment < |s.bookings|
    requires Paid(s.payments[id].status) && service.requiresPayment && SucceededRefunds(s.refunds, id) == 0
    ensures var pay, r := s.payments[id], CancellationRefund(s, id, Some(service), now);
            var hours := if service.windowHours != 0 then service.windowHours
                         else if service.policy == Moderate then 24 else 48;
            var early := s.bookings[pay.appointment].startsAt - now >= 3600 * hours;
            && (service.policy == Flexible || (service.policy == Moderate && early) ==> r == pay.amount)
            && (service.policy == Strict && early ==> pay.amount <= 2 * r <= pay.amount + 1)
            && (service.policy == Strict && !early ==> r == 0)
            && (service.policy == Moderate && !early && pay.isDeposit ==> r == 0)
            && (service.policy == Moderate && !early && !pay.isDeposit ==>
                  var kept := pay.amount - r;
                  if service.deposit.Some? then kept == Min(service.deposit.value, pay.amount)
                  else (pay.amount <= 2 ==> kept == Min(1, pay.amount))
                       && (pay.amount > 2 ==> 2 * pay.amount - 5 <= 10 * kept <= 2 * pay.amount + 5))
  {
  }

  /** Nothing is refunded of an unpaid payment, or without a service that asks for payment. */
  lemma NothingToRefund(s: Snapshot, id: int, service: Option<ServicePolicy>, now: int)
    requires 0 <= id < |s.payments| && 0 <= s.payments[id].appointment < |s.bookings|
    requires (s.payments[id].status != Succeeded && s.payments[id].status != Refunded)
             || service.None? || !service.value.requiresPayment
    ensures CancellationRefund(s, id, service, now) == 0
  {
  }

  /** What was refunded before caps the policy's amount at the rest of the payment. */
  lemma EarlierRefundsCap(s: Snapshot, id: int, service: Option<ServicePolicy>, now: int)
    requires 0 <= id < |s.payments| && 0 <= s.payments[id].appointment < |s.bookings|
    requires 0 <= SucceededRefunds(s.refunds, id) <= s.payments[id].amount
    ensures CancellationRefund(s, id, service, now)
            == Min(CancellationRefund(s.(refunds := []), id, service, now),
                   s.payments[id].amount - SucceededRefunds(s.refunds, id))
  {
    var pay := s.payments[id];
    if service.Some? {
      AtMostAll(service.value, pay, s.bookings[pay.appointment].startsAt, now);
    }
  }

  lemma AtMostAll(p: ServicePolicy, pay: Payment, startsAt: int, now: int)
    ensures 0 <= PolicyTarget(p, pay, startsAt, now) <= pay.amount
  {
    HalfUpExact(pay.amount, 100);
    HalfUpMonotone(pay.amount * 50, pay.amount * 100, 100);
  }

  /** Cancelling earlier never refunds less, under any policy. */
  lemma EarlierNeverWorse(s: Snapshot, id: int, service: Option<ServicePolicy>, now: int, later: int)
    requires 0 <= id < |s.payments| && 0 <= s.payments[id].appointment < |s.bookings|
    requires now <= later
    ensures CancellationRefund(s, id, service, later) <= CancellationRefund(s, id, service, now)
  {
  }

  /** With one window set, strict refunds no more than moderate, and moderate no more than flexible. */
  lemma PoliciesOrdered(pay: Payment, window: nat, deposit: Option<nat>, startsAt: int, now: int)
    requires window > 0
    ensures var target := (t: PolicyType) => PolicyTarget(ServicePolicy(true, t, window, deposit), pay, startsAt, now);
            0 <= target(Strict) <= target(Moderate) <= target(Flexible)
  {
    HalfUpExact(pay.amount, 100);
    HalfUpMonotone(pay.amount * 50, pay.amount * 100, 100);
  }

  /** The newest payment of an appointment. Ids break ties, and grow with the creation time. */
  function LatestPayment(ps: seq<Payment>, appointment: int): (r: Option<int>)
    ensures r.Some? ==> 0 <= r.value < |ps| && ps[r.value].appointment == appointment
    ensures r.Some? ==> forall j :: r.value < j < |ps| ==> ps[j].appointment != appointment
    ensures r.None? ==> forall j :: 0 <= j < |ps| ==> ps[j].appointment != appointment
  {
    if ps == [] then None
    else if ps[|ps| - 1].appointment == appointment then Some(|ps| - 1)
    else LatestPayment(ps[..|ps| - 1], appointment)
  }

  /** Cancelling an appointment, and the refund that follows; a refund that raises leaves the cancellation. */
  function BookingCancelled(s: Snapshot, a: int, service: Option<ServicePolicy>, now: int, accepted: bool)
      : (r: Result<Snapshot>)
  {
    if !(0 <= a < |s.bookings|) then Err(NotFound)
    else if s.bookings[a].status == Cancelled then Ok(s)
    else if s.bookings[a].status == AppointmentCompleted || s.bookings[a].status == NoShow then Err(Invalid)
    else
      var s1 := s.(bookings := s.bookings[a := s.bookings[a].(status := Cancelled)]);
      match LatestPayment(s.payments, a)
      case None => Ok(s1)
      case Some(id) =>
        var refunded := RefundCreated(s1, id, CancellationRefund(s1, id, service, now), accepted);
        if refunded.Ok? then refunded else Ok(s1)
  }
}
