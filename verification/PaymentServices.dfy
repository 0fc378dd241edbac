/**
 Refunds, payment webhooks and the expiry sweep as they run, over the tables and the earning service.
 */
module PaymentServices {
  import opened Options
  import opened Statuses
  import opened Commission
  import opened Books
  import opened Payments
  import opened MoneyRuns
  import opened MoneyServices

  class RefundService {
    const db: Database
    const earningService: EarningService

    constructor (db: Database)
      ensures this.db == db && earningService.db == db
    {
      this.db := db;
      earningService := new EarningService(db);
    }

    method MarkRefundSucceeded(k: int) returns (ok: bool)
      requires earningService.db == db
      modifies db`refunds, db`payments, db`earnings
      ensures ok == RefundSettled(old(db.Contents()), k).Ok?
      ensures db.Contents() == Committed(old(db.Contents()), RefundSettled(old(db.Contents()), k))
    {
      if !(0 <= k < |db.refunds|) {
        return false;
      }
      var r := db.refunds[k];
      if r.status == RefundSucceeded {
        return true;
      }
      db.refunds := db.refunds[k := r.(status := RefundSucceeded)];
      if 0 <= r.payment < |db.payments| {
        var p := db.payments[r.payment];
        if SucceededRefunds(db.refunds, r.payment) >= p.amount {
          db.payments := db.payments[r.payment := p.(status := Refunded)];
        }
        earningService.ApplyRefundAdjustmentForPayment(r.payment, r.amount);
      }
      return true;
    }

    method MarkRefundFailed(k: int) returns (ok: bool)
      modifies db`refunds
      ensures ok == RefundDeclined(old(db.Contents()), k).Ok?
      ensures db.Contents() == Committed(old(db.Contents()), RefundDeclined(old(db.Contents()), k))
    {
      if !(0 <= k < |db.refunds|) {
        return false;
      }
      if db.refunds[k].status != RefundFailed {
        db.refunds := db.refunds[k := db.refunds[k].(status := RefundFailed)];
      }
      return true;
    }

    method CreateRefund(id: int, amount: int, accepted: bool) returns (ok: bool)
      requires earningService.db == db
      modifies db`refunds, db`payments, db`earnings
      ensures ok == RefundCreated(old(db.Contents()), id, amount, accepted).Ok?
      ensures db.Contents() == Committed(old(db.Contents()), RefundCreated(old(db.Contents()), id, amount, accepted))
    {
      if !(0 <= id < |db.payments|) || amount < 0 {
        return false;
      }
      if amount == 0 {
        return true;
      }
      if !Paid(db.payments[id].status) || amount > Refundable(db.Contents(), id) {
        return false;
      }
      var k := |db.refunds|;
      db.refunds := db.refunds + [Refund(id, amount, RefundPending)];
      if accepted {
        ok := MarkRefundSucceeded(k);
      } else {
        ok := MarkRefundFailed(k);
      }
    }

    method ProcessRefundForCancellation(a: int, service: Option<ServicePolicy>, now: int, accepted: bool)
      requires earningService.db == db && 0 <= a < |db.bookings| && db.bookings[a].status == Cancelled
      modifies db`refunds, db`payments, db`earnings
      ensures var s := old(db.Contents());
              match LatestPayment(s.payments, a)
              case None => db.Contents() == s
              case Some(id) =>
                db.Contents() == Committed(s, RefundCreated(s, id, CancellationRefund(s, id, service, now), accepted))
    {
      var latest := LatestPayment(db.payments, a);
      if latest.None? || !Paid(db.payments[latest.value].status) {
        return;
      }
      var amount := CancellationRefund(db.Contents(), latest.value, service, now);
      if amount <= 0 {
        return;
      }
      var _ := CreateRefund(latest.value, amount, accepted);
    }
  }

  class PaymentService {
    const db: Database
    const earningService: EarningService

    constructor (db: Database)
      ensures this.db == db && earningService.db == db
    {
      this.db := db;
      earningService := new EarningService(db);
    }

    /** A status webhook; when a step raises, the rows written before it are rolled back. */
    method MarkPaymentStatus(id: int, status: PaymentStatus, config: CommissionConfig) returns (ok: bool)
      requires earningService.db == db
      modifies db`payments, db`bookings, db`earnings
      ensures ok == StatusMarked(old(db.Contents()), id, status, config).Ok?
      ensures db.Contents() == Committed(old(db.Contents()), StatusMarked(old(db.Contents()), id, status, config))
    {
      if !(0 <= id < |db.payments|) {
        return false;
      }
      var p := db.payments[id];
      if Ignored(p.status, status) {
        return true;
      }
      var savedPayments, savedBookings := db.payments, db.bookings;
      db.payments := db.payments[id := p.(status := status)];
      var a := p.appointment;
      if !(0 <= a < |db.bookings|) {
        db.payments := savedPayments;
        return false;
      }
      if status == Succeeded {
        if db.bookings[a].status == PendingPayment || db.bookings[a].status == Pending {
          db.bookings := db.bookings[a := db.bookings[a].(status := Confirmed)];
        }
        assert db.bookings == savedBookings[a := ConfirmPaid(savedBookings[a])];
        var created := earningService.EnsureEarningForPayment(id, config);
        if created.Err? {
          db.payments, db.bookings := savedPayments, savedBookings;
          return false;
        }
      } else if status == PaymentFailed || status == Canceled {
        var _ := CancelPendingPaymentAppointment(a);
      }
      return true;
    }

    method CancelPendingPaymentAppointment(a: int) returns (cancelled: bool)
      requires 0 <= a < |db.bookings|
      modifies db`bookings
      ensures var b := old(db.bookings)[a];
              db.bookings == old(db.bookings)[a := Booking(b.provider, b.startsAt,
                                                          if b.status == PendingPayment then Cancelled else b.status)]
      ensures cancelled <==> old(db.bookings)[a].status == PendingPayment
    {
      if db.bookings[a].status != PendingPayment {
        assert db.bookings[a := db.bookings[a]] == db.bookings;
        return false;
      }
      db.bookings := db.bookings[a := db.bookings[a].(status := Cancelled)];
      return true;
    }

    method ExpireItem(id: int) returns (cancelled: bool)
      requires 0 <= id < |db.payments| && Unpaid(db.payments[id].status)
      requires 0 <= db.payments[id].appointment < |db.bookings|
      modifies db`payments, db`bookings
      ensures db.Contents() == ExpireOne(old(db.Contents()), id)
      ensures WaitingBookings(old(db.bookings)) - WaitingBookings(db.bookings) == if cancelled then 1 else 0
    {
      var a := db.payments[id].appointment;
      db.payments := db.payments[id := db.payments[id].(status := Canceled)];
      WaitingUpdate(db.bookings, a, CancelUnpaid(db.bookings[a]));
      cancelled := CancelPendingPaymentAppointment(a);
    }

    /**
     The expiry sweep. Each item is its own transaction, and one that raises is rolled back and counted;
     the counters say what the sweep did to the tables.
     */
    method ExpirePendingPayments(cutoff: int, faults: set<int>)
        returns (checked: nat, expired: nat, autoCanceled: nat, failed: nat)
      requires PaymentsHaveBookings(db.Contents())
      modifies db`payments, db`bookings
      ensures db.Contents() == Swept(old(db.Contents()), cutoff, faults)
      ensures checked == |ExpiredIds(old(db.payments), cutoff)| && expired + failed == checked
      ensures failed == 0 <==> forall i :: i in ExpiredIds(old(db.payments), cutoff) ==> i !in faults
      ensures autoCanceled == WaitingBookings(old(db.bookings)) - WaitingBookings(db.bookings) <= expired
    {
      checked, expired, autoCanceled, failed := 0, 0, 0, 0;
      ghost var start := db.Contents();
      var stale := ExpiredIds(db.payments, cutoff);
      for n := 0 to |stale|
        invariant db.Contents() == ExpireAll(start, stale[..n], faults)
        invariant checked == n && expired + failed == n
        invariant failed == 0 <==> forall i :: i in stale[..n] ==> i !in faults
        invariant autoCanceled == WaitingBookings(start.bookings) - WaitingBookings(db.bookings) <= expired
      {
        SweepStep(start, stale, n, faults);
        var id := stale[n];
        checked := checked + 1;
        if id in faults {
          failed := failed + 1;
        } else {
          var cancelled := ExpireItem(id);
          expired := expired + 1;
          if cancelled {
            autoCanceled := autoCanceled + 1;
          }
        }
      }
      assert stale[..|stale|] == stale;
    }
  }

  /** The item the sweep comes to next is as it was at the start, and its own transaction is the sweep's next step. */
  lemma SweepStep(s: Snapshot, stale: seq<int>, n: nat, faults: set<int>)
    requires PaymentsHaveBookings(s) && n < |stale|
    requires forall a :: 0 <= a < |stale| ==> 0 <= stale[a] < |s.payments| && Unpaid(s.payments[stale[a]].status)
    requires forall a, b :: 0 <= a < b < |stale| ==> stale[a] < stale[b]
    ensures var before := ExpireAll(s, stale[..n], faults);
            && PaymentsHaveBookings(before) && |before.payments| == |s.payments|
            && before.payments[stale[n]] == s.payments[stale[n]]
            && ExpireAll(s, stale[..n + 1], faults)
               == if stale[n] in faults then before else ExpireOne(before, stale[n])
    ensures (forall i :: i in stale[..n + 1] ==> i !in faults) <==>
            (forall i :: i in stale[..n] ==> i !in faults) && stale[n] !in faults
  {
    assert stale[..n + 1][..n] == stale[..n];
    assert stale[..n + 1] == stale[..n] + [stale[n]];
    ExpireAllPayments(s, stale[..n], faults);
  }

  /** How many appointments wait for a payment. */
  function WaitingBookings(bs: seq<Booking>): nat {
    if bs == [] then 0
    else WaitingBookings(bs[..|bs| - 1]) + if bs[|bs| - 1].status == PendingPayment then 1 else 0
  }

  lemma {:induction false} WaitingUpdate(bs: seq<Booking>, a: int, b: Booking)
    requires 0 <= a < |bs|
    ensures WaitingBookings(bs[a := b])
            == WaitingBookings(bs) - WaitingBookings([bs[a]]) + WaitingBookings([b])
  {
    var n := |bs| - 1;
    if a < n {
      WaitingUpdate(bs[..n], a, b);
      assert bs[a := b][..n] == bs[..n][a := b];
    } else {
      assert bs[a := b][..n] == bs[..n];
    }
  }

  /** Cancelling an appointment: the cancellation is committed first, the refund follows in transactions of its own. */
  method CancelAppointment(db: Database, refunds: RefundService, a: int, service: Option<ServicePolicy>, now: int,
      accepted: bool)
    returns (ok: bool)
    requires refunds.db == db && refunds.earningService.db == db
    modifies db`bookings, db`refunds, db`payments, db`earnings
    ensures ok == BookingCancelled(old(db.Contents()), a, service, now, accepted).Ok?
    ensures db.Contents()
            == Committed(old(db.Contents()), BookingCancelled(old(db.Contents()), a, service, now, accepted))
  {
    if !(0 <= a < |db.bookings|) {
      return false;
    }
    var b := db.bookings[a];
    if b.status == Cancelled {
      return true;
    }
    if b.status == AppointmentCompleted || b.status == NoShow {
      return false;
    }
    db.bookings := db.bookings[a := b.(status := Cancelled)];
    refunds.ProcessRefundForCancellation(a, service, now, accepted);
    return true;
  }
}
