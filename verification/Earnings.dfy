/**
 A provider's earning from one payment: how it is split when the payment succeeds, how refunds
 reduce it, and the closed form of any sequence of refunds on an earning that was never paid out.
 */
module Earnings {
  import opened Options
  import opened Rounding
  import opened Commission

  datatype EarningStatus = EarningPending | ReadyForPayout | PaidOut

  datatype Earning = Earning(
    provider: int,
    appointment: int,
    payment: int,
    payout: Option<int>,
    gross: int,
    fee: int,
    providerAmount: int,
    refunded: int,
    adjustmentPending: int,
    currency: string,
    status: EarningStatus)

  /** What every stored earning satisfies, whatever happened to it. */
  predicate Sound(e: Earning) {
    && 0 <= e.fee && 0 <= e.providerAmount && 0 <= e.refunded
    && e.fee + e.providerAmount + e.refunded == e.gross
    && 0 <= e.adjustmentPending <= e.gross - e.fee
    && (e.status == EarningPending <==> e.providerAmount == 0)
    && (e.status == PaidOut <==> e.payout.Some?)
  }

  function NewEarning(provider: int, appointment: int, payment: int, amount: nat, currency: string,
                      config: CommissionConfig): (r: Result<Earning>)
    ensures r.Err? <==> amount > 0 && !ValidConfig(config)
    ensures r.Ok? ==>
            Sound(r.value) && r.value.refunded == 0 && r.value.adjustmentPending == 0 && r.value.payout == None
    ensures r.Ok? ==>
            r.value.gross == amount && r.value.fee == PlatformFee(amount, config).value && r.value.currency == currency
    ensures r.Ok? ==> r.value.provider == provider && r.value.appointment == appointment && r.value.payment == payment
  {
    match PlatformFee(amount, config)
    case Err(error) => Err(error)
    case Ok(fee) =>
      var share := Max(amount - fee, 0);
      Ok(Earning(provider, appointment, payment, None, amount, fee, share, 0, 0, currency,
                 if share > 0 then ReadyForPayout else EarningPending))
  }

  /**
   The part of a refund of `amount` that the provider bears before any clamp: its share of the refund rounded
   half up, but at least one unit.
   */
  function RefundImpact(e: Earning, amount: int): (impact: nat)
    ensures impact > 0 <==> amount > 0 && e.gross > 0 && OriginalShare(e) > 0
    ensures impact > 0 ==> 2 * (amount * OriginalShare(e)) + e.gross < 2 * e.gross * (impact + 1)
    ensures impact > 1 ==> 2 * e.gross * impact <= 2 * (amount * OriginalShare(e)) + e.gross
  {
    if amount <= 0 || e.gross <= 0 || OriginalShare(e) <= 0 then 0
    else UnitImpact(amount, OriginalShare(e), e.gross)
  }

  function OriginalShare(e: Earning): int {
    e.providerAmount + e.refunded + e.adjustmentPending
  }

  /** The provider's rounded share of one refund on an earning of gross `g` and share `p`. */
  function UnitImpact(r: int, p: nat, g: nat): (impact: nat)
    requires g > 0
    ensures r > 0 <==> impact > 0
  {
    if r <= 0 then 0 else Max(HalfUp(r * p, g), 1)
  }

  function ApplyRefund(e: Earning, amount: int): Earning {
    var impact := RefundImpact(e, amount);
    if e.status == PaidOut then
      e.(adjustmentPending := e.adjustmentPending + Min(impact, Max(e.providerAmount - e.adjustmentPending, 0)))
    else
      var clamped := Min(impact, e.providerAmount);
      if clamped <= 0 then e
      else
        var rest := Max(e.providerAmount - clamped, 0);
        e.(providerAmount := rest, refunded := e.refunded + clamped,
           status := if rest == 0 then EarningPending else e.status)
  }

  /** A refund keeps the earning sound; once it is paid out, the amount owed to the provider is frozen. */
  lemma ApplyRefundKeeps(e: Earning, amount: int)
    requires Sound(e)
    ensures var e' := ApplyRefund(e, amount);
            && Sound(e')
            && e'.(providerAmount := e.providerAmount, refunded := e.refunded,
                   adjustmentPending := e.adjustmentPending, status := e.status) == e
            && (e.status == PaidOut ==> e'.providerAmount == e.providerAmount && e'.status == PaidOut)
            && e'.refunded >= e.refunded && e'.adjustmentPending >= e.adjustmentPending
  {
  }

  // ----- Refund sequences ---------------------------------------------------------------------

  function ApplyRefunds(e: Earning, rs: seq<int>): Earning
    decreases |rs|
  {
    if rs == [] then e else ApplyRefunds(ApplyRefund(e, rs[0]), rs[1..])
  }

  function TotalImpact(rs: seq<int>, p: nat, g: nat): (t: nat)
    requires g > 0
  {
    if rs == [] then 0 else UnitImpact(rs[0], p, g) + TotalImpact(rs[1..], p, g)
  }

  /** An earning no payout ever held: nothing is pending as an adjustment. */
  predicate NeverPaidOut(e: Earning) {
    Sound(e) && e.status != PaidOut && e.adjustmentPending == 0
  }

  lemma {:induction false} RefundsClampedSum(e: Earning, rs: seq<int>)
    requires NeverPaidOut(e) && e.gross > 0 && OriginalShare(e) > 0
    ensures var e', p := ApplyRefunds(e, rs), OriginalShare(e);
            && NeverPaidOut(e') && e'.gross == e.gross
            && e'.refunded == Min(p, e.refunded + TotalImpact(rs, p, e.gross))
            && e'.providerAmount == p - e'.refunded
            && e'.(providerAmount := e.providerAmount, refunded := e.refunded, status := e.status) == e
    decreases |rs|
  {
    if rs != [] {
      RefundsClampedSum(ApplyRefund(e, rs[0]), rs[1..]);
    }
  }

  lemma {:induction false} TotalImpactRemove(rs: seq<int>, k: nat, p: nat, g: nat)
    requires g > 0 && k < |rs|
    ensures TotalImpact(rs, p, g) == UnitImpact(rs[k], p, g) + TotalImpact(rs[..k] + rs[k + 1..], p, g)
  {
    var rest := rs[..k] + rs[k + 1..];
    if k == 0 {
      assert rest == rs[1..];
    } else {
      assert rest[1..] == rs[1..][..k - 1] + rs[1..][k..];
      TotalImpactRemove(rs[1..], k - 1, p, g);
    }
  }

  lemma {:induction false} TotalImpactPermuted(rs: seq<int>, qs: seq<int>, p: nat, g: nat)
    requires g > 0 && multiset(rs) == multiset(qs)
    ensures TotalImpact(rs, p, g) == TotalImpact(qs, p, g)
    decreases |rs|
  {
    if rs == [] {
      assert |multiset(qs)| == 0;
    } else {
      assert rs[0] in multiset(qs);
      var k :| 0 <= k < |qs| && qs[k] == rs[0];
      assert rs == [rs[0]] + rs[1..];
      assert qs == qs[..k] + [qs[k]] + qs[k + 1..];
      TotalImpactRemove(qs, k, p, g);
      var rest := qs[..k] + qs[k + 1..];
      assert multiset(rs) == multiset{rs[0]} + multiset(rs[1..]);
      assert multiset(qs) == multiset{rs[0]} + multiset(rest);
      assert multiset(rs[1..]) == multiset(rs) - multiset{rs[0]} == multiset(rest);
      TotalImpactPermuted(rs[1..], rest, p, g);
    }
  }

  /** The order in which refunds arrive does not matter, to any field of the earning. */
  lemma RefundOrderIrrelevant(e: Earning, rs: seq<int>, qs: seq<int>)
    requires NeverPaidOut(e) && multiset(rs) == multiset(qs)
    ensures ApplyRefunds(e, rs) == ApplyRefunds(e, qs)
  {
    if e.gross > 0 && OriginalShare(e) > 0 {
      RefundsClampedSum(e, rs);
      RefundsClampedSum(e, qs);
      TotalImpactPermuted(rs, qs, OriginalShare(e), e.gross);
    } else {
      RefundsWithoutShare(e, rs);
      RefundsWithoutShare(e, qs);
    }
  }

  lemma {:induction false} RefundsWithoutShare(e: Earning, rs: seq<int>)
    requires e.gross <= 0 || OriginalShare(e) <= 0
    requires e.status != PaidOut
    ensures ApplyRefunds(e, rs) == e
  {
    if rs != [] {
      RefundsWithoutShare(e, rs[1..]);
    }
  }

  /** Refunding the whole payment at once takes back the provider's whole share. */
  lemma FullRefundTakesWholeShare(e: Earning)
    requires NeverPaidOut(e) && e.refunded == 0 && e.providerAmount > 0
    ensures ApplyRefund(e, e.gross) ==
            e.(providerAmount := 0, refunded := e.providerAmount, status := EarningPending)
  {
    HalfUpExact(e.providerAmount, e.gross);
    assert e.gross * e.providerAmount == e.providerAmount * e.gross;
  }

  function Sum(rs: seq<int>): int {
    if rs == [] then 0 else rs[0] + Sum(rs[1..])
  }

  predicate AllPositive(rs: seq<int>) {
    forall i :: 0 <= i < |rs| ==> rs[i] > 0
  }

  lemma UnitImpactNearProportion(r: nat, p: nat, g: nat)
    requires r > 0 && g > 0
    ensures 2 * (p * r) - g < 2 * (g * UnitImpact(r, p, g))
    ensures g * UnitImpact(r, p, g) <= p * r + g
  {
    var h := HalfUp(r * p, g);
    assert r * p == p * r && 2 * g * h == 2 * (g * h) && 2 * g * (h + 1) == 2 * (g * h) + 2 * g;
    if h == 0 {
      MulMonotone(p, 0, r);
      assert g * UnitImpact(r, p, g) == g;
    }
  }

  lemma {:induction false} TotalImpactNearProportion(rs: seq<int>, p: nat, g: nat)
    requires g > 0 && AllPositive(rs)
    ensures 2 * (p * Sum(rs)) - g * |rs| <= 2 * (g * TotalImpact(rs, p, g))
    ensures g * TotalImpact(rs, p, g) <= p * Sum(rs) + g * |rs|
  {
    if rs != [] {
      TotalImpactNearProportion(rs[1..], p, g);
      UnitImpactNearProportion(rs[0], p, g);
      Distribute(g, UnitImpact(rs[0], p, g), TotalImpact(rs[1..], p, g));
      Distribute(p, rs[0], Sum(rs[1..]));
      Distribute(g, |rs| - 1, 1);
    }
  }

  /**
   The closed form: positive refunds `rs` on an untouched earning of share `p` and gross `g` leave
   `refunded == min(p, total of the unit impacts)`, which strays from the exact proportion
   `p * Sum(rs) / g` by at most half a unit a refund below (or is all of `p`) and one a refund above.
   The fractions are multiplied out.
   */
  lemma RefundClosedForm(e: Earning, rs: seq<int>)
    requires NeverPaidOut(e) && e.refunded == 0 && e.providerAmount > 0 && AllPositive(rs)
    ensures var e', p, g := ApplyRefunds(e, rs), e.providerAmount, e.gross;
            && e'.refunded == Min(p, TotalImpact(rs, p, g))
            && e'.providerAmount == p - e'.refunded
            && g * e'.refunded <= p * Sum(rs) + g * |rs|
            && (e'.refunded == p || 2 * (p * Sum(rs)) - g * |rs| <= 2 * (g * e'.refunded))
  {
    var p, g := e.providerAmount, e.gross;
    RefundsClampedSum(e, rs);
    TotalImpactNearProportion(rs, p, g);
    MulMonotone(g, Min(p, TotalImpact(rs, p, g)), TotalImpact(rs, p, g));
  }
}
