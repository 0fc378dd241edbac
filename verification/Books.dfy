/**
 The money tables. A row's id is its position, as rows are only appended and updated in place.
 */
module Books {
  import opened Options
  import opened Statuses
  import opened Earnings

  datatype PaymentStatus =
    | PaymentPending | RequiresAction | Succeeded | PaymentFailed | Canceled | Refunded

  datatype RefundStatus = RefundPending | RefundSucceeded | RefundFailed

  datatype PayoutStatus = PayoutPending | Processing | Completed | Failed

  datatype Booking = Booking(provider: int, startsAt: int, status: AppointmentStatus)

  datatype Payment = Payment(appointment: int, amount: nat, currency: string, createdAt: int, isDeposit: bool,
                             status: PaymentStatus)

  datatype Refund = Refund(payment: int, amount: int, status: RefundStatus)

  datatype Payout = Payout(provider: int, total: int, currency: string, status: PayoutStatus,
                           reference: Option<string>)

  /** One consistent state of all the money tables. */
  datatype Snapshot = Snapshot(
    providers: set<int>,
    bookings: seq<Booking>,
    payments: seq<Payment>,
    refunds: seq<Refund>,
    earnings: seq<Earning>,
    payouts: seq<Payout>)

  class Database {
    const providers: set<int>
    var bookings: seq<Booking>
    var payments: seq<Payment>
    var refunds: seq<Refund>
    var earnings: seq<Earning>
    var payouts: seq<Payout>

    constructor (providers: set<int>)
      ensures Contents() == Snapshot(providers, [], [], [], [], [])
    {
      this.providers := providers;
      bookings, payments, refunds, earnings, payouts := [], [], [], [], [];
    }

    function Contents(): Snapshot
      reads this
    {
      Snapshot(providers, bookings, payments, refunds, earnings, payouts)
    }
  }
}
