/** The statuses an appointment goes through, and which of them occupy the provider's time. */
module Statuses {
  datatype AppointmentStatus = Pending | PendingPayment | Confirmed | Cancelled | AppointmentCompleted | NoShow

  predicate Blocking(s: AppointmentStatus) {
    s == Pending || s == PendingPayment || s == Confirmed
  }
}
