/** The payment domain: statuses, payment methods and the webhook event a gateway sends.
    A UUID is represented by its canonical text. */
module Payments {

  type Uuid = string

  datatype OrderStatus = OrderPending | Paid | OrderFailed

  datatype PaymentStatus = Pending | Success | Failed

  datatype PaymentMethod = Upi | Card

  datatype Event = Event(
    eventId: string,
    gateway: string,
    orderId: Uuid,
    paymentId: Uuid,
    gatewayTxnId: string,
    status: PaymentStatus,
    amount: int,
    signature: string,
    occurredAt: int)
}
