/** The messages exchanged between the services (the shared contracts library). */
module Contracts {

  /** `decimal Amount`: never computed with, only copied, so whole cents stand for it. */
  type Amount = int

  /** `DateTimeOffset`: an instant read from the clock, which the model takes as a parameter. */
  type Instant = int

  /** Published by the Order API for every accepted submission. */
  datatype OrderCreated = OrderCreated(
    orderId: string,
    customerId: string,
    amount: Amount,
    occurredAtUtc: Instant,
    correlationId: string)

  /** Published by the billing worker once per order it bills. */
  datatype BillingCompleted = BillingCompleted(
    orderId: string,
    customerId: string,
    amount: Amount,
    billedAtUtc: Instant,
    correlationId: string)
}
