/** The order API's POST /orders: builds an OrderCreated from the request, publishes it once
    and answers 202 Accepted with the order id and correlation id. */
module OrderApi {
  import opened Wrappers
  import opened Contracts

  /** The request body; a JSON null order id or customer id reads as absent. */
  datatype OrderRequest = OrderRequest(orderId: Option<string>, customerId: Option<string>, amount: Amount)

  /** The handler's answer.  PublishFault is the publish throwing, which the caller sees as a
      server error. */
  datatype SubmitResult =
    | Accepted(location: string, orderId: string, correlationId: string)
    | PublishFault

  const UnknownCustomer := "unknown"
  const OrdersPath := "/orders/"

  /** The event for `req`, given the fresh order id (used only when the request has none),
      the fresh correlation id and the current time. */
  function NewOrderCreated(req: OrderRequest, freshOrderId: string, correlationId: string, now: Instant): (e: OrderCreated)
    ensures req.orderId.Some? ==> e.orderId == req.orderId.value
    ensures req.orderId.None? ==> e.orderId == freshOrderId
    ensures req.customerId.Some? ==> e.customerId == req.customerId.value
    ensures req.customerId.None? ==> e.customerId == UnknownCustomer
    ensures e.amount == req.amount && e.correlationId == correlationId && e.occurredAtUtc == now
  {
    OrderCreated(
      req.orderId.GetOr(freshOrderId),
      req.customerId.GetOr(UnknownCustomer),
      req.amount,
      now,
      correlationId)
  }

  /** The 202 Accepted answer for published event `e`. */
  function AcceptedFor(e: OrderCreated): SubmitResult {
    Accepted(OrdersPath + e.orderId, e.orderId, e.correlationId)
  }

  /** The order id can be read back from the location of the answer. */
  function OrderIdOfLocation(location: string): Option<string> {
    if |OrdersPath| <= |location| && location[..|OrdersPath|] == OrdersPath
    then Some(location[|OrdersPath|..])
    else None
  }

  /** The answer names the published order: its location is `/orders/{OrderId}` and it
      carries the event's order id and correlation id. */
  lemma AcceptedNamesOrder(e: OrderCreated)
    ensures var r := AcceptedFor(e);
      r.orderId == e.orderId && r.correlationId == e.correlationId &&
      OrderIdOfLocation(r.location) == Some(e.orderId)
  {
    var loc := OrdersPath + e.orderId;
    assert loc[..|OrdersPath|] == OrdersPath;
    assert loc[|OrdersPath|..] == e.orderId;
  }

  /** The endpoint, with what its publisher has sent. */
  class OrderEndpoint {
    var published: seq<OrderCreated>

    constructor ()
      ensures published == []
    {
      published := [];
    }

    /** POST /orders.  `publishOk` says whether the publish succeeds. */
    method PostOrder(req: OrderRequest, freshOrderId: string, correlationId: string, now: Instant, publishOk: bool)
      returns (r: SubmitResult)
      modifies this
      ensures publishOk ==>
        var e := NewOrderCreated(req, freshOrderId, correlationId, now);
        published == old(published) + [e] && r == AcceptedFor(e)
      ensures !publishOk ==> published == old(published) && r == PublishFault
    {
      var evt := NewOrderCreated(req, freshOrderId, correlationId, now);
      if !publishOk {
        return PublishFault;
      }
      published := published + [evt];
      r := AcceptedFor(evt);
    }
  }
}
