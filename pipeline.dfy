/** Properties of the services taken together: an order submitted to the Order API and
    consumed by the billing worker, and the health replies read by the status panel. */
module Pipeline {
  import opened Wrappers
  import opened Contracts
  import OrderApi
  import Billing
  import HealthStatus

  /** A submission whose order id is new to the billing worker ends, when saving and
      publishing succeed, with one marker for that order carrying the submitted amount and
      one BillingCompleted carrying the correlation id the Order API generated; redelivering
      the event any number of times adds nothing. */
  lemma SubmittedOrderBilledOnce(
    req: OrderApi.OrderRequest, freshOrderId: string, correlationId: string, now: Instant,
    l: Billing.Ledger, processedAt: Instant, billedAt: Instant, redeliveries: seq<Billing.Delivery>)
    requires Billing.Consistent(l)
    requires OrderApi.NewOrderCreated(req, freshOrderId, correlationId, now).orderId !in l.markers
    requires forall i :: 0 <= i < |redeliveries| ==>
      redeliveries[i].msg == OrderApi.NewOrderCreated(req, freshOrderId, correlationId, now)
    ensures var e := OrderApi.NewOrderCreated(req, freshOrderId, correlationId, now);
      var d := Billing.Delivery(e, processedAt, billedAt, true, true);
      var l' := Billing.Run(l, [d] + redeliveries);
      && l'.markers.Keys == l.markers.Keys + {e.orderId}
      && l'.markers[e.orderId].amount == req.amount
      && l'.published == l.published + [BillingCompleted(e.orderId, e.customerId, req.amount, billedAt, correlationId)]
  {
    var e := OrderApi.NewOrderCreated(req, freshOrderId, correlationId, now);
    var d := Billing.Delivery(e, processedAt, billedAt, true, true);
    var l1 := Billing.Step(l, d).0;
    assert ([d] + redeliveries)[1..] == redeliveries;
    assert Billing.Run(l, [d] + redeliveries) == Billing.Run(l1, redeliveries);
    RedeliveriesChangeNothing(l1, redeliveries, e);
  }

  /** Deliveries of an event whose order id already has a marker leave the ledger as it is. */
  lemma {:induction false} RedeliveriesChangeNothing(l: Billing.Ledger, ds: seq<Billing.Delivery>, e: OrderCreated)
    requires e.orderId in l.markers
    requires forall i :: 0 <= i < |ds| ==> ds[i].msg == e
    ensures Billing.Run(l, ds) == l
    decreases |ds|
  {
    if ds != [] {
      Billing.DuplicateIsNoOp(l, ds[0]);
      RedeliveriesChangeNothing(l, ds[1..], e);
    }
  }

  /** Submitting the same request twice with an explicit order id publishes two
      OrderCreated events, but the billing worker bills the order once, with the first
      submission's correlation id. */
  lemma ResubmissionBilledOnce(
    req: OrderApi.OrderRequest, fresh1: string, corr1: string, now1: Instant,
    fresh2: string, corr2: string, now2: Instant,
    l: Billing.Ledger, p1: Instant, b1: Instant, p2: Instant, b2: Instant, save2: bool, publish2: bool)
    requires req.orderId.Some? && req.orderId.value !in l.markers
    ensures var e1 := OrderApi.NewOrderCreated(req, fresh1, corr1, now1);
      var e2 := OrderApi.NewOrderCreated(req, fresh2, corr2, now2);
      var l' := Billing.Run(l, [Billing.Delivery(e1, p1, b1, true, true), Billing.Delivery(e2, p2, b2, save2, publish2)]);
      && e1.orderId == e2.orderId
      && l'.published == l.published + [BillingCompleted(e1.orderId, e1.customerId, req.amount, b1, corr1)]
  {
    var e1 := OrderApi.NewOrderCreated(req, fresh1, corr1, now1);
    var e2 := OrderApi.NewOrderCreated(req, fresh2, corr2, now2);
    var d1 := Billing.Delivery(e1, p1, b1, true, true);
    var d2 := Billing.Delivery(e2, p2, b2, save2, publish2);
    var l1 := Billing.Step(l, d1).0;
    assert [d1, d2][1..] == [d2];
    assert [d2][1..] == [];
    Billing.DuplicateIsNoOp(l1, d2);
    assert Billing.Run(l, [d1, d2]) == Billing.Run(l1, [d2]) == Billing.Run(l1, []);
  }

  /** The Order API's root reply and the Admin API's health reply both carry
      `status: "ok"`, so the panel shows both services as up whenever they answer. */
  lemma HealthRepliesReadAsUp(now: string)
    ensures var orderRoot := HealthStatus.JObject(map["name" := HealthStatus.JString("Order API"),
                                                      "status" := HealthStatus.JString("ok")]);
      var adminHealth := HealthStatus.JObject(map["service" := HealthStatus.JString("admin-api"),
                                                  "status" := HealthStatus.JString("ok"),
                                                  "now" := HealthStatus.JString(now)]);
      HealthStatus.StatusOk(Some(orderRoot)) && HealthStatus.StatusOk(Some(adminHealth))
  {
  }
}
