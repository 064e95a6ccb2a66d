/** The billing worker's consumer of OrderCreated: a duplicate guard keyed by order id, a
    durable marker, then the BillingCompleted publish. */
module Billing {
  import opened Contracts

  /** The idempotency marker, stored under its order id. */
  datatype ProcessedOrder = ProcessedOrder(
    orderId: string,
    customerId: string,
    amount: Amount,
    processedAtUtc: Instant)

  /** One delivery of an OrderCreated and what the world does while it is consumed: the two
      clock readings, and whether `SaveChangesAsync` and `Publish` succeed. */
  datatype Delivery = Delivery(
    msg: OrderCreated,
    processedAt: Instant,
    billedAt: Instant,
    saveOk: bool,
    publishOk: bool)

  /** How a call to Consume ends.  It returns normally for Duplicate and Billed, and the
      transport then acknowledges the message.  SaveFailed and PublishFailed are exceptions;
      the receive endpoint `billing-ordercreated` has no retry policy, so the faulted message
      is moved to the `billing-ordercreated_error` queue and comes back only when an operator
      replays it with `POST /dlq/replay`. */
  datatype Outcome = Duplicate | Billed | SaveFailed | PublishFailed {
    predicate Acknowledged() {
      this == Duplicate || this == Billed
    }
  }

  /** The durable markers, keyed by order id, and the BillingCompleted events published. */
  datatype Ledger = Ledger(markers: map<string, ProcessedOrder>, published: seq<BillingCompleted>)

  function MarkerFor(msg: OrderCreated, at: Instant): ProcessedOrder {
    ProcessedOrder(msg.orderId, msg.customerId, msg.amount, at)
  }

  function CompletedFor(msg: OrderCreated, at: Instant): BillingCompleted {
    BillingCompleted(msg.orderId, msg.customerId, msg.amount, at, msg.correlationId)
  }

  /** `e` repeats the order data of marker `m`. */
  predicate Agrees(m: ProcessedOrder, e: BillingCompleted) {
    m.orderId == e.orderId && m.customerId == e.customerId && m.amount == e.amount
  }

  /** Markers are only ever added: every marker of `l` is in `l'`, unchanged. */
  predicate Extends(l: Ledger, l': Ledger) {
    (forall k :: k in l.markers ==> k in l'.markers && l'.markers[k] == l.markers[k]) &&
    l.published <= l'.published
  }

  /** The exactly-once invariant: every marker is stored under its own order id, every
      published event has a marker that it agrees with, and no two published events share
      an order id. */
  predicate Consistent(l: Ledger) {
    && (forall k :: k in l.markers ==> l.markers[k].orderId == k)
    && (forall i :: 0 <= i < |l.published| ==>
          l.published[i].orderId in l.markers && Agrees(l.markers[l.published[i].orderId], l.published[i]))
    && (forall i, j :: 0 <= i < j < |l.published| ==> l.published[i].orderId != l.published[j].orderId)
  }

  /** No published event carries order id `id`. */
  predicate NoneFor(published: seq<BillingCompleted>, id: string) {
    forall i :: 0 <= i < |published| ==> published[i].orderId != id
  }

  /** One call to Consume: the ledger afterwards and how the call ends. */
  function Step(l: Ledger, d: Delivery): (r: (Ledger, Outcome))
    ensures Extends(l, r.0)
    ensures r.0.markers.Keys <= l.markers.Keys + {d.msg.orderId}
    ensures |r.0.published| <= |l.published| + 1
    ensures r.1.Acknowledged() ==> d.msg.orderId in r.0.markers
  {
    var id := d.msg.orderId;
    if id in l.markers then (l, Duplicate)
    else if !d.saveOk then (l, SaveFailed)
    else
      var markers := l.markers[id := MarkerFor(d.msg, d.processedAt)];
      if !d.publishOk then (Ledger(markers, l.published), PublishFailed)
      else (Ledger(markers, l.published + [CompletedFor(d.msg, d.billedAt)]), Billed)
  }

  /** Consume applied to a sequence of deliveries, one after another. */
  function Run(l: Ledger, ds: seq<Delivery>): Ledger
    decreases |ds|
  {
    if ds == [] then l else Run(Step(l, ds[0]).0, ds[1..])
  }

  /** A delivery whose order id already has a marker changes nothing and publishes nothing. */
  lemma DuplicateIsNoOp(l: Ledger, d: Delivery)
    requires d.msg.orderId in l.markers
    ensures Step(l, d) == (l, Duplicate)
  {
  }

  /** A delivery of a new order id adds exactly one marker, keyed by that id and copied from
      the message, and, when the publish succeeds, exactly one event carrying the message's
      order data and correlation id; when saving fails nothing changes, and when publishing
      fails the marker stays and nothing is published. */
  lemma FreshDelivery(l: Ledger, d: Delivery)
    requires d.msg.orderId !in l.markers
    ensures var (l', o) := Step(l, d);
      && (!d.saveOk ==> l' == l && o == SaveFailed)
      && (d.saveOk ==>
            && l'.markers.Keys == l.markers.Keys + {d.msg.orderId}
            && (forall k :: k in l.markers ==> l'.markers[k] == l.markers[k])
            && var m := l'.markers[d.msg.orderId];
               m.orderId == d.msg.orderId && m.customerId == d.msg.customerId &&
               m.amount == d.msg.amount && m.processedAtUtc == d.processedAt)
      && (d.saveOk && !d.publishOk ==> l'.published == l.published && o == PublishFailed)
      && (d.saveOk && d.publishOk ==>
            && o == Billed && |l'.published| == |l.published| + 1
            && l'.published[..|l.published|] == l.published
            && var e := l'.published[|l.published|];
               e.orderId == d.msg.orderId && e.customerId == d.msg.customerId &&
               e.amount == d.msg.amount && e.correlationId == d.msg.correlationId &&
               e.billedAtUtc == d.billedAt)
  {
  }

  /** Consume keeps the exactly-once invariant. */
  lemma StepConsistent(l: Ledger, d: Delivery)
    requires Consistent(l)
    ensures Consistent(Step(l, d).0)
  {
    var (l', o) := Step(l, d);
    if o == Billed {
      var id := d.msg.orderId;
      var n := |l.published|;
      assert l'.published == l.published + [CompletedFor(d.msg, d.billedAt)];
      forall i | 0 <= i < n
        ensures l'.published[i].orderId != id
      {
        assert l.published[i].orderId in l.markers;
      }
    }
  }

  /** Any sequence of deliveries keeps the invariant: in particular no order id is ever
      billed twice, however often its OrderCreated is delivered. */
  lemma {:induction false} RunConsistent(l: Ledger, ds: seq<Delivery>)
    requires Consistent(l)
    ensures Consistent(Run(l, ds))
    decreases |ds|
  {
    if ds != [] {
      StepConsistent(l, ds[0]);
      RunConsistent(Step(l, ds[0]).0, ds[1..]);
    }
  }

  /** Markers are never changed or removed, and published events are never retracted,
      across any sequence of deliveries. */
  lemma {:induction false} RunExtends(l: Ledger, ds: seq<Delivery>)
    ensures Extends(l, Run(l, ds))
    decreases |ds|
  {
    if ds != [] {
      var l1 := Step(l, ds[0]).0;
      RunExtends(l1, ds[1..]);
      var l2 := Run(l1, ds[1..]);
      assert l.published <= l1.published <= l2.published;
    }
  }

  /** Delivering the same OrderCreated twice, the first time successfully, leaves one marker
      and one published event for it. */
  lemma DeliveredTwice(l: Ledger, d: Delivery, again: Delivery)
    requires d.msg.orderId !in l.markers && d.saveOk && d.publishOk
    requires again.msg == d.msg
    ensures var l2 := Run(l, [d, again]);
      && l2.markers == l.markers[d.msg.orderId := MarkerFor(d.msg, d.processedAt)]
      && l2.published == l.published + [CompletedFor(d.msg, d.billedAt)]
      && Step(Step(l, d).0, again).1 == Duplicate
  {
    var l1 := Step(l, d).0;
    assert [d, again][1..] == [again];
    assert Run(l, [d, again]) == Run(l1, [again]);
    DuplicateIsNoOp(l1, again);
    assert [again][1..] == [];
    assert Run(l1, [again]) == Run(l1, []) == l1;
  }

  /** Once a marker exists for `id` and no event carries `id`, no later delivery ever
      publishes an event for `id`. */
  lemma {:induction false} NeverPublishedAfterMarker(l: Ledger, ds: seq<Delivery>, id: string)
    requires id in l.markers && NoneFor(l.published, id)
    ensures id in Run(l, ds).markers && NoneFor(Run(l, ds).published, id)
    decreases |ds|
  {
    if ds != [] {
      var l1 := Step(l, ds[0]).0;
      assert NoneFor(l1.published, id) by {
        if ds[0].msg.orderId != id && |l1.published| > |l.published| {
          assert l1.published == l.published + [CompletedFor(ds[0].msg, ds[0].billedAt)];
        }
      }
      NeverPublishedAfterMarker(l1, ds[1..], id);
    }
  }

  /** The marker is committed before the publish is attempted.  So when that publish fails,
      the marker stays; every later delivery of the event (a replay from the error queue)
      then takes the duplicate branch, and no BillingCompleted is ever published for that
      order. */
  lemma PublishFailureLosesCompletion(l: Ledger, d: Delivery, later: seq<Delivery>)
    requires Consistent(l)
    requires Step(l, d).1 == PublishFailed
    ensures d.msg.orderId in Step(l, d).0.markers
    ensures NoneFor(Run(Step(l, d).0, later).published, d.msg.orderId)
  {
    var id := d.msg.orderId;
    var l1 := Step(l, d).0;
    forall i | 0 <= i < |l1.published|
      ensures l1.published[i].orderId != id
    {
      assert l1.published[i] == l.published[i];
    }
    NeverPublishedAfterMarker(l1, later, id);
  }

  /** The consumer: the `ProcessedOrders` table and what `Publish` has sent. */
  class OrderCreatedConsumer {
    var processedOrders: map<string, ProcessedOrder>
    var published: seq<BillingCompleted>

    function State(): Ledger
      reads this
    {
      Ledger(processedOrders, published)
    }

    constructor (processedOrders: map<string, ProcessedOrder>)
      ensures State() == Ledger(processedOrders, [])
    {
      this.processedOrders := processedOrders;
      this.published := [];
    }

    /** Consume one delivery: look the order id up, skip a duplicate, otherwise add the
        marker, save it, and then publish BillingCompleted. */
    method Consume(msg: OrderCreated, processedAt: Instant, billedAt: Instant, saveOk: bool, publishOk: bool)
      returns (outcome: Outcome)
      modifies this
      ensures (State(), outcome) == Step(old(State()), Delivery(msg, processedAt, billedAt, saveOk, publishOk))
      ensures old(msg.orderId in processedOrders) ==>
        outcome == Duplicate && processedOrders == old(processedOrders) && published == old(published)
      ensures outcome == Billed ==> published == old(published) + [CompletedFor(msg, billedAt)]
      ensures outcome != Billed ==> published == old(published)
    {
      if msg.orderId in processedOrders {
        return Duplicate;
      }
      if !saveOk {
        // SaveChangesAsync throws; the unsaved Add dies with the message's scope.
        return SaveFailed;
      }
      processedOrders := processedOrders[msg.orderId := MarkerFor(msg, processedAt)];
      if !publishOk {
        return PublishFailed;
      }
      published := published + [CompletedFor(msg, billedAt)];
      return Billed;
    }
  }
}
