/** The service-status panel: decides from the three polled replies whether the Order API,
    the Admin API and RabbitMQ are up, and which badge each shows. */
module HealthStatus {
  import opened Wrappers

  /** A parsed JSON reply. */
  datatype Json =
    | JNull
    | JBool(b: bool)
    | JNumber(n: int)
    | JString(s: string)
    | JArray(items: seq<Json>)
    | JObject(fields: map<string, Json>)

  /** JavaScript truthiness (`!!x`); None is `undefined`, the data of a query that has not
      succeeded. */
  predicate Truthy(v: Option<Json>) {
    match v
    case None => false
    case Some(JNull) => false
    case Some(JBool(b)) => b
    case Some(JNumber(n)) => n != 0
    case Some(JString(s)) => s != ""
    case Some(_) => true
  }

  /** `rabbitOk`: the queue listing is present and is an array.  Arrays are truthy, even
      empty ones, so the truthiness test adds nothing to the array test. */
  function RabbitOk(queuesData: Option<Json>): (ok: bool)
    ensures ok <==> queuesData.Some? && queuesData.value.JArray?
  {
    Truthy(queuesData) && queuesData.Some? && queuesData.value.JArray?
  }

  /** `reply?.status === "ok"`: reading a property of a reply that is absent or not an
      object gives `undefined`. */
  predicate StatusOk(reply: Option<Json>) {
    reply.Some? && reply.value.JObject? && "status" in reply.value.fields &&
    reply.value.fields["status"] == JString("ok")
  }

  datatype Service = Service(name: string, status: bool, loading: bool)

  datatype Badge = Checking | Online | Offline

  /** The three service cards, in display order. */
  function Services(orderApiHealth: Option<Json>, orderLoading: bool,
                    adminApiHealth: Option<Json>, adminLoading: bool,
                    queuesData: Option<Json>, queuesLoading: bool): (s: seq<Service>)
    ensures |s| == 3
    ensures s[0].name == "Order API" && s[1].name == "Admin API" && s[2].name == "RabbitMQ"
    ensures s[0].status <==> StatusOk(orderApiHealth)
    ensures s[1].status <==> StatusOk(adminApiHealth)
    ensures s[2].status <==> queuesData.Some? && queuesData.value.JArray?
    ensures s[0].loading == orderLoading && s[1].loading == adminLoading && s[2].loading == queuesLoading
  {
    [ Service("Order API", StatusOk(orderApiHealth), orderLoading),
      Service("Admin API", StatusOk(adminApiHealth), adminLoading),
      Service("RabbitMQ", RabbitOk(queuesData), queuesLoading) ]
  }

  /** The badge of a card: Checking while its query loads, whatever the status; then Online
      exactly when the status holds. */
  function BadgeOf(service: Service): (b: Badge)
    ensures b == Checking <==> service.loading
    ensures b == Online <==> !service.loading && service.status
    ensures b == Offline <==> !service.loading && !service.status
  {
    if service.loading then Checking else if service.status then Online else Offline
  }

  /** A reply with `status: "ok"` among other fields reads as up; a missing reply, or one
      whose status is anything else, reads as down. */
  lemma StatusOkCases(fields: map<string, Json>, other: Json)
    requires other != JString("ok")
    ensures StatusOk(Some(JObject(fields["status" := JString("ok")])))
    ensures !StatusOk(Some(JObject(fields["status" := other])))
    ensures !StatusOk(None)
  {
  }
}
