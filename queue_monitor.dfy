/** The queue monitor panel: splits the listed queues into dead-letter queues and active
    ones by the `_error` suffix, compared case-sensitively. */
module QueueMonitor {
  import opened Wrappers
  import opened Text
  import AdminApi

  type QueueInfo = AdminApi.QueueInfo

  predicate IsDeadLetter(q: QueueInfo) {
    EndsWith(q.name, "_error")
  }

  /** The queues of `qs` whose dead-letter status is `dead`, in order (the two `filter`s). */
  function Select(qs: seq<QueueInfo>, dead: bool): (r: seq<QueueInfo>)
    ensures |r| <= |qs|
    ensures forall q :: q in r <==> q in qs && IsDeadLetter(q) == dead
  {
    if qs == [] then []
    else (if IsDeadLetter(qs[0]) == dead then [qs[0]] else []) + Select(qs[1..], dead)
  }

  /** Filtering distributes over concatenation, so it keeps the relative order of the
      queues: what is selected from a prefix comes before what is selected after it. */
  lemma {:induction false} SelectAppend(a: seq<QueueInfo>, b: seq<QueueInfo>, dead: bool)
    ensures Select(a + b, dead) == Select(a, dead) + Select(b, dead)
    decreases |a|
  {
    if a == [] {
      assert a + b == b;
    } else {
      assert (a + b)[1..] == a[1..] + b;
      SelectAppend(a[1..], b, dead);
    }
  }

  /** The two selections partition the queues: every queue is in exactly one of them. */
  lemma {:induction false} SelectPartition(qs: seq<QueueInfo>)
    ensures multiset(Select(qs, true)) + multiset(Select(qs, false)) == multiset(qs)
    ensures |Select(qs, true)| + |Select(qs, false)| == |qs|
    decreases |qs|
  {
    if qs != [] {
      SelectPartition(qs[1..]);
      assert qs == [qs[0]] + qs[1..];
    }
  }

  datatype Panel = Panel(dlqs: seq<QueueInfo>, normals: seq<QueueInfo>)

  /** The panel for the last reply of GET /queues; None while there is no data. */
  function Classify(data: Option<seq<QueueInfo>>): (p: Panel)
    ensures data.None? ==> p.dlqs == [] && p.normals == []
    ensures var queues := data.GetOr([]);
      && multiset(p.dlqs) + multiset(p.normals) == multiset(queues)
      && |p.dlqs| + |p.normals| == |queues|
      && (forall q :: q in p.dlqs <==> q in queues && IsDeadLetter(q))
      && (forall q :: q in p.normals <==> q in queues && !IsDeadLetter(q))
      && p.dlqs == Select(queues, true) && p.normals == Select(queues, false)
  {
    var queues := data.GetOr([]);
    SelectPartition(queues);
    Panel(Select(queues, true), Select(queues, false))
  }

  /** The example of two queues `orders` and `orders_error`: only the second is shown as a
      dead-letter queue. */
  lemma ClassifyExample()
    ensures var orders := AdminApi.QueueInfo("orders", 0, 0, 0);
      var errors := AdminApi.QueueInfo("orders_error", 1, 1, 0);
      Classify(Some([orders, errors])) == Panel([errors], [orders])
  {
    var orders := AdminApi.QueueInfo("orders", 0, 0, 0);
    var errors := AdminApi.QueueInfo("orders_error", 1, 1, 0);
    assert !IsDeadLetter(orders);
    assert "orders_error"[|"orders_error"| - 6..] == "_error";
    assert IsDeadLetter(errors);
    assert [orders, errors][1..] == [errors];
  }

  /** Every queue the panel shows as a dead-letter queue is accepted by the replay handler,
      which targets the queue without the suffix. */
  lemma DeadLetterIsReplayable(q: QueueInfo)
    requires IsDeadLetter(q)
    ensures AdminApi.ReplayTarget(q.name) == Some(q.name[..|q.name| - 6])
  {
    EndsWithIgnoringCase(q.name, AdminApi.ErrorSuffix);
    AdminApi.ReplayTargetValid(q.name);
  }

  /** The converse fails: the replay handler ignores case and the panel does not, so an
      error queue spelled `orders_ERROR` is replayable but shown as active. */
  lemma UpperCaseSuffixShownActive()
    ensures var q := AdminApi.QueueInfo("orders_ERROR", 1, 1, 0);
      !IsDeadLetter(q) && AdminApi.ReplayTarget(q.name) == Some("orders")
  {
    var name := "orders_ERROR";
    assert name[|name| - 6..] == "_ERROR" != "_error";
    assert EndsWithIgnoreCase(name, AdminApi.ErrorSuffix);
    AdminApi.ReplayTargetValid(name);
    assert name[..|name| - 6] == "orders";
  }
}
