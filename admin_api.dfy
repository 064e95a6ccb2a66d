/** The administrative API: the dead-letter replay handler and the queue listing. */
module AdminApi {
  import opened Wrappers
  import opened Text
  import opened Broker

  /** The suffix MassTransit gives the error queue of an endpoint. */
  const ErrorSuffix := "_error"

  /** Messages moved by one replay when the caller gives no `count`. */
  const DefaultReplayCount := 10

  const BadRequestMessage := "Provide ?queue=<endpoint>_error"

  // ---------------------------------------------------------------------------------------
  // Validation of the replay target and derivation of the origin queue
  // ---------------------------------------------------------------------------------------

  /** The origin queue of error queue `queue`, or None when the handler answers BadRequest:
      `queue` must not be blank and must end with `_error` ignoring case.  The origin is
      `queue` without its last six characters. */
  function ReplayTarget(queue: string): (origin: Option<string>)
    ensures origin.Some? ==>
      |origin.value| + |ErrorSuffix| == |queue| && origin.value == queue[..|origin.value|]
  {
    if IsNullOrWhiteSpace(queue) || !EndsWithIgnoreCase(queue, ErrorSuffix) then None
    else Some(queue[..|queue| - |ErrorSuffix|])
  }

  /** A name accepted by the suffix test is never blank: the character where the suffix
      starts is an underscore in any case.  So the target is valid exactly when the name
      ends with `_error` ignoring case. */
  lemma ReplayTargetValid(queue: string)
    ensures ReplayTarget(queue).Some? <==> EndsWithIgnoreCase(queue, ErrorSuffix)
  {
    if EndsWithIgnoreCase(queue, ErrorSuffix) {
      var c := queue[|queue| - |ErrorSuffix|];
      assert ToUpperAscii(c) == ToUpperAscii(ErrorSuffix[0]) == '_';
      assert c == '_';
      assert !IsWhiteSpace(c);
    }
  }

  /** The derived origin followed by the suffix gives back the requested name, up to the
      case of the suffix. */
  lemma OriginThenSuffix(queue: string)
    requires ReplayTarget(queue).Some?
    ensures var origin := ReplayTarget(queue).value;
      |origin + ErrorSuffix| == |queue| &&
      forall i :: 0 <= i < |queue| ==> ToUpperAscii((origin + ErrorSuffix)[i]) == ToUpperAscii(queue[i])
  {
    var origin := ReplayTarget(queue).value;
    forall i | 0 <= i < |queue|
      ensures ToUpperAscii((origin + ErrorSuffix)[i]) == ToUpperAscii(queue[i])
    {
      if i >= |origin| {
        assert (origin + ErrorSuffix)[i] == ErrorSuffix[i - |origin|];
      }
    }
  }

  /** Replaying the error queue of endpoint `origin` targets `origin` again. */
  lemma ReplayTargetOfErrorQueue(origin: string)
    ensures ReplayTarget(origin + ErrorSuffix) == Some(origin)
  {
    var q := origin + ErrorSuffix;
    assert q[|q| - |ErrorSuffix|..] == ErrorSuffix;
    EndsWithIgnoringCase(q, ErrorSuffix);
    ReplayTargetValid(q);
    assert q[..|q| - |ErrorSuffix|] == origin;
  }

  // ---------------------------------------------------------------------------------------
  // How many messages one replay moves
  // ---------------------------------------------------------------------------------------

  /** Loop iterations that fetch a message: at most `requested` (none when it is zero or
      negative), and no more than the source holds, since an empty fetch ends the loop. */
  function Attempts(available: nat, requested: int): nat {
    if requested <= 0 then 0 else if requested < available then requested else available
  }

  /** The broker call that throws during a move: the publish of the copy, or the
      acknowledgement that follows a successful publish. */
  datatype FailingCall = PublishThrows | AckThrows

  /** A call that throws in iteration `attempt` of the replay loop. */
  datatype Fault = Fault(attempt: nat, call: FailingCall)

  /** Whether the fault happens: only if the loop gets as far as its iteration. */
  predicate Faults(available: nat, requested: int, fault: Option<Fault>) {
    fault.Some? && fault.value.attempt < Attempts(available, requested)
  }

  /** The number of messages moved (published and acknowledged) from a source of
      `available` messages. */
  function Replayable(available: nat, requested: int, fault: Option<Fault>): (k: nat)
    ensures k <= available
    ensures requested <= 0 ==> k == 0
    ensures requested >= 0 ==> k <= requested
    ensures !Faults(available, requested, fault) && requested >= available ==> k == available
    ensures !Faults(available, requested, fault) && 0 <= requested <= available ==> k == requested
    ensures Faults(available, requested, fault) ==> k == fault.value.attempt < Attempts(available, requested)
  {
    if Faults(available, requested, fault) then fault.value.attempt else Attempts(available, requested)
  }

  // ---------------------------------------------------------------------------------------
  // The envelope copy
  // ---------------------------------------------------------------------------------------

  /** The five properties the handler carries over agree. */
  predicate SameEnvelope(a: Properties, b: Properties) {
    a.contentType == b.contentType && a.correlationId == b.correlationId &&
    a.headers == b.headers && a.messageId == b.messageId && a.messageType == b.messageType
  }

  /** Every property other than the five envelope ones is unset. */
  predicate OnlyEnvelope(p: Properties) {
    p.deliveryMode.None? && p.priority.None? && p.expiration.None? &&
    p.replyTo.None? && p.timestamp.None? && p.appId.None?
  }

  /** The outgoing message for a fetched one: the same body, and fresh properties that
      receive the five envelope fields when the fetched message has properties. */
  function Republished(m: Message): (r: Message)
    ensures r.body == m.body
    ensures r.props.Some? && OnlyEnvelope(r.props.value)
    ensures m.props.Some? ==> SameEnvelope(r.props.value, m.props.value)
    ensures m.props.None? ==> r.props.value == DefaultProperties
  {
    var props := if m.props.Some? then
      DefaultProperties.(contentType := m.props.value.contentType,
                         correlationId := m.props.value.correlationId,
                         headers := m.props.value.headers,
                         messageId := m.props.value.messageId,
                         messageType := m.props.value.messageType)
    else DefaultProperties;
    Message(m.body, Some(props))
  }

  /** A message comes through a replay unchanged exactly when it has properties and they
      hold nothing beyond the envelope. */
  lemma RepublishedUnchanged(m: Message)
    ensures Republished(m) == m <==> m.props.Some? && OnlyEnvelope(m.props.value)
  {
    if m.props.Some? && OnlyEnvelope(m.props.value) {
      assert Republished(m).props.value == m.props.value;
    }
  }

  /** Replaying a message that was already replayed publishes the same message again. */
  lemma RepublishedIdempotent(m: Message)
    ensures Republished(Republished(m)) == Republished(m)
  {
    RepublishedUnchanged(Republished(m));
  }

  function RepublishedAll(s: seq<Message>): (r: seq<Message>)
    ensures |r| == |s| && forall j :: 0 <= j < |s| ==> r[j] == Republished(s[j])
  {
    seq(|s|, j requires 0 <= j < |s| => Republished(s[j]))
  }

  function Bodies(s: seq<Message>): (r: seq<seq<Byte>>)
    ensures |r| == |s| && forall j :: 0 <= j < |s| ==> r[j] == s[j].body
  {
    seq(|s|, j requires 0 <= j < |s| => s[j].body)
  }

  // ---------------------------------------------------------------------------------------
  // The broker state after moving k messages
  // ---------------------------------------------------------------------------------------

  /** The queues after the first `k` messages of `src` have been published to `dst` and
      acknowledged on `src`. */
  function Transfer(queues: map<string, seq<Message>>, src: string, dst: string, k: nat): (r: map<string, seq<Message>>)
    requires src != dst && k <= |QueueOf(queues, src)|
    ensures src in r <==> src in queues
    ensures QueueOf(r, src) == QueueOf(queues, src)[k..]
    ensures QueueOf(r, dst) == QueueOf(queues, dst) + RepublishedAll(QueueOf(queues, src)[..k])
    ensures forall n :: n != src && n != dst ==> QueueOf(r, n) == QueueOf(queues, n)
  {
    if k == 0 then queues
    else
      queues[dst := QueueOf(queues, dst) + RepublishedAll(QueueOf(queues, src)[..k])]
            [src := QueueOf(queues, src)[k..]]
  }

  /** One more iteration of the replay loop: publish the head of `src` to `dst`, then
      acknowledge it. */
  lemma TransferStep(queues: map<string, seq<Message>>, src: string, dst: string, k: nat)
    requires src != dst && k < |QueueOf(queues, src)|
    ensures var t := Transfer(queues, src, dst, k);
      QueueOf(t, src) != [] &&
      Transfer(queues, src, dst, k + 1) ==
        t[dst := QueueOf(t, dst) + [Republished(QueueOf(t, src)[0])]][src := QueueOf(t, src)[1..]]
  {
    var s := QueueOf(queues, src);
    var t := Transfer(queues, src, dst, k);
    assert QueueOf(t, src)[0] == s[k];
    assert RepublishedAll(s[..k + 1]) == RepublishedAll(s[..k]) + [Republished(s[k])];
    assert s[k..][1..] == s[k + 1..];
    var a := QueueOf(queues, dst) + RepublishedAll(s[..k + 1]);
    var b := s[k + 1..];
    assert QueueOf(t, dst) + [Republished(QueueOf(t, src)[0])] == a;
    assert QueueOf(t, src)[1..] == b;
    var lhs, rhs := queues[dst := a][src := b], t[dst := a][src := b];
    assert lhs.Keys == rhs.Keys;
    assert forall n :: n in lhs ==> lhs[n] == rhs[n];
  }

  /** No body is lost or created: the bodies on source and destination together are the
      same before and after. */
  lemma TransferConservesBodies(queues: map<string, seq<Message>>, src: string, dst: string, k: nat)
    requires src != dst && k <= |QueueOf(queues, src)|
    ensures var r := Transfer(queues, src, dst, k);
      multiset(Bodies(QueueOf(r, src))) + multiset(Bodies(QueueOf(r, dst))) ==
      multiset(Bodies(QueueOf(queues, src))) + multiset(Bodies(QueueOf(queues, dst)))
  {
    var s, d := QueueOf(queues, src), QueueOf(queues, dst);
    var r := Transfer(queues, src, dst, k);
    assert Bodies(QueueOf(r, dst)) == Bodies(d) + Bodies(s[..k]);
    assert Bodies(s) == Bodies(s[..k]) + Bodies(s[k..]);
  }

  /** When every moved message carries only envelope properties, the messages themselves
      are conserved: they only change queue. */
  lemma TransferConservesMessages(queues: map<string, seq<Message>>, src: string, dst: string, k: nat)
    requires src != dst && k <= |QueueOf(queues, src)|
    requires forall j :: 0 <= j < k ==>
      QueueOf(queues, src)[j].props.Some? && OnlyEnvelope(QueueOf(queues, src)[j].props.value)
    ensures var r := Transfer(queues, src, dst, k);
      multiset(QueueOf(r, src)) + multiset(QueueOf(r, dst)) ==
      multiset(QueueOf(queues, src)) + multiset(QueueOf(queues, dst))
  {
    var s := QueueOf(queues, src);
    forall j | 0 <= j < k
      ensures RepublishedAll(s[..k])[j] == s[..k][j]
    {
      RepublishedUnchanged(s[j]);
    }
    assert RepublishedAll(s[..k]) == s[..k];
    assert s == s[..k] + s[k..];
  }

  /** The queues when the call `call` throws while moving message `k`: the first `k` are
      moved; if the acknowledgement throws, the copy of message `k` is already on `dst`
      while the message itself is requeued at the head of `src`. */
  function AfterFault(queues: map<string, seq<Message>>, src: string, dst: string, k: nat, call: FailingCall)
    : map<string, seq<Message>>
    requires src != dst && k < |QueueOf(queues, src)|
  {
    var t := Transfer(queues, src, dst, k);
    if call == PublishThrows then t
    else t[dst := QueueOf(t, dst) + [Republished(QueueOf(queues, src)[k])]]
  }

  /** A publish that throws loses and creates nothing.  An acknowledgement that throws
      creates exactly one body: the copy of the message it failed to acknowledge, which is
      delivered to the destination and then replayed again with the next batch. */
  lemma AfterFaultBodies(queues: map<string, seq<Message>>, src: string, dst: string, k: nat, call: FailingCall)
    requires src != dst && k < |QueueOf(queues, src)|
    ensures var r := AfterFault(queues, src, dst, k, call);
      multiset(Bodies(QueueOf(r, src))) + multiset(Bodies(QueueOf(r, dst))) ==
      multiset(Bodies(QueueOf(queues, src))) + multiset(Bodies(QueueOf(queues, dst))) +
      (if call == AckThrows then multiset{QueueOf(queues, src)[k].body} else multiset{})
  {
    var t := Transfer(queues, src, dst, k);
    TransferConservesBodies(queues, src, dst, k);
    if call == AckThrows {
      var m := QueueOf(queues, src)[k];
      var r := AfterFault(queues, src, dst, k, call);
      assert QueueOf(r, src) == QueueOf(t, src);
      assert Bodies(QueueOf(r, dst)) == Bodies(QueueOf(t, dst)) + [m.body];
    }
  }

  // ---------------------------------------------------------------------------------------
  // The calls the handler makes on the broker
  // ---------------------------------------------------------------------------------------

  /** The calls that move messages `ms`, one at a time: fetch, publish the copy to `dst`,
      acknowledge on `src`. */
  function MoveCalls(src: string, dst: string, ms: seq<Message>): seq<BrokerCall>
    decreases |ms|
  {
    if ms == [] then []
    else MoveCalls(src, dst, ms[..|ms| - 1]) +
         [Fetched(src, true), Published(dst, Republished(ms[|ms| - 1])), Acked(src)]
  }

  /** Moving one more message of `s` appends its three calls to the calls made so far. */
  lemma MoveCallsStep(before: seq<BrokerCall>, src: string, dst: string, s: seq<Message>, k: nat)
    requires k < |s|
    ensures before + MoveCalls(src, dst, s[..k + 1]) ==
      before + MoveCalls(src, dst, s[..k]) + [Fetched(src, true), Published(dst, Republished(s[k])), Acked(src)]
  {
    assert s[..k + 1][..k] == s[..k];
  }

  /** The calls that move messages come in threes, one per moved message, in the order of
      the messages: fetch it, publish its copy to the destination, then acknowledge it on
      the source.  So every moved message is acknowledged, and only after its copy is
      published. */
  lemma {:induction false} AckFollowsPublish(src: string, dst: string, ms: seq<Message>)
    ensures var calls := MoveCalls(src, dst, ms);
      && |calls| == 3 * |ms|
      && (forall j :: 0 <= j < |ms| ==>
            && calls[3 * j] == Fetched(src, true)
            && calls[3 * j + 1] == Published(dst, Republished(ms[j]))
            && calls[3 * j + 2] == Acked(src))
    decreases |ms|
  {
    if ms != [] {
      var init := ms[..|ms| - 1];
      AckFollowsPublish(src, dst, init);
      var calls := MoveCalls(src, dst, ms);
      var prev := MoveCalls(src, dst, init);
      forall j | 0 <= j < |ms|
        ensures calls[3 * j] == Fetched(src, true)
        ensures calls[3 * j + 1] == Published(dst, Republished(ms[j]))
        ensures calls[3 * j + 2] == Acked(src)
      {
        if j < |init| {
          assert init[j] == ms[j];
          assert calls[3 * j] == prev[3 * j];
          assert calls[3 * j + 1] == prev[3 * j + 1];
          assert calls[3 * j + 2] == prev[3 * j + 2];
        }
      }
    }
  }

  // ---------------------------------------------------------------------------------------
  // POST /dlq/replay
  // ---------------------------------------------------------------------------------------

  /** What one iteration of the replay loop did. */
  datatype MoveOutcome = SourceMissing | SourceEmpty | Threw | Moved

  /** One iteration of the replay loop: fetch the head of `src` without acknowledging it,
      publish its copy to `dst`, then acknowledge it on `src`.  `failing` is the call that
      throws in this iteration, if any; a fetch from a queue that does not exist throws. */
  method MoveOne(broker: Broker, src: string, dst: string, failing: Option<FailingCall>)
    returns (o: MoveOutcome)
    requires src != dst
    modifies broker
    ensures o.SourceMissing? <==> src !in old(broker.queues)
    ensures o.SourceEmpty? <==> src in old(broker.queues) && old(broker.queues)[src] == []
    ensures o.Threw? <==> QueueOf(old(broker.queues), src) != [] && failing.Some?
    ensures o.SourceMissing? ==> broker.queues == old(broker.queues) && broker.log == old(broker.log)
    ensures o.SourceEmpty? ==>
      broker.queues == old(broker.queues) && broker.log == old(broker.log) + [Fetched(src, false)]
    ensures o.Threw? ==>
      var copy := Republished(QueueOf(old(broker.queues), src)[0]);
      if failing.value == PublishThrows then
        broker.queues == old(broker.queues) && broker.log == old(broker.log) + [Fetched(src, true)]
      else
        && broker.queues == old(broker.queues)[dst := QueueOf(old(broker.queues), dst) + [copy]]
        && broker.log == old(broker.log) + [Fetched(src, true), Published(dst, copy)]
    ensures o.Moved? ==>
      var copy := Republished(QueueOf(old(broker.queues), src)[0]);
      && broker.queues == old(broker.queues)[dst := QueueOf(old(broker.queues), dst) + [copy]]
                                            [src := QueueOf(old(broker.queues), src)[1..]]
      && broker.log == old(broker.log) + [Fetched(src, true), Published(dst, copy), Acked(src)]
  {
    var f := broker.FetchOne(src);
    if f.NoQueue? {
      return SourceMissing;
    }
    if f.Empty? {
      return SourceEmpty;
    }
    if failing == Some(PublishThrows) {
      return Threw;
    }
    broker.Publish(dst, Republished(f.message));
    if failing.Some? {
      return Threw;
    }
    broker.Ack(src);
    o := Moved;
  }

  /** The loop of the handler: moves up to `requested` messages from `src` to `dst`, one at a
      time.  `fault` is the publish or acknowledgement that throws, if any; a fetch from a
      queue that does not exist throws as well.  `faulted` says whether an exception left
      the loop, `moved` how many messages were moved before it did. */
  method MoveBatch(broker: Broker, src: string, dst: string, requested: int, fault: Option<Fault>)
    returns (moved: nat, faulted: bool)
    requires src != dst
    modifies broker
    ensures faulted <==>
      (src !in old(broker.queues) && requested > 0) || Faults(|QueueOf(old(broker.queues), src)|, requested, fault)
    ensures moved == Replayable(|QueueOf(old(broker.queues), src)|, requested, fault)
    ensures src !in old(broker.queues) && requested > 0 ==>
      broker.queues == old(broker.queues) && broker.log == old(broker.log)
    ensures !faulted ==>
      && broker.queues == Transfer(old(broker.queues), src, dst, moved)
      && broker.log == old(broker.log) + MoveCalls(src, dst, QueueOf(old(broker.queues), src)[..moved]) +
           (if moved < requested then [Fetched(src, false)] else [])
    ensures Faults(|QueueOf(old(broker.queues), src)|, requested, fault) ==>
      && broker.queues == AfterFault(old(broker.queues), src, dst, moved, fault.value.call)
      && broker.log == old(broker.log) + MoveCalls(src, dst, QueueOf(old(broker.queues), src)[..moved]) +
           (if fault.value.call == PublishThrows then [Fetched(src, true)]
            else [Fetched(src, true), Published(dst, Republished(QueueOf(old(broker.queues), src)[moved]))])
  {
    moved := 0;
    ghost var initial := broker.queues;
    ghost var source := QueueOf(initial, src);
    ghost var log0 := broker.log;

    var i := 0;
    while i < requested
      invariant 0 <= i == moved <= |source|
      invariant i <= requested || i == 0
      invariant fault.Some? ==> i <= fault.value.attempt
      invariant broker.queues == Transfer(initial, src, dst, moved)
      invariant broker.log == log0 + MoveCalls(src, dst, source[..moved])
      decreases requested - i
    {
      var failing := if fault.Some? && fault.value.attempt == i then Some(fault.value.call) else None;
      var o := MoveOne(broker, src, dst, failing);
      if o.SourceMissing? {
        assert src !in initial && moved == 0;
        assert source[..moved] == [];
        return moved, true;
      }
      assert src in initial;
      if o.SourceEmpty? {
        return moved, false;
      }
      TransferStep(initial, src, dst, moved);
      if o.Threw? {
        assert Faults(|source|, requested, fault);
        return moved, true;
      }
      MoveCallsStep(log0, src, dst, source, moved);
      moved := moved + 1;
      i := i + 1;
    }
    assert src !in initial ==> requested <= 0 by {
      if src !in initial {
        assert source == [];
      }
    }
    faulted := false;
  }

  /** The handler's reply.  `Faulted` is the case where a broker call throws: the exception
      leaves the handler, so the HTTP caller receives a server error; the fields record the
      state the handler had reached. */
  datatype ReplayResult =
    | BadRequest(error: string)
    | Replayed(from: string, to: string, replayed: nat, requested: int)
    | Faulted(from: string, to: string, replayed: nat, requested: int)

  /** Moves up to `count` (default 10) messages from error queue `queue` back to its origin,
      one at a time: fetch without acknowledgement, publish a copy with the envelope, then
      acknowledge.  `fault` is the publish or acknowledgement that throws, if any; a fetch
      from a queue that does not exist throws as well. */
  method Replay(broker: Broker, queue: string, count: Option<int>, fault: Option<Fault>)
    returns (r: ReplayResult)
    modifies broker
    ensures r.BadRequest? <==> ReplayTarget(queue).None?
    ensures r.BadRequest? ==>
      r.error == BadRequestMessage && broker.queues == old(broker.queues) && broker.log == old(broker.log)
    ensures !r.BadRequest? ==>
      var source := old(broker.Queue(queue));
      var missing := queue !in old(broker.queues) && r.requested > 0;
      && r.from == queue && Some(r.to) == ReplayTarget(queue)
      && r.requested == count.GetOr(DefaultReplayCount)
      && (r.Faulted? <==> missing || Faults(|source|, r.requested, fault))
      && r.replayed == Replayable(|source|, r.requested, fault)
      && (missing ==> broker.queues == old(broker.queues) && broker.log == old(broker.log))
      && (r.Replayed? ==>
            && broker.queues == Transfer(old(broker.queues), queue, r.to, r.replayed)
            && broker.log == old(broker.log) + MoveCalls(queue, r.to, source[..r.replayed]) +
                 (if r.replayed < r.requested then [Fetched(queue, false)] else []))
      && (Faults(|source|, r.requested, fault) ==>
            && broker.queues == AfterFault(old(broker.queues), queue, r.to, r.replayed, fault.value.call)
            && broker.log == old(broker.log) + MoveCalls(queue, r.to, source[..r.replayed]) +
                 (if fault.value.call == PublishThrows then [Fetched(queue, true)]
                  else [Fetched(queue, true), Published(r.to, Republished(source[r.replayed]))]))
  {
    var target := ReplayTarget(queue);
    if target.None? {
      return BadRequest(BadRequestMessage);
    }
    var originalQueue := target.value;
    var toReplay := count.GetOr(DefaultReplayCount);
    var moved, faulted := MoveBatch(broker, queue, originalQueue, toReplay, fault);
    if faulted {
      r := Faulted(queue, originalQueue, moved, toReplay);
    } else {
      r := Replayed(queue, originalQueue, moved, toReplay);
    }
  }

  // ---------------------------------------------------------------------------------------
  // GET /queues
  // ---------------------------------------------------------------------------------------

  /** One queue of the management API's reply, already parsed: any field may be absent. */
  datatype RawQueue = RawQueue(
    name: Option<string>,
    messages: Option<int>,
    messagesReady: Option<int>,
    messagesUnacknowledged: Option<int>)

  /** The management API's reply: its HTTP status and, on success, the queues it lists. */
  datatype ManagementReply = ManagementReply(statusCode: int, queues: seq<RawQueue>)

  /** One entry of the listing the handler returns. */
  datatype QueueInfo = QueueInfo(name: string, messages: int, messagesReady: int, messagesUnacknowledged: int)

  datatype ListResult = Problem(statusCode: int) | QueueList(items: seq<QueueInfo>)

  predicate IsSuccessStatusCode(code: int) {
    200 <= code <= 299
  }

  /** `info` reports `raw`: the same name (a null name reads as empty) and every counter
      as given, or 0 when it is absent. */
  predicate Summarizes(info: QueueInfo, raw: RawQueue) {
    && (if raw.name.Some? then info.name == raw.name.value else info.name == "")
    && (if raw.messages.Some? then info.messages == raw.messages.value else info.messages == 0)
    && (if raw.messagesReady.Some? then info.messagesReady == raw.messagesReady.value
        else info.messagesReady == 0)
    && (if raw.messagesUnacknowledged.Some? then info.messagesUnacknowledged == raw.messagesUnacknowledged.value
        else info.messagesUnacknowledged == 0)
  }

  /** GET /queues: passes a failing management status through, otherwise lists one entry
      per queue, in the order of the reply. */
  method ListQueues(reply: ManagementReply) returns (r: ListResult)
    ensures r.Problem? <==> !IsSuccessStatusCode(reply.statusCode)
    ensures r.Problem? ==> r.statusCode == reply.statusCode
    ensures r.QueueList? ==>
      |r.items| == |reply.queues| &&
      forall i :: 0 <= i < |r.items| ==> Summarizes(r.items[i], reply.queues[i])
  {
    if !IsSuccessStatusCode(reply.statusCode) {
      return Problem(reply.statusCode);
    }
    var list: seq<QueueInfo> := [];
    for i := 0 to |reply.queues|
      invariant |list| == i
      invariant forall j :: 0 <= j < i ==> Summarizes(list[j], reply.queues[j])
    {
      var q := reply.queues[i];
      var name := q.name.GetOr("");
      var messages := q.messages.GetOr(0);
      var ready := q.messagesReady.GetOr(0);
      var unacked := q.messagesUnacknowledged.GetOr(0);
      list := list + [QueueInfo(name, messages, ready, unacked)];
    }
    return QueueList(list);
  }
}
