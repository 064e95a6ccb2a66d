/** The message broker as the replay handler sees it: named queues of messages, with
    fetch-without-acknowledgement, publish to a queue (the default exchange routes by queue
    name) and acknowledgement.  The wire protocol is not modelled. */
module Broker {
  import opened Wrappers

  type Byte = x: int | 0 <= x < 256

  /** Custom AMQP headers; their values are only copied. */
  type Headers = map<string, string>

  /** The basic properties of an AMQP message.  The first five are the ones the replay
      handler copies; the others stand for the remaining properties, which it does not. */
  datatype Properties = Properties(
    contentType: Option<string>,
    correlationId: Option<string>,
    headers: Option<Headers>,
    messageId: Option<string>,
    messageType: Option<string>,
    deliveryMode: Option<nat>,
    priority: Option<nat>,
    expiration: Option<string>,
    replyTo: Option<string>,
    timestamp: Option<int>,
    appId: Option<string>)

  /** What `CreateBasicProperties` returns: every property unset. */
  const DefaultProperties := Properties(None, None, None, None, None, None, None, None, None, None, None)

  /** A message: its body and, possibly, its basic properties. */
  datatype Message = Message(body: seq<Byte>, props: Option<Properties>)

  /** The answer to a fetch: a message, an empty queue, or no such queue. */
  datatype Fetch = Got(message: Message) | Empty | NoQueue

  /** One call the handler completes on the broker, in the order made. */
  datatype BrokerCall =
    | Fetched(queue: string, got: bool)
    | Published(queue: string, message: Message)
    | Acked(queue: string)

  /** The messages of queue `name`; a queue that was never declared holds none. */
  function QueueOf(queues: map<string, seq<Message>>, name: string): seq<Message> {
    if name in queues then queues[name] else []
  }

  class Broker {
    var queues: map<string, seq<Message>>
    /** Every call completed on the broker so far. */
    ghost var log: seq<BrokerCall>

    constructor (queues: map<string, seq<Message>>)
      ensures this.queues == queues && log == []
    {
      this.queues := queues;
      log := [];
    }

    function Queue(name: string): seq<Message>
      reads this
    {
      QueueOf(queues, name)
    }

    /** `BasicGet(queue, autoAck: false)`: the head of the queue, if any, which stays on the
        queue until it is acknowledged.  On a queue that was never declared the broker
        answers with a channel error, so the call throws and completes nothing. */
    method FetchOne(name: string) returns (f: Fetch)
      modifies this`log
      ensures f.NoQueue? <==> name !in queues
      ensures f.Empty? <==> name in queues && queues[name] == []
      ensures f.Got? ==> f.message == queues[name][0]
      ensures queues == old(queues)
      ensures log == if f.NoQueue? then old(log) else old(log) + [Fetched(name, f.Got?)]
    {
      if name !in queues {
        return NoQueue;
      }
      var q := queues[name];
      if q == [] {
        f := Empty;
      } else {
        f := Got(q[0]);
      }
      log := log + [Fetched(name, f.Got?)];
    }

    /** `BasicPublish` on the default exchange with routing key `name`: appends to that queue. */
    method Publish(name: string, m: Message)
      modifies this
      ensures queues == old(queues)[name := old(Queue(name)) + [m]]
      ensures log == old(log) + [Published(name, m)]
    {
      log := log + [Published(name, m)];
      queues := queues[name := QueueOf(queues, name) + [m]];
    }

    /** `BasicAck` of the message last fetched from `name`: removes the head of that queue. */
    method Ack(name: string)
      requires Queue(name) != []
      modifies this
      ensures queues == old(queues)[name := old(Queue(name))[1..]]
      ensures log == old(log) + [Acked(name)]
    {
      log := log + [Acked(name)];
      queues := queues[name := QueueOf(queues, name)[1..]];
    }
  }
}
