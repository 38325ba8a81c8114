/** The receive node types: `ReceiveQueueMessage` and `ReceiveTopicMessage`
    of service-bus.js, and the stand-alone `ReceiveQueueMessage` of
    receive-queue-message.js. Each checks its configuration, creates one
    client and one receiver, subscribes once, turns every delivered message
    into one output, reports every subscription error, and closes the
    receiver and the client when the runtime closes the node. */
module Receive {
  import opened Js
  import opened Envelope
  import opened Node

  datatype Kind =
    | ReceiveQueue            // service-bus.js, "Receive Queue Message"
    | ReceiveTopic            // service-bus.js, "Receive Topic Message"
    | StandaloneReceiveQueue  // receive-queue-message.js

  /** The configuration guard: every field the node type needs is truthy. */
  predicate ConfigOk(kind: Kind, c: Config)
    ensures ConfigOk(kind, c) ==> Truthy(c.connectionString)
    ensures kind == ReceiveTopic ==>
      (ConfigOk(kind, c) <==> Truthy(c.connectionString) && Truthy(c.topic) && Truthy(c.subscription))
    ensures kind != ReceiveTopic ==>
      (ConfigOk(kind, c) <==> Truthy(c.connectionString) && Truthy(c.queue))
  {
    match kind
    case ReceiveTopic => Truthy(c.connectionString) && Truthy(c.topic) && Truthy(c.subscription)
    case _ => Truthy(c.connectionString) && Truthy(c.queue)
  }

  /** The arguments of the one `createReceiver` call: the queue, or the topic
      and the subscription, each a configured non-empty name. */
  function ReceiverArgs(kind: Kind, c: Config): (args: seq<string>)
    requires ConfigOk(kind, c)
    ensures kind == ReceiveTopic ==> args == [c.topic.value, c.subscription.value]
    ensures kind != ReceiveTopic ==> args == [c.queue.value]
    ensures forall i :: 0 <= i < |args| ==> args[i] != ""
  {
    if kind == ReceiveTopic then [c.topic.value, c.subscription.value] else [c.queue.value]
  }

  /** The `topic` of every output: the queue name, the topic name, or, in
      receive-queue-message.js, `node.topic`, which that file never assigns. */
  function OutTopic(kind: Kind, c: Config): (t: Option<string>)
    ensures kind == ReceiveQueue ==> t == c.queue
    ensures kind == ReceiveTopic ==> t == c.topic
    ensures kind == StandaloneReceiveQueue ==> t == None
  {
    match kind
    case ReceiveQueue => c.queue
    case ReceiveTopic => c.topic
    case StandaloneReceiveQueue => None
  }

  /** What a receive node holds and has done: its status (`None` before the
      first `node.status` call), the `listen` flag, whether the guard passed
      so that a client and a receiver exist and the close handler is
      registered, and its call log. */
  datatype State = State(status: Option<Status>, listen: bool, bound: bool, log: seq<Call>)

  /** What can happen to a receive node after it is created. */
  datatype Event =
    | Delivery(message: ReceivedMessage)  // the receiver calls processMessage
    | Failure(error: Value)               // the receiver calls processError
    | Shutdown                            // the runtime closes the node

  /** The `if (!node.listen)` block: subscribe and show "connected", unless
      already listening. */
  function AfterListen(s: State): (r: State)
    requires s.bound
    ensures r.listen && r.bound == s.bound
    ensures s.listen ==> r == s
    ensures !s.listen ==> r.log == s.log + [Client(Subscribe)] && r.status == Some(Connected)
    ensures Count(r.log, IsSubscribe) == Count(s.log, IsSubscribe) + (if s.listen then 0 else 1)
  {
    CountAppend(s.log, [Client(Subscribe)], IsSubscribe);
    if s.listen then s else s.(listen := true, log := s.log + [Client(Subscribe)], status := Some(Connected))
  }

  /** The constructor. A failed guard shows "disconnected" and makes no call
      at all; otherwise one client, one receiver on the configured
      endpoint, one subscription, and "connected". */
  function AfterInit(kind: Kind, c: Config): (s: State)
    ensures s.bound <==> ConfigOk(kind, c)
    ensures !s.bound ==> s == State(Some(Disconnected), false, false, [])
    ensures s.bound ==> s.listen && s.status == Some(Connected)
    ensures s.bound ==> s.log == [Client(NewClient(c.connectionString.value)),
                                  Client(CreateReceiver(ReceiverArgs(kind, c))),
                                  Client(Subscribe)]
  {
    if !ConfigOk(kind, c) then State(Some(Disconnected), false, false, [])
    else
      AfterListen(State(None, false, true,
        [Client(NewClient(c.connectionString.value)), Client(CreateReceiver(ReceiverArgs(kind, c)))]))
  }

  /** `onMessageReceived`: one output, the decoded message, then "receiving
      messages". Without a subscription no delivery reaches the node. */
  function AfterDelivery(kind: Kind, c: Config, s: State, m: ReceivedMessage): (r: State)
    ensures !s.listen ==> r == s
    ensures s.listen ==> r.log == s.log + [Runtime(Output(Decode(m, OutTopic(kind, c))))]
    ensures s.listen ==> r.status == Some(Receiving) && r.listen == s.listen && r.bound == s.bound
  {
    if !s.listen then s
    else s.(log := s.log + [Runtime(Output(Decode(m, OutTopic(kind, c))))], status := Some(Receiving))
  }

  /** `onError`: one `node.error(error)` and the red ring. The receiver is
      neither closed nor unsubscribed. */
  function AfterFailure(s: State, e: Value): (r: State)
    ensures !s.listen ==> r == s
    ensures s.listen ==> r.log == s.log + [Runtime(NodeError(e, None))]
    ensures s.listen ==> r.status == Some(ReceiveFailed) && r.listen == s.listen && r.bound == s.bound
  {
    if !s.listen then s
    else s.(log := s.log + [Runtime(NodeError(e, None))], status := Some(ReceiveFailed))
  }

  /** The close handler: `receiver.close()`, then `serviceBus.close()`, then
      `done()`. A node whose guard failed registered no close handler. */
  function AfterShutdown(s: State): (r: State)
    ensures !s.bound ==> r == s
    ensures s.bound ==> r.log == s.log + [Client(CloseReceiver), Client(CloseClient), Runtime(CloseDone)]
    ensures r.status == s.status && r.listen == s.listen && r.bound == s.bound
  {
    if !s.bound then s
    else s.(log := s.log + [Client(CloseReceiver), Client(CloseClient), Runtime(CloseDone)])
  }

  function Step(kind: Kind, c: Config, s: State, e: Event): State
  {
    match e
    case Delivery(m) => AfterDelivery(kind, c, s, m)
    case Failure(err) => AfterFailure(s, err)
    case Shutdown => AfterShutdown(s)
  }

  /** The state after the events `evs`, in order, starting from `s`. */
  function Replay(kind: Kind, c: Config, s: State, evs: seq<Event>): State
  {
    if evs == [] then s else Step(kind, c, Replay(kind, c, s, evs[..|evs| - 1]), evs[|evs| - 1])
  }

  /** A node of type `kind` created with `c`, after the events `evs`. */
  function Run(kind: Kind, c: Config, evs: seq<Event>): State
  {
    Replay(kind, c, AfterInit(kind, c), evs)
  }

  // Reference definitions over the events, independent of the node's state.

  function DeliveryOf(e: Event): Option<ReceivedMessage>
  {
    if e.Delivery? then Some(e.message) else None
  }

  function FailureOf(e: Event): Option<Value>
  {
    if e.Failure? then Some(e.error) else None
  }

  predicate IsShutdown(e: Event) { e.Shutdown? }

  /** The delivered messages, decoded one by one, in delivery order. */
  function DecodeAll(ms: seq<ReceivedMessage>, topic: Option<string>): (r: seq<Msg>)
    ensures |r| == |ms|
    ensures forall i :: 0 <= i < |ms| ==> r[i] == Decode(ms[i], topic)
  {
    if ms == [] then [] else DecodeAll(ms[..|ms| - 1], topic) + [Decode(ms[|ms| - 1], topic)]
  }

  /** The status a listening node shows after `evs`: that of the last delivery
      or failure, or `before` when there was none. */
  function LastStatus(before: Option<Status>, evs: seq<Event>): Option<Status>
  {
    if evs == [] then before
    else match evs[|evs| - 1]
      case Delivery(_) => Some(Receiving)
      case Failure(_) => Some(ReceiveFailed)
      case Shutdown => LastStatus(before, evs[..|evs| - 1])
  }

  lemma DecodeAllAppend(ms: seq<ReceivedMessage>, m: ReceivedMessage, topic: Option<string>)
    ensures DecodeAll(ms + [m], topic) == DecodeAll(ms, topic) + [Decode(m, topic)]
  {
  }

  /** An unconfigured node never changes: whatever happens, it stays
      "disconnected" with an empty call log. */
  lemma {:induction false} ReplayUnbound(kind: Kind, c: Config, s: State, evs: seq<Event>)
    requires !s.bound && !s.listen
    ensures Replay(kind, c, s, evs) == s
  {
    if evs != [] {
      ReplayUnbound(kind, c, s, evs[..|evs| - 1]);
    }
  }

  /** The calls a listening node makes for one event. */
  function Chunk(kind: Kind, c: Config, e: Event): seq<Call>
  {
    match e
    case Delivery(m) => [Runtime(Output(Decode(m, OutTopic(kind, c))))]
    case Failure(err) => [Runtime(NodeError(err, None))]
    case Shutdown => [Client(CloseReceiver), Client(CloseClient), Runtime(CloseDone)]
  }

  lemma ChunkFacts(kind: Kind, c: Config, e: Event)
    ensures Count(Chunk(kind, c, e), IsCreate) == 0
    ensures Count(Chunk(kind, c, e), IsSubscribe) == 0
    ensures Count(Chunk(kind, c, e), IsCloseDone) == if e.Shutdown? then 1 else 0
    ensures Collect(Chunk(kind, c, e), OutputOf) == if e.Delivery? then [Decode(e.message, OutTopic(kind, c))] else []
    ensures Collect(Chunk(kind, c, e), ReportedOf) == if e.Failure? then [e.error] else []
  {
    var ch := Chunk(kind, c, e);
    if e.Shutdown? {
      ShutdownChunk();
    } else {
      assert ch == [ch[0]];
      SingleCallFacts(ch[0]);
    }
  }

  lemma SingleCallFacts(x: Call)
    ensures Count([x], IsCreate) == if IsCreate(x) then 1 else 0
    ensures Count([x], IsSubscribe) == if IsSubscribe(x) then 1 else 0
    ensures Count([x], IsCloseDone) == if IsCloseDone(x) then 1 else 0
    ensures Collect([x], OutputOf) == if x.Runtime? && x.host.Output? then [x.host.out] else []
    ensures Collect([x], ReportedOf) == if x.Runtime? && x.host.NodeError? && x.host.context.None? then [x.host.error] else []
  {
  }

  lemma ShutdownChunk()
    ensures var ch := [Client(CloseReceiver), Client(CloseClient), Runtime(CloseDone)];
      && Count(ch, IsCreate) == 0 && Count(ch, IsSubscribe) == 0 && Count(ch, IsCloseDone) == 1
      && Collect(ch, OutputOf) == [] && Collect(ch, ReportedOf) == []
  {
    var x, y, z := Client(CloseReceiver), Client(CloseClient), Runtime(CloseDone);
    CountSmall(x, y, z, IsCreate);
    CountSmall(x, y, z, IsSubscribe);
    CountSmall(x, y, z, IsCloseDone);
    CollectSmall(x, y, z, OutputOf);
    CollectSmall(x, y, z, ReportedOf);
  }

  /** The calls a listening node makes for the events `evs`, in order. */
  function Emitted(kind: Kind, c: Config, evs: seq<Event>): seq<Call>
  {
    if evs == [] then [] else Emitted(kind, c, evs[..|evs| - 1]) + Chunk(kind, c, evs[|evs| - 1])
  }

  /** A listening node stays bound and listening, appends to its log exactly
      the calls of each event in turn, and shows the status of the last
      delivery or failure. */
  lemma {:induction false} ReplayListening(kind: Kind, c: Config, s: State, evs: seq<Event>)
    requires s.bound && s.listen
    ensures var r := Replay(kind, c, s, evs);
      && r.bound && r.listen
      && r.log == s.log + Emitted(kind, c, evs)
      && r.status == LastStatus(s.status, evs)
  {
    if evs == [] {
      assert s.log + [] == s.log;
    } else {
      var evs', e := evs[..|evs| - 1], evs[|evs| - 1];
      ReplayListening(kind, c, s, evs');
      var p := Replay(kind, c, s, evs');
      assert Step(kind, c, p, e).log == p.log + Chunk(kind, c, e);
    }
  }

  /** Once bound, the node creates no further receiver and makes no further
      subscription. */
  lemma {:induction false} EmittedNoBinding(kind: Kind, c: Config, evs: seq<Event>)
    ensures Count(Emitted(kind, c, evs), IsCreate) == 0
    ensures Count(Emitted(kind, c, evs), IsSubscribe) == 0
  {
    if evs != [] {
      var evs' := evs[..|evs| - 1];
      EmittedNoBinding(kind, c, evs');
      ChunkFacts(kind, c, evs[|evs| - 1]);
      CountAppend(Emitted(kind, c, evs'), Chunk(kind, c, evs[|evs| - 1]), IsCreate);
      CountAppend(Emitted(kind, c, evs'), Chunk(kind, c, evs[|evs| - 1]), IsSubscribe);
    }
  }

  /** Exactly one output per delivery, the decoded message, in delivery order. */
  lemma {:induction false} EmittedOutputs(kind: Kind, c: Config, evs: seq<Event>)
    ensures Collect(Emitted(kind, c, evs), OutputOf) == DecodeAll(Collect(evs, DeliveryOf), OutTopic(kind, c))
  {
    if evs != [] {
      var evs', e := evs[..|evs| - 1], evs[|evs| - 1];
      var t := OutTopic(kind, c);
      var ms' := Collect(evs', DeliveryOf);
      EmittedOutputs(kind, c, evs');
      ChunkFacts(kind, c, e);
      CollectAppend(Emitted(kind, c, evs'), Chunk(kind, c, e), OutputOf);
      assert Collect(evs, DeliveryOf) == ms' + (if e.Delivery? then [e.message] else []);
      if e.Delivery? {
        DecodeAllAppend(ms', e.message, t);
      } else {
        assert ms' + [] == ms';
      }
    }
  }

  /** Exactly one `node.error(error)` per failure, in order. */
  lemma {:induction false} EmittedReports(kind: Kind, c: Config, evs: seq<Event>)
    ensures Collect(Emitted(kind, c, evs), ReportedOf) == Collect(evs, FailureOf)
  {
    if evs != [] {
      var evs', e := evs[..|evs| - 1], evs[|evs| - 1];
      EmittedReports(kind, c, evs');
      ChunkFacts(kind, c, e);
      CollectAppend(Emitted(kind, c, evs'), Chunk(kind, c, e), ReportedOf);
      assert evs == evs' + [e];
      CollectAppend(evs', [e], FailureOf);
    }
  }

  /** Exactly one close acknowledgement per shutdown. */
  lemma {:induction false} EmittedCloseDones(kind: Kind, c: Config, evs: seq<Event>)
    ensures Count(Emitted(kind, c, evs), IsCloseDone) == Count(evs, IsShutdown)
  {
    if evs != [] {
      var evs', e := evs[..|evs| - 1], evs[|evs| - 1];
      EmittedCloseDones(kind, c, evs');
      ChunkFacts(kind, c, e);
      assert evs == evs' + [e];
      CountAppend(evs', [e], IsShutdown);
      CountAppend(Emitted(kind, c, evs'), Chunk(kind, c, e), IsCloseDone);
    }
  }

  /** A node whose guard fails shows "disconnected" for good and makes no call
      on the client or the runtime, whatever happens afterwards. */
  lemma UnconfiguredIsInert(kind: Kind, c: Config, evs: seq<Event>)
    requires !ConfigOk(kind, c)
    ensures Run(kind, c, evs).status == Some(Disconnected)
    ensures Run(kind, c, evs).log == []
    ensures !Run(kind, c, evs).bound
  {
    ReplayUnbound(kind, c, AfterInit(kind, c), evs);
  }

  /** A configured node starts with exactly the client, the receiver and the
      subscription, creates exactly one receiver and subscribes exactly once
      over its whole life, and shows the status of its last delivery or
      failure ("connected" before any). */
  lemma ConfiguredBinding(kind: Kind, c: Config, evs: seq<Event>)
    requires ConfigOk(kind, c)
    ensures var r := Run(kind, c, evs);
      && |r.log| >= 3
      && r.log[..3] == [Client(NewClient(c.connectionString.value)),
                        Client(CreateReceiver(ReceiverArgs(kind, c))),
                        Client(Subscribe)]
      && Count(r.log, IsCreate) == 1
      && Count(r.log, IsSubscribe) == 1
      && r.status == LastStatus(Some(Connected), evs)
  {
    var s := AfterInit(kind, c);
    ReplayListening(kind, c, s, evs);
    EmittedNoBinding(kind, c, evs);
    CountAppend(s.log, Emitted(kind, c, evs), IsCreate);
    CountAppend(s.log, Emitted(kind, c, evs), IsSubscribe);
    InitLogCounts(kind, c);
  }

  lemma InitLogCounts(kind: Kind, c: Config)
    requires ConfigOk(kind, c)
    ensures Count(AfterInit(kind, c).log, IsCreate) == 1
    ensures Count(AfterInit(kind, c).log, IsSubscribe) == 1
    ensures Count(AfterInit(kind, c).log, IsCloseDone) == 0
    ensures Collect(AfterInit(kind, c).log, OutputOf) == []
    ensures Collect(AfterInit(kind, c).log, ReportedOf) == []
  {
    var a, b := Client(NewClient(c.connectionString.value)), Client(CreateReceiver(ReceiverArgs(kind, c)));
    CountSmall(a, b, Client(Subscribe), IsCreate);
    CountSmall(a, b, Client(Subscribe), IsSubscribe);
    CountSmall(a, b, Client(Subscribe), IsCloseDone);
    CollectSmall(a, b, Client(Subscribe), OutputOf);
    CollectSmall(a, b, Client(Subscribe), ReportedOf);
  }

  /** Over the whole life of a configured node: one output per delivery, the
      decoded message, in delivery order; one `node.error` per failure, in
      order; one close acknowledgement per shutdown. */
  lemma ConfiguredTraffic(kind: Kind, c: Config, evs: seq<Event>)
    requires ConfigOk(kind, c)
    ensures var r := Run(kind, c, evs);
      && Collect(r.log, OutputOf) == DecodeAll(Collect(evs, DeliveryOf), OutTopic(kind, c))
      && Collect(r.log, ReportedOf) == Collect(evs, FailureOf)
      && Count(r.log, IsCloseDone) == Count(evs, IsShutdown)
  {
    var s := AfterInit(kind, c);
    ReplayListening(kind, c, s, evs);
    InitLogCounts(kind, c);
    EmittedOutputs(kind, c, evs);
    EmittedReports(kind, c, evs);
    EmittedCloseDones(kind, c, evs);
    CollectAppend(s.log, Emitted(kind, c, evs), OutputOf);
    CollectAppend(s.log, Emitted(kind, c, evs), ReportedOf);
    CountAppend(s.log, Emitted(kind, c, evs), IsCloseDone);
  }

  /** A call with the topic of an output cleared; every other call unchanged. */
  function Untopic(x: Call): Call
  {
    if x.Runtime? && x.host.Output? then Runtime(Output(x.host.out.(topic := None))) else x
  }

  /** `a` is the log `b` with the topic of every output cleared. */
  predicate SameButTopics(a: seq<Call>, b: seq<Call>)
  {
    |a| == |b| && forall i :: 0 <= i < |a| ==> a[i] == Untopic(b[i])
  }

  lemma SameButTopicsAppend(a1: seq<Call>, b1: seq<Call>, a2: seq<Call>, b2: seq<Call>)
    requires SameButTopics(a1, b1) && SameButTopics(a2, b2)
    ensures SameButTopics(a1 + a2, b1 + b2)
  {
  }

  lemma ChunkUntopic(c: Config, e: Event)
    ensures SameButTopics(Chunk(StandaloneReceiveQueue, c, e), Chunk(ReceiveQueue, c, e))
  {
  }

  /** For the same events, the stand-alone queue receiver makes the same calls
      as the one of service-bus.js, in the same order, but for the topic of
      each output. */
  lemma {:induction false} EmittedUntopic(c: Config, evs: seq<Event>)
    ensures SameButTopics(Emitted(StandaloneReceiveQueue, c, evs), Emitted(ReceiveQueue, c, evs))
  {
    if evs != [] {
      var evs', e := evs[..|evs| - 1], evs[|evs| - 1];
      EmittedUntopic(c, evs');
      ChunkUntopic(c, e);
      SameButTopicsAppend(Emitted(StandaloneReceiveQueue, c, evs'), Emitted(ReceiveQueue, c, evs'),
                          Chunk(StandaloneReceiveQueue, c, e), Chunk(ReceiveQueue, c, e));
    }
  }

  /** The stand-alone queue receiver of receive-queue-message.js guards,
      binds, subscribes, reports and closes exactly as the one in
      service-bus.js: over any events its whole call log is that of the
      service-bus.js node, entry by entry in the same order, except that the
      topic of every output is `undefined` instead of the queue name; and it
      shows the same status. */
  lemma StandaloneQueueDiffersOnlyInTopic(c: Config, evs: seq<Event>)
    requires ConfigOk(ReceiveQueue, c)
    ensures ConfigOk(StandaloneReceiveQueue, c)
    ensures var a, b := Run(StandaloneReceiveQueue, c, evs), Run(ReceiveQueue, c, evs);
      var outA, outB := Collect(a.log, OutputOf), Collect(b.log, OutputOf);
      && a.status == b.status
      && SameButTopics(a.log, b.log)
      && |outA| == |outB|
      && (forall i :: 0 <= i < |outA| ==> outA[i].topic == None && outB[i].topic == c.queue)
  {
    var sa, sb := AfterInit(StandaloneReceiveQueue, c), AfterInit(ReceiveQueue, c);
    ReplayListening(StandaloneReceiveQueue, c, sa, evs);
    ReplayListening(ReceiveQueue, c, sb, evs);
    assert SameButTopics(sa.log, sb.log);
    EmittedUntopic(c, evs);
    SameButTopicsAppend(sa.log, sb.log, Emitted(StandaloneReceiveQueue, c, evs), Emitted(ReceiveQueue, c, evs));
    ConfiguredTraffic(StandaloneReceiveQueue, c, evs);
    ConfiguredTraffic(ReceiveQueue, c, evs);
  }

  /** A receive node: the runtime creates it with its kind and configuration,
      the receiver calls `OnMessage` and `OnError`, and the runtime calls
      `Close`. Each method changes the node exactly as the corresponding
      transition of the state machine above. */
  class ReceiverNode {
    const kind: Kind
    const config: Config
    var status: Option<Status>
    var listen: bool
    var bound: bool
    var log: seq<Call>

    function Snapshot(): State
      reads this
    {
      State(status, listen, bound, log)
    }

    constructor (kind: Kind, config: Config)
      ensures this.kind == kind && this.config == config
      ensures Snapshot() == AfterInit(kind, config)
    {
      this.kind := kind;
      this.config := config;
      if !ConfigOk(kind, config) {
        status, listen, bound, log := Some(Disconnected), false, false, [];
      } else {
        status, listen, bound := None, false, true;
        log := [Client(NewClient(config.connectionString.value)),
                Client(CreateReceiver(ReceiverArgs(kind, config)))];
      }
      new;
      if bound {
        Listen();
      }
    }

    /** `if (!node.listen) { node.listen = true; setupSubscriptions(); }` */
    method Listen()
      requires bound
      modifies this
      ensures Snapshot() == AfterListen(old(Snapshot()))
    {
      if !listen {
        listen := true;
        log := log + [Client(Subscribe)];
        status := Some(Connected);
      }
    }

    /** `onMessageReceived(message)` */
    method OnMessage(m: ReceivedMessage)
      modifies this
      ensures Snapshot() == AfterDelivery(kind, config, old(Snapshot()), m)
    {
      if listen {
        log := log + [Runtime(Output(Decode(m, OutTopic(kind, config))))];
        status := Some(Receiving);
      }
    }

    /** `onError(error)` */
    method OnError(e: Value)
      modifies this
      ensures Snapshot() == AfterFailure(old(Snapshot()), e)
    {
      if listen {
        log := log + [Runtime(NodeError(e, None))];
        status := Some(ReceiveFailed);
      }
    }

    /** The close handler. */
    method Close()
      modifies this
      ensures Snapshot() == AfterShutdown(old(Snapshot()))
    {
      if bound {
        log := log + [Client(CloseReceiver), Client(CloseClient), Runtime(CloseDone)];
      }
    }
  }
}
