/** The send node types: `SendQueueMessage` and `SendTopicMessage` of
    service-bus.js, and the stand-alone `SendQueueMessage` and
    `SendTopicMessage` of send-queue-message.js and send-topic-message.js.
    Each checks its configuration, creates one client and one sender, shows
    "connected", makes exactly one `sendMessages` call per input and routes
    its outcome to `done` or `node.error`, and closes the sender and the
    client when the runtime closes the node. */
module Send {
  import opened Js
  import opened Envelope
  import opened Node

  datatype Kind =
    | SendQueue            // service-bus.js, "Send Queue Message"
    | SendTopic            // service-bus.js, "Send Topic Message"
    | StandaloneSendQueue  // send-queue-message.js
    | StandaloneSendTopic  // send-topic-message.js

  /** The configuration guard. The topic sender of service-bus.js needs only
      the topic; the one of send-topic-message.js also needs a subscription. */
  predicate ConfigOk(kind: Kind, c: Config)
    ensures ConfigOk(kind, c) ==> Truthy(c.connectionString)
    ensures kind in {SendQueue, StandaloneSendQueue} ==>
      (ConfigOk(kind, c) <==> Truthy(c.connectionString) && Truthy(c.queue))
    ensures kind == SendTopic ==> (ConfigOk(kind, c) <==> Truthy(c.connectionString) && Truthy(c.topic))
    ensures kind == StandaloneSendTopic ==>
      (ConfigOk(kind, c) <==> Truthy(c.connectionString) && Truthy(c.topic) && Truthy(c.subscription))
  {
    match kind
    case SendQueue | StandaloneSendQueue => Truthy(c.connectionString) && Truthy(c.queue)
    case SendTopic => Truthy(c.connectionString) && Truthy(c.topic)
    case StandaloneSendTopic => Truthy(c.connectionString) && Truthy(c.topic) && Truthy(c.subscription)
  }

  /** The arguments of the one `createSender` call, each a configured
      non-empty name; send-topic-message.js passes the subscription too. */
  function SenderArgs(kind: Kind, c: Config): (args: seq<string>)
    requires ConfigOk(kind, c)
    ensures kind in {SendQueue, StandaloneSendQueue} ==> args == [c.queue.value]
    ensures kind == SendTopic ==> args == [c.topic.value]
    ensures kind == StandaloneSendTopic ==> args == [c.topic.value, c.subscription.value]
    ensures forall i :: 0 <= i < |args| ==> args[i] != ""
  {
    match kind
    case SendQueue | StandaloneSendQueue => [c.queue.value]
    case SendTopic => [c.topic.value]
    case StandaloneSendTopic => [c.topic.value, c.subscription.value]
  }

  /** What a send node holds and has done: its status, whether the guard
      passed so that a client and a sender exist and the input and close
      handlers are registered, and its call log. */
  datatype State = State(status: Option<Status>, bound: bool, log: seq<Call>)

  /** How the awaited `sendMessages` call ends. */
  datatype Outcome = Sent | Failed(error: Value)

  /** What can happen to a send node after it is created. */
  datatype Event =
    | Input(msg: Msg, outcome: Outcome, hasDone: bool)  // the runtime delivers msg; done is present or not
    | Shutdown                                          // the runtime closes the node

  /** The constructor. A failed guard shows "disconnected" and makes no call;
      otherwise one client, one sender on the configured endpoint, and
      "connected" before any input. */
  function AfterInit(kind: Kind, c: Config): (s: State)
    ensures s.bound <==> ConfigOk(kind, c)
    ensures !s.bound ==> s == State(Some(Disconnected), false, [])
    ensures s.bound ==> s.status == Some(Connected)
    ensures s.bound ==> s.log == [Client(NewClient(c.connectionString.value)),
                                  Client(CreateSender(SenderArgs(kind, c)))]
  {
    if !ConfigOk(kind, c) then State(Some(Disconnected), false, [])
    else State(Some(Connected), true,
      [Client(NewClient(c.connectionString.value)), Client(CreateSender(SenderArgs(kind, c)))])
  }

  /** The runtime calls an input makes after `sendMessages`: on success `done()`
      if `done` was given, on failure exactly one of `done(error)` and
      `node.error(error, msg)`, chosen by whether `done` was given. */
  function Completion(msg: Msg, outcome: Outcome, hasDone: bool): (r: seq<Call>)
    ensures outcome.Sent? ==> |r| == (if hasDone then 1 else 0)
    ensures outcome.Sent? ==> forall i :: 0 <= i < |r| ==> IsSuccessDone(r[i]) && !IsFailureReport(r[i])
    ensures outcome.Failed? ==> |r| == 1 && IsFailureReport(r[0]) && !IsSuccessDone(r[0])
    ensures outcome.Failed? && hasDone ==> r == [Runtime(InputDone(Some(outcome.error)))]
    ensures outcome.Failed? && !hasDone ==> r == [Runtime(NodeError(outcome.error, Some(msg)))]
    ensures forall i :: 0 <= i < |r| ==> r[i].Runtime? && !IsCloseDone(r[i])
  {
    match outcome
    case Sent => if hasDone then [Runtime(InputDone(None))] else []
    case Failed(e) => if hasDone then [Runtime(InputDone(Some(e)))] else [Runtime(NodeError(e, Some(msg)))]
  }

  /** The status an input leaves behind. */
  function OutcomeStatus(outcome: Outcome): (st: Status)
    ensures outcome.Sent? ==> st == Status(Green, Dot, "OK")
    ensures outcome.Failed? ==> st == Status(Red, Dot, "error, see debug or output")
  {
    if outcome.Sent? then SendOk else SendFailed
  }

  /** The input handler: one `sendMessages` with the encoded request, then
      the status of the outcome and its completion. A node whose guard failed
      registered no input handler. */
  function AfterInput(s: State, msg: Msg, outcome: Outcome, hasDone: bool): (r: State)
    ensures !s.bound ==> r == s
    ensures s.bound ==> r.bound && r.log == s.log + [Client(SendMessages(Encode(msg)))] + Completion(msg, outcome, hasDone)
    ensures s.bound && outcome.Sent? ==> r.status == Some(SendOk)
    ensures s.bound && outcome.Failed? ==> r.status == Some(SendFailed)
  {
    if !s.bound then s
    else State(Some(OutcomeStatus(outcome)), true,
      s.log + [Client(SendMessages(Encode(msg)))] + Completion(msg, outcome, hasDone))
  }

  /** The close handler: `sender.close()`, then `serviceBus.close()`, then
      `done()`. */
  function AfterShutdown(s: State): (r: State)
    ensures !s.bound ==> r == s
    ensures s.bound ==> r.log == s.log + [Client(CloseSender), Client(CloseClient), Runtime(CloseDone)]
    ensures r.status == s.status && r.bound == s.bound
  {
    if !s.bound then s
    else s.(log := s.log + [Client(CloseSender), Client(CloseClient), Runtime(CloseDone)])
  }

  function Step(s: State, e: Event): State
  {
    match e
    case Input(msg, outcome, hasDone) => AfterInput(s, msg, outcome, hasDone)
    case Shutdown => AfterShutdown(s)
  }

  /** The state after the events `evs`, in order, starting from `s`. */
  function Replay(s: State, evs: seq<Event>): State
  {
    if evs == [] then s else Step(Replay(s, evs[..|evs| - 1]), evs[|evs| - 1])
  }

  /** A node of type `kind` created with `c`, after the events `evs`. */
  function Run(kind: Kind, c: Config, evs: seq<Event>): State
  {
    Replay(AfterInit(kind, c), evs)
  }

  // Reference definitions over the events, independent of the node's state.

  function InputOf(e: Event): Option<Msg>
  {
    if e.Input? then Some(e.msg) else None
  }

  predicate IsShutdown(e: Event) { e.Shutdown? }
  predicate IsFailedInput(e: Event) { e.Input? && e.outcome.Failed? }
  predicate IsAcknowledgedSuccess(e: Event) { e.Input? && e.outcome.Sent? && e.hasDone }

  /** The input messages, encoded one by one, in input order. */
  function EncodeAll(ms: seq<Msg>): (r: seq<SendRequest>)
    ensures |r| == |ms|
    ensures forall i :: 0 <= i < |ms| ==> r[i] == Encode(ms[i])
  {
    if ms == [] then [] else EncodeAll(ms[..|ms| - 1]) + [Encode(ms[|ms| - 1])]
  }

  /** The status a bound node shows after `evs`: that of the outcome of the
      last input, or `before` when there was none. */
  function LastStatus(before: Option<Status>, evs: seq<Event>): Option<Status>
  {
    if evs == [] then before
    else match evs[|evs| - 1]
      case Input(_, outcome, _) => Some(OutcomeStatus(outcome))
      case Shutdown => LastStatus(before, evs[..|evs| - 1])
  }

  lemma EncodeAllAppend(ms: seq<Msg>, m: Msg)
    ensures EncodeAll(ms + [m]) == EncodeAll(ms) + [Encode(m)]
  {
  }

  /** The calls a bound node makes for one event. */
  function Chunk(e: Event): seq<Call>
  {
    match e
    case Input(msg, outcome, hasDone) => [Client(SendMessages(Encode(msg)))] + Completion(msg, outcome, hasDone)
    case Shutdown => [Client(CloseSender), Client(CloseClient), Runtime(CloseDone)]
  }

  lemma ChunkFacts(e: Event)
    ensures Count(Chunk(e), IsCreate) == 0
    ensures Count(Chunk(e), IsCloseDone) == if e.Shutdown? then 1 else 0
    ensures Count(Chunk(e), IsFailureReport) == if IsFailedInput(e) then 1 else 0
    ensures Count(Chunk(e), IsSuccessDone) == if IsAcknowledgedSuccess(e) then 1 else 0
    ensures Collect(Chunk(e), RequestOf) == if e.Input? then [Encode(e.msg)] else []
  {
    match e
    case Input(msg, outcome, hasDone) =>
      var x := Client(SendMessages(Encode(msg)));
      var y := match outcome
        case Sent => Runtime(InputDone(None))
        case Failed(err) => if hasDone then Runtime(InputDone(Some(err))) else Runtime(NodeError(err, Some(msg)));
      if outcome.Sent? && !hasDone {
        assert Chunk(e) == [x];
      } else {
        assert Chunk(e) == [x, y];
      }
      CountSmall(x, y, y, IsCreate);
      CountSmall(x, y, y, IsCloseDone);
      CountSmall(x, y, y, IsFailureReport);
      CountSmall(x, y, y, IsSuccessDone);
      CollectSmall(x, y, y, RequestOf);
    case Shutdown =>
      var x, y, z := Client(CloseSender), Client(CloseClient), Runtime(CloseDone);
      CountSmall(x, y, z, IsCreate);
      CountSmall(x, y, z, IsCloseDone);
      CountSmall(x, y, z, IsFailureReport);
      CountSmall(x, y, z, IsSuccessDone);
      CollectSmall(x, y, z, RequestOf);
  }

  /** The calls a bound node makes for the events `evs`, in order. */
  function Emitted(evs: seq<Event>): seq<Call>
  {
    if evs == [] then [] else Emitted(evs[..|evs| - 1]) + Chunk(evs[|evs| - 1])
  }

  /** An unconfigured node never changes. */
  lemma {:induction false} ReplayUnbound(s: State, evs: seq<Event>)
    requires !s.bound
    ensures Replay(s, evs) == s
  {
    if evs != [] {
      ReplayUnbound(s, evs[..|evs| - 1]);
    }
  }

  /** A bound node stays bound, appends to its log exactly the calls of each
      event in turn, and shows the status of the last input's outcome. */
  lemma {:induction false} ReplayBound(s: State, evs: seq<Event>)
    requires s.bound
    ensures var r := Replay(s, evs);
      && r.bound
      && r.log == s.log + Emitted(evs)
      && r.status == LastStatus(s.status, evs)
  {
    if evs == [] {
      assert s.log + [] == s.log;
    } else {
      var evs', e := evs[..|evs| - 1], evs[|evs| - 1];
      ReplayBound(s, evs');
      var p := Replay(s, evs');
      assert Step(p, e).log == p.log + Chunk(e);
    }
  }

  /** Per input exactly one `sendMessages`, with the encoded message, in input
      order; nothing else is ever sent. */
  lemma {:induction false} EmittedRequests(evs: seq<Event>)
    ensures Collect(Emitted(evs), RequestOf) == EncodeAll(Collect(evs, InputOf))
  {
    if evs != [] {
      var evs', e := evs[..|evs| - 1], evs[|evs| - 1];
      var ms' := Collect(evs', InputOf);
      EmittedRequests(evs');
      ChunkFacts(e);
      CollectAppend(Emitted(evs'), Chunk(e), RequestOf);
      assert Collect(evs, InputOf) == ms' + (if e.Input? then [e.msg] else []);
      if e.Input? {
        EncodeAllAppend(ms', e.msg);
      } else {
        assert ms' + [] == ms';
      }
    }
  }

  /** Once bound, the node creates no further sender. */
  lemma {:induction false} EmittedNoCreate(evs: seq<Event>)
    ensures Count(Emitted(evs), IsCreate) == 0
  {
    if evs != [] {
      var evs', e := evs[..|evs| - 1], evs[|evs| - 1];
      EmittedNoCreate(evs');
      ChunkFacts(e);
      CountAppend(Emitted(evs'), Chunk(e), IsCreate);
    }
  }

  /** Every failed input is reported exactly once, by `done(error)` or by
      `node.error(error, msg)`; nothing else is such a report. */
  lemma {:induction false} EmittedFailureReports(evs: seq<Event>)
    ensures Count(Emitted(evs), IsFailureReport) == Count(evs, IsFailedInput)
  {
    if evs != [] {
      var evs', e := evs[..|evs| - 1], evs[|evs| - 1];
      EmittedFailureReports(evs');
      ChunkFacts(e);
      CountAppend(Emitted(evs'), Chunk(e), IsFailureReport);
    }
  }

  /** Every success with `done` calls `done()` exactly once; nothing else does. */
  lemma {:induction false} EmittedSuccessDones(evs: seq<Event>)
    ensures Count(Emitted(evs), IsSuccessDone) == Count(evs, IsAcknowledgedSuccess)
  {
    if evs != [] {
      var evs', e := evs[..|evs| - 1], evs[|evs| - 1];
      EmittedSuccessDones(evs');
      ChunkFacts(e);
      CountAppend(Emitted(evs'), Chunk(e), IsSuccessDone);
    }
  }

  /** Every shutdown is acknowledged exactly once. */
  lemma {:induction false} EmittedCloseDones(evs: seq<Event>)
    ensures Count(Emitted(evs), IsCloseDone) == Count(evs, IsShutdown)
  {
    if evs != [] {
      var evs', e := evs[..|evs| - 1], evs[|evs| - 1];
      EmittedCloseDones(evs');
      ChunkFacts(e);
      CountAppend(Emitted(evs'), Chunk(e), IsCloseDone);
    }
  }

  lemma InitLogCounts(kind: Kind, c: Config)
    requires ConfigOk(kind, c)
    ensures Count(AfterInit(kind, c).log, IsCreate) == 1
    ensures Count(AfterInit(kind, c).log, IsFailureReport) == 0
    ensures Count(AfterInit(kind, c).log, IsSuccessDone) == 0
    ensures Count(AfterInit(kind, c).log, IsCloseDone) == 0
    ensures Collect(AfterInit(kind, c).log, RequestOf) == []
  {
    var a, b := Client(NewClient(c.connectionString.value)), Client(CreateSender(SenderArgs(kind, c)));
    CountSmall(a, b, b, IsCreate);
    CountSmall(a, b, b, IsFailureReport);
    CountSmall(a, b, b, IsSuccessDone);
    CountSmall(a, b, b, IsCloseDone);
    CollectSmall(a, b, b, RequestOf);
  }

  /** A node whose guard fails shows "disconnected" for good and makes no call
      on the client or the runtime, whatever inputs arrive. */
  lemma UnconfiguredIsInert(kind: Kind, c: Config, evs: seq<Event>)
    requires !ConfigOk(kind, c)
    ensures Run(kind, c, evs).status == Some(Disconnected)
    ensures Run(kind, c, evs).log == []
  {
    ReplayUnbound(AfterInit(kind, c), evs);
  }

  /** Over the whole life of a configured node: the log starts with the client
      and the one sender; exactly one sender is created; the requests sent are
      the encoded inputs, one each, in order; every failed input is reported
      exactly once and every acknowledged success completes exactly once;
      every shutdown is acknowledged once; and the status is that of the last
      outcome ("connected" before any input). */
  lemma ConfiguredLifecycle(kind: Kind, c: Config, evs: seq<Event>)
    requires ConfigOk(kind, c)
    ensures var r := Run(kind, c, evs);
      && |r.log| >= 2
      && r.log[..2] == [Client(NewClient(c.connectionString.value)), Client(CreateSender(SenderArgs(kind, c)))]
      && Count(r.log, IsCreate) == 1
      && Collect(r.log, RequestOf) == EncodeAll(Collect(evs, InputOf))
      && Count(r.log, IsFailureReport) == Count(evs, IsFailedInput)
      && Count(r.log, IsSuccessDone) == Count(evs, IsAcknowledgedSuccess)
      && Count(r.log, IsCloseDone) == Count(evs, IsShutdown)
      && r.status == LastStatus(Some(Connected), evs)
  {
    var s := AfterInit(kind, c);
    ReplayBound(s, evs);
    InitLogCounts(kind, c);
    EmittedRequests(evs);
    EmittedNoCreate(evs);
    EmittedFailureReports(evs);
    EmittedSuccessDones(evs);
    EmittedCloseDones(evs);
    CountAppend(s.log, Emitted(evs), IsCreate);
    CountAppend(s.log, Emitted(evs), IsFailureReport);
    CountAppend(s.log, Emitted(evs), IsSuccessDone);
    CountAppend(s.log, Emitted(evs), IsCloseDone);
    CollectAppend(s.log, Emitted(evs), RequestOf);
  }

  /** send-queue-message.js behaves exactly as the queue sender of
      service-bus.js. */
  lemma StandaloneQueueSameAsBundled(c: Config, evs: seq<Event>)
    ensures Run(StandaloneSendQueue, c, evs) == Run(SendQueue, c, evs)
  {
  }

  /** send-topic-message.js against the topic sender of service-bus.js: its
      guard is strictly stronger (it also needs a subscription, and without
      one the node stays "disconnected" and calls nothing), it passes the
      subscription to `createSender`, and otherwise it behaves the same. */
  lemma StandaloneTopicAgainstBundled(c: Config, evs: seq<Event>)
    ensures ConfigOk(StandaloneSendTopic, c) ==> ConfigOk(SendTopic, c)
    ensures ConfigOk(SendTopic, c) && !Truthy(c.subscription) ==>
      Run(StandaloneSendTopic, c, evs).log == [] &&
      Run(StandaloneSendTopic, c, evs).status == Some(Disconnected) &&
      |Run(SendTopic, c, evs).log| >= 2 && Run(SendTopic, c, evs).log[1] == Client(CreateSender([c.topic.value]))
    ensures ConfigOk(StandaloneSendTopic, c) ==>
      var a, b := Run(StandaloneSendTopic, c, evs), Run(SendTopic, c, evs);
      && a.status == b.status
      && |a.log| == |b.log| >= 2
      && a.log[1] == Client(CreateSender([c.topic.value, c.subscription.value]))
      && b.log[1] == Client(CreateSender([c.topic.value]))
      && a.log[0] == b.log[0] && a.log[2..] == b.log[2..]
  {
    if ConfigOk(SendTopic, c) {
      ReplayBound(AfterInit(SendTopic, c), evs);
    }
    if ConfigOk(StandaloneSendTopic, c) {
      ReplayBound(AfterInit(StandaloneSendTopic, c), evs);
    } else {
      ReplayUnbound(AfterInit(StandaloneSendTopic, c), evs);
    }
  }

  /** A send node: the runtime creates it with its kind and configuration,
      delivers inputs with `Input` and closes it with `Close`. Each method
      changes the node exactly as the corresponding transition above. */
  class SenderNode {
    const kind: Kind
    const config: Config
    var status: Option<Status>
    var bound: bool
    var log: seq<Call>

    function Snapshot(): State
      reads this
    {
      State(status, bound, log)
    }

    constructor (kind: Kind, config: Config)
      ensures this.kind == kind && this.config == config
      ensures Snapshot() == AfterInit(kind, config)
    {
      this.kind := kind;
      this.config := config;
      if !ConfigOk(kind, config) {
        status, bound, log := Some(Disconnected), false, [];
      } else {
        bound := true;
        log := [Client(NewClient(config.connectionString.value)),
                Client(CreateSender(SenderArgs(kind, config)))];
        status := Some(Connected);
      }
    }

    /** The input handler for `msg`; `outcome` is how the awaited
        `sendMessages` ends and `hasDone` whether the runtime passed `done`. */
    method Input(msg: Msg, outcome: Outcome, hasDone: bool)
      modifies this
      ensures Snapshot() == AfterInput(old(Snapshot()), msg, outcome, hasDone)
    {
      if bound {
        var request := Encode(msg);
        log := log + [Client(SendMessages(request))];
        match outcome {
          case Sent =>
            status := Some(SendOk);
            if hasDone {
              log := log + [Runtime(InputDone(None))];
            }
          case Failed(e) =>
            status := Some(SendFailed);
            if hasDone {
              log := log + [Runtime(InputDone(Some(e)))];
            } else {
              log := log + [Runtime(NodeError(e, Some(msg)))];
            }
        }
      }
    }

    /** The close handler. */
    method Close()
      modifies this
      ensures Snapshot() == AfterShutdown(old(Snapshot()))
    {
      if bound {
        log := log + [Client(CloseSender), Client(CloseClient), Runtime(CloseDone)];
      }
    }
  }
}
