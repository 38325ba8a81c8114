/** What the four node types share: the configuration a node is created
    with, the status triple it shows, and the ordered logs of the calls it
    makes on the Service Bus client (backend) and on the Node-RED runtime
    (host). The client and the runtime are not modelled beyond these logs. */
module Node {
  import opened Js
  import opened Envelope

  /** The node's configuration object `n`, with the fields the node copies. */
  datatype Config = Config(
    connectionString: Option<string>,
    queue: Option<string>,
    topic: Option<string>,
    subscription: Option<string>)

  datatype Fill = Gray | Green | Red
  datatype Shape = Ring | Dot

  /** The argument of `node.status(...)`. */
  datatype Status = Status(fill: Fill, shape: Shape, text: string)

  const Disconnected := Status(Gray, Ring, "disconnected")
  const Connected := Status(Green, Ring, "connected")
  const Receiving := Status(Green, Dot, "receiving messages")
  /** Shown by a receiver's `onError`; the text ends in "outputs". */
  const ReceiveFailed := Status(Red, Ring, "error, see debug or outputs")
  const SendOk := Status(Green, Dot, "OK")
  /** Shown by a sender after a failed send; the text ends in "output". */
  const SendFailed := Status(Red, Dot, "error, see debug or output")

  /** One call on the Service Bus client or on an object it created. */
  datatype BackendCall =
    | NewClient(connectionString: string)   // new ServiceBusClient(connectionString)
    | CreateReceiver(args: seq<string>)     // serviceBus.createReceiver(...args)
    | CreateSender(args: seq<string>)       // serviceBus.createSender(...args)
    | Subscribe                             // receiver.subscribe({processMessage, processError})
    | SendMessages(request: SendRequest)    // sender.sendMessages(request)
    | CloseReceiver                         // receiver.close()
    | CloseSender                           // sender.close()
    | CloseClient                           // serviceBus.close()

  /** One call on the Node-RED runtime. */
  datatype HostCall =
    | Output(out: Msg)                          // node.send(msg)
    | NodeError(error: Value, context: Option<Msg>) // node.error(error) or node.error(error, msg)
    | InputDone(result: Option<Value>)          // the input handler's done() or done(error)
    | CloseDone                                 // the close handler's done()

  /** One entry of a node's call log, which keeps client calls and runtime
      calls in the one order in which the node makes them. */
  datatype Call = Client(backend: BackendCall) | Runtime(host: HostCall)

  predicate IsCreate(c: Call) { c.Client? && (c.backend.CreateReceiver? || c.backend.CreateSender?) }
  predicate IsSubscribe(c: Call) { c == Client(Subscribe) }
  predicate IsCloseDone(c: Call) { c == Runtime(CloseDone) }
  predicate IsSuccessDone(c: Call) { c == Runtime(InputDone(None)) }
  /** A runtime call through which a failed send is reported: `done(error)`
      or `node.error(error, msg)`. */
  predicate IsFailureReport(c: Call)
  {
    c.Runtime? &&
    ((c.host.InputDone? && c.host.result.Some?) || (c.host.NodeError? && c.host.context.Some?))
  }

  /** The request of a `sendMessages` call. */
  function RequestOf(c: Call): Option<SendRequest>
  {
    if c.Client? && c.backend.SendMessages? then Some(c.backend.request) else None
  }

  /** The message of a `node.send` call. */
  function OutputOf(c: Call): Option<Msg>
  {
    if c.Runtime? && c.host.Output? then Some(c.host.out) else None
  }

  /** The error of a `node.error(error)` call made without a message. */
  function ReportedOf(c: Call): Option<Value>
  {
    if c.Runtime? && c.host.NodeError? && c.host.context.None? then Some(c.host.error) else None
  }

  /** The number of elements of `s` that satisfy `p`. */
  function Count<T>(s: seq<T>, p: T -> bool): nat
  {
    if s == [] then 0 else Count(s[..|s| - 1], p) + (if p(s[|s| - 1]) then 1 else 0)
  }

  /** The values `f` picks out of `s`, in order. */
  function Collect<T, U>(s: seq<T>, f: T -> Option<U>): seq<U>
  {
    if s == [] then [] else
      var last := f(s[|s| - 1]);
      Collect(s[..|s| - 1], f) + (if last.Some? then [last.value] else [])
  }

  lemma {:induction false} CountAppend<T>(a: seq<T>, b: seq<T>, p: T -> bool)
    ensures Count(a + b, p) == Count(a, p) + Count(b, p)
  {
    if b == [] {
      assert a + b == a;
    } else {
      var b' := b[..|b| - 1];
      assert (a + b)[..|a + b| - 1] == a + b';
      CountAppend(a, b', p);
    }
  }

  lemma {:induction false} CollectAppend<T, U>(a: seq<T>, b: seq<T>, f: T -> Option<U>)
    ensures Collect(a + b, f) == Collect(a, f) + Collect(b, f)
  {
    if b == [] {
      assert a + b == a;
    } else {
      var b' := b[..|b| - 1];
      assert (a + b)[..|a + b| - 1] == a + b';
      CollectAppend(a, b', f);
    }
  }

  /** `Count` on logs of one to three entries. */
  lemma CountSmall<T>(x: T, y: T, z: T, p: T -> bool)
    ensures Count([x], p) == (if p(x) then 1 else 0)
    ensures Count([x, y], p) == Count([x], p) + (if p(y) then 1 else 0)
    ensures Count([x, y, z], p) == Count([x, y], p) + (if p(z) then 1 else 0)
  {
    assert [x][..0] == [];
    assert [x, y][..1] == [x];
    assert [x, y, z][..2] == [x, y];
  }

  /** `Collect` on logs of one to three entries. */
  lemma CollectSmall<T, U>(x: T, y: T, z: T, f: T -> Option<U>)
    ensures Collect([x], f) == (if f(x).Some? then [f(x).value] else [])
    ensures Collect([x, y], f) == Collect([x], f) + (if f(y).Some? then [f(y).value] else [])
    ensures Collect([x, y, z], f) == Collect([x, y], f) + (if f(z).Some? then [f(z).value] else [])
  {
    assert [x][..0] == [];
    assert [x, y][..1] == [x];
    assert [x, y, z][..2] == [x, y];
  }
}
