# Azure Service Bus nodes for Node-RED, modelled in Dafny

The repository defines four Node-RED node types that bridge a flow to Azure
Service Bus: receive from a queue, receive from a topic subscription, send to
a queue, send to a topic. `service-bus.js` defines all four. The stand-alone
files `receive-queue-message.js`, `send-queue-message.js` and
`send-topic-message.js` define three of them again, and two of those
differ from `service-bus.js`.

Each node type is a small sequential state machine:

- a **configuration guard**, a truthiness check on the connection string and
  the endpoint names; when it fails, the node shows gray/ring/"disconnected"
  and does nothing else;
- a **binding step**: one `new ServiceBusClient(connectionString)`, one
  `createReceiver` or `createSender` with a specific argument list, and, for
  receivers, one `subscribe` guarded by the `listen` flag;
- an **envelope codec**: a delivered message becomes
  `{payload: body, topic, message: {contentType, id: messageId, subject, properties: applicationProperties}}`;
  an input message becomes the `sendMessages` request
  `{contentType: msg.message?.contentType || "application/json", body: msg.payload, applicationProperties: msg.message?.properties}`;
- **status and completion rules**: each event sets the `(fill, shape, text)`
  status; after a send exactly one of `done()`, `done(error)` or
  `node.error(error, msg)` runs (or none, on success without `done`); close
  calls `close()` on the receiver or sender, then on the client, then `done()`.

The Service Bus client and the Node-RED runtime are replaced by one ordered
call log (`Node.Call`): every call on the client (`Client(...)`) and every
`node.send`, `node.error` and `done` call on the runtime (`Runtime(...)`) is
appended in the order the node makes it. `node.status(...)` is not logged:
the node's `status` field holds the last status it set. JavaScript values the nodes only copy (payloads, property bags, message
ids, errors) are opaque (`Js.Value`); strings that may be `undefined` are
`Js.Option<string>`, where both `None` and `Some("")` are falsy.

Modules:

- `js.dfy` — `Js`: `Option`, opaque `Value`, `Truthy`, and `Or` (the `||` operator).
- `envelope.dfy` — `Envelope`: `Decode`, `Encode` and their round trip.
- `node.dfy` — `Node`: the configuration, the status triples, the call log,
  and `Count`/`Collect` for reading the log.
- `receive.dfy` — `Receive`: the three receive node types as a pure state
  machine (`AfterInit`, `AfterListen`, `AfterDelivery`, `AfterFailure`,
  `AfterShutdown`, `Run`), the lemmas about whole runs, and the class
  `ReceiverNode`, whose fields are the node's status, `listen` flag, bound
  flag and log, and whose methods are proved to change them exactly as the
  state machine says.
- `send.dfy` — `Send`: the four send node types in the same shape, with the
  class `SenderNode`.

A node type is one constructor of `Receive.Kind` or `Send.Kind`:
`ReceiveQueue`, `ReceiveTopic`, `SendQueue` and `SendTopic` are the types of
`service-bus.js`; `StandaloneReceiveQueue`, `StandaloneSendQueue` and
`StandaloneSendTopic` are those of the stand-alone files. Where the files
differ, each kind follows its own file:

- `send-topic-message.js:16` also requires `subscription`; `service-bus.js:269` does not.
  `send-topic-message.js:26` passes the subscription to `createSender` as a
  second argument; `service-bus.js:279` passes the topic only
  (`Send.StandaloneTopicAgainstBundled`).
- `receive-queue-message.js:39` emits `topic: node.topic`, which that file
  never assigns, so every output's topic is `undefined`; `service-bus.js:44`
  emits the queue name (`Receive.StandaloneQueueDiffersOnlyInTopic`).
- `send-queue-message.js` behaves exactly as the queue sender of
  `service-bus.js` (`Send.StandaloneQueueSameAsBundled`).

Some consequences of the code that a reader might not expect: a round trip
keeps the content type only when it is truthy, and an empty one becomes
`"application/json"`; a second close repeats the three close calls;
"receiving messages" stays until the next delivery or error; and
`send-topic-message.js` requires a subscription before it binds.

## Model

| member | source | states |
|---|---|---|
| `Js.Or` | service-bus.js:217 | the JavaScript or-operator yields the left operand when it is truthy and the right one otherwise; the result is truthy when either operand is |
| `Envelope.ContentTypeOf` | service-bus.js:217 | `msg.message?.contentType`: `undefined` when the message has no `message` object, its `contentType` otherwise |
| `Envelope.PropertiesOf` | service-bus.js:223 | `msg.message?.properties`: `undefined` when the message has no `message` object, its `properties` otherwise |
| `Envelope.Decode` | service-bus.js:42-51 | the output's payload is the body and its topic the one supplied; its `message` is present and holds contentType, id = messageId, subject, properties = applicationProperties, each unchanged |
| `Envelope.Encode` | service-bus.js:217-224 | the request's content type is `msg.message?.contentType` when truthy and `"application/json"` otherwise (so never empty); body is the payload and applicationProperties is `msg.message?.properties`, both unchanged, `undefined` included |
| `Envelope.DecodeInjective` | service-bus.js:126-143 | two different deliveries never decode to the same output message |
| `Envelope.RoundTrip` | service-bus.js:296-303 | sending a receiver's output sends the delivered body and properties unchanged and the delivered content type whenever it is truthy, `"application/json"` otherwise |
| `Envelope.EncodeStable` | send-queue-message.js:42 | re-encoding with the encoded content type yields the identical request |
| `Receive.ConfigOk` | service-bus.js:106 | the guard holds iff the connection string and the endpoint names are truthy: the queue for both queue receivers (service-bus.js:20, receive-queue-message.js:15), the topic and the subscription for the topic receiver |
| `Receive.OutTopic` | receive-queue-message.js:39 | the `topic` of every output: the queue name for the service-bus.js queue receiver (service-bus.js:44), the topic name for the topic receiver (service-bus.js:130), `undefined` for receive-queue-message.js, whose `node.topic` is never assigned |
| `Receive.ReceiverArgs` | service-bus.js:115-116 | `createReceiver` gets the queue, or the topic and the subscription, each a non-empty configured name |
| `Receive.AfterInit` | service-bus.js:106-170 | a node is bound iff its guard holds; if not it shows "disconnected" with an empty log; if so its log is exactly client, receiver, subscribe, it is listening and shows "connected" |
| `Receive.AfterListen` | service-bus.js:155-170 | on a bound node: when not yet listening, one subscribe is appended and "connected" shown; when already listening nothing changes; the subscribe count grows by at most one |
| `Receive.AfterDelivery` | service-bus.js:126-143 | a listening node appends exactly one `node.send` of the decoded message with its kind's topic and shows green/dot/"receiving messages" |
| `Receive.AfterFailure` | service-bus.js:145-153 | a listening node appends exactly one `node.error(error)` and shows red/ring/"error, see debug or outputs"; it stays bound and listening |
| `Receive.AfterShutdown` | service-bus.js:118-124 | a bound node appends `receiver.close()`, `serviceBus.close()`, `done()` in that order; status and flags unchanged; an unbound node changes nothing |
| `Receive.ReplayListening` | service-bus.js:40-84 | over any event sequence a listening node stays bound and listening, its log grows by exactly the calls of each event in turn, and its status is that of the last delivery or failure |
| `Receive.UnconfiguredIsInert` | service-bus.js:20-27 | when the guard fails, after any events the status is "disconnected", the log is empty and nothing is bound |
| `Receive.ConfiguredBinding` | service-bus.js:29-30 | with a valid configuration the log starts with client, `createReceiver(args)`, subscribe; over any events exactly one receiver is created and exactly one subscribe made; the status is that of the last delivery or failure, "connected" before any |
| `Receive.ConfiguredTraffic` | receive-queue-message.js:35-62 | over any events the outputs are the decoded deliveries, one each, in delivery order; the `node.error` reports are the failures, one each, in order; close acknowledgements equal shutdowns |
| `Receive.StandaloneQueueDiffersOnlyInTopic` | receive-queue-message.js:37-46 | over any events the stand-alone queue receiver shows the same status as the one in service-bus.js, and its whole call log (binding, outputs, error reports, close calls) equals that node's entry by entry in the same order, except that every output's topic is `undefined` where the other has the queue name |
| `Receive.ReceiverNode.constructor` | receive-queue-message.js:6-81 | the new node's state is `AfterInit` of its kind and configuration |
| `Receive.ReceiverNode.Listen` | receive-queue-message.js:76-79 | callable only on a bound node, as the constructor does after the guard passes; changes the node exactly as `AfterListen` |
| `Receive.ReceiverNode.OnMessage` | receive-queue-message.js:35-52 | changes the node exactly as `AfterDelivery` |
| `Receive.ReceiverNode.OnError` | receive-queue-message.js:54-62 | changes the node exactly as `AfterFailure` |
| `Receive.ReceiverNode.Close` | receive-queue-message.js:27-33 | changes the node exactly as `AfterShutdown` |
| `Send.ConfigOk` | send-topic-message.js:16 | the guard holds iff the connection string and the endpoint names are truthy: the queue for both queue senders (service-bus.js:190, send-queue-message.js:15), the topic for the service-bus.js topic sender (service-bus.js:269), the topic and the subscription for send-topic-message.js |
| `Send.OutcomeStatus` | service-bus.js:226-241 | after a successful send the status is green/dot/"OK", after a failed one red/dot/"error, see debug or output" |
| `Send.SenderArgs` | send-topic-message.js:25-26 | `createSender` gets the queue, the topic (service-bus.js), or the topic and the subscription (send-topic-message.js), each non-empty |
| `Send.AfterInit` | service-bus.js:190-206 | a node is bound iff its guard holds; if not it shows "disconnected" with an empty log; if so its log is exactly client, sender, and it shows "connected" before any input |
| `Send.Completion` | service-bus.js:232-247 | after a success `done()` runs once if given, nothing otherwise; after a failure exactly one report runs, `done(error)` if `done` was given, `node.error(error, msg)` otherwise, never both |
| `Send.AfterInput` | service-bus.js:216-249 | a bound node appends one `sendMessages` with the encoded request followed by the completion, and shows green/dot/"OK" or red/dot/"error, see debug or output"; an unbound node changes nothing |
| `Send.AfterShutdown` | service-bus.js:287-293 | a bound node appends `sender.close()`, `serviceBus.close()`, `done()` in that order; an unbound node changes nothing |
| `Send.ReplayBound` | service-bus.js:295-329 | over any event sequence a bound node stays bound, its log grows by exactly the calls of each event in turn, and its status is that of the last input's outcome |
| `Send.EmittedRequests` | send-topic-message.js:45-50 | the requests sent are the encoded inputs, exactly one per input, in input order |
| `Send.EmittedFailureReports` | send-topic-message.js:62-74 | over any events, the reports of failures (`done(error)` or `node.error(error, msg)`) are exactly as many as the failed inputs |
| `Send.EmittedSuccessDones` | send-topic-message.js:51-60 | over any events, the `done()` calls of inputs are exactly as many as the successful inputs that came with `done` |
| `Send.UnconfiguredIsInert` | send-queue-message.js:15-22 | when the guard fails, after any inputs the status is "disconnected" and the log is empty |
| `Send.ConfiguredLifecycle` | service-bus.js:269-329 | with a valid configuration the log starts with client, `createSender(args)`; over any events exactly one sender, one request per input in order, one report per failure, one `done()` per acknowledged success, one close acknowledgement per shutdown; status that of the last outcome, "connected" before any |
| `Send.StandaloneQueueSameAsBundled` | send-queue-message.js:6-76 | the stand-alone queue sender behaves identically to the one in service-bus.js on every configuration and event sequence |
| `Send.StandaloneTopicAgainstBundled` | send-topic-message.js:15-32 | the stand-alone topic sender's guard implies the service-bus.js one; without a subscription it stays "disconnected" with an empty log while the other binds; with one, the two differ only in the `createSender` arguments |
| `Send.SenderNode.constructor` | send-topic-message.js:15-32 | the new node's state is `AfterInit` of its kind and configuration |
| `Send.SenderNode.Input` | send-queue-message.js:41-75 | changes the node exactly as `AfterInput` |
| `Send.SenderNode.Close` | send-topic-message.js:34-40 | changes the node exactly as `AfterShutdown` |

## Left out

- The Service Bus client library: what `new ServiceBusClient`, `createReceiver`, `createSender`, `subscribe`, `sendMessages` and `close` do is not modelled; each call is an entry of the call log, and how an awaited `sendMessages` ends is a parameter (`Send.Outcome`).
- A client constructor or `createReceiver`/`createSender` that throws: the node code does not catch it, so the node's own construction would fail; the model does not represent a throwing constructor.
- Node-RED plumbing: `RED.nodes.createNode`, `registerType` and the registration of `input` and `close` listeners. Handlers are direct method calls; an event for which the node registered no handler (any event on a node whose guard failed, a delivery before subscribing) leaves the node unchanged.
- Asynchrony: the `await` on `sendMessages`, the unawaited close promises, and inputs or deliveries arriving concurrently. Every handler runs to completion before the next event.
- The order of `node.status(...)` calls among the logged calls: the model keeps only the last status in the `status` field, so that each status is set after `node.send` (service-bus.js:128-142) and before `done()` (service-bus.js:226-234) is not recorded.
- `node.log` messages and the `JSON.stringify` of bodies and errors, which are only observational.
- The contents of payloads, property bags, message ids and error objects: they are opaque values that are only copied.
- The `name` configuration field, which only labels the node in the editor.
- Non-string values for `contentType` (a number, an object): the model takes it as an optional string, so the `||` in the encoder is modelled on strings only. A `msg.message` that is not an object is modelled as an absent `message`.
- Retries, reconnection, absorbing a second close and idle timeouts: the code has none of them. A second close repeats the three close calls.
