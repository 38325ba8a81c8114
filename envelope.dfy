/** The message envelope codec: how a message delivered by the Service Bus
    receiver becomes a Node-RED message (decode), and how a Node-RED message
    arriving at a sender becomes the request handed to `sendMessages`
    (encode). */
module Envelope {
  import opened Js

  /** The fields of a received Service Bus message that the receive nodes read. */
  datatype ReceivedMessage = ReceivedMessage(
    body: Value,
    contentType: Option<string>,
    messageId: Value,
    subject: Option<string>,
    applicationProperties: Value)

  /** The `message` object of a Node-RED message: what a receiver fills in and
      what a sender reads (`contentType` and `properties`). */
  datatype MessageInfo = MessageInfo(
    contentType: Option<string>,
    id: Value,
    subject: Option<string>,
    properties: Value)

  /** A Node-RED message, as far as these nodes write or read it. */
  datatype Msg = Msg(payload: Value, topic: Option<string>, message: Option<MessageInfo>)

  /** The request a sender passes to `sendMessages`. */
  datatype SendRequest = SendRequest(contentType: string, body: Value, applicationProperties: Value)

  const DefaultContentType: string := "application/json"

  /** Decode: the Node-RED message a receiver emits for one delivered message,
      with `topic` set to whatever the emitting node supplies. Every field is
      copied unchanged. */
  function Decode(m: ReceivedMessage, topic: Option<string>): (r: Msg)
    ensures r.payload == m.body && r.topic == topic
    ensures r.message.Some?
    ensures r.message.value.contentType == m.contentType
    ensures r.message.value.id == m.messageId
    ensures r.message.value.subject == m.subject
    ensures r.message.value.properties == m.applicationProperties
  {
    Msg(m.body, topic, Some(MessageInfo(m.contentType, m.messageId, m.subject, m.applicationProperties)))
  }

  /** `msg.message?.contentType` */
  function ContentTypeOf(msg: Msg): (ct: Option<string>)
    ensures msg.message.None? ==> ct == None
    ensures msg.message.Some? ==> ct == msg.message.value.contentType
  {
    if msg.message.Some? then msg.message.value.contentType else None
  }

  /** `msg.message?.properties` */
  function PropertiesOf(msg: Msg): (p: Value)
    ensures msg.message.None? ==> p == Undefined
    ensures msg.message.Some? ==> p == msg.message.value.properties
  {
    if msg.message.Some? then msg.message.value.properties else Undefined
  }

  /** Encode: the request for one input message. The content type is the
      message's own when truthy and `application/json` otherwise (a missing
      `message`, a missing field and the empty string alike); the body and
      the application properties are passed through unchanged, `undefined`
      included. */
  function Encode(msg: Msg): (r: SendRequest)
    ensures Truthy(ContentTypeOf(msg)) ==> r.contentType == ContentTypeOf(msg).value
    ensures !Truthy(ContentTypeOf(msg)) ==> r.contentType == DefaultContentType
    ensures r.contentType != ""
    ensures r.body == msg.payload
    ensures r.applicationProperties == PropertiesOf(msg)
  {
    SendRequest(Or(ContentTypeOf(msg), DefaultContentType), msg.payload, PropertiesOf(msg))
  }

  /** Decoding loses nothing: two different deliveries never decode to the
      same Node-RED message. */
  lemma DecodeInjective(a: ReceivedMessage, b: ReceivedMessage, topic: Option<string>)
    requires Decode(a, topic) == Decode(b, topic)
    ensures a == b
  {
  }

  /** Round trip: feeding a receiver's output to a sender sends the delivered
      body and application properties unchanged, and the delivered content
      type whenever it is truthy. */
  lemma RoundTrip(m: ReceivedMessage, topic: Option<string>)
    ensures Encode(Decode(m, topic)).body == m.body
    ensures Encode(Decode(m, topic)).applicationProperties == m.applicationProperties
    ensures Truthy(m.contentType) ==> Encode(Decode(m, topic)).contentType == m.contentType.value
    ensures !Truthy(m.contentType) ==> Encode(Decode(m, topic)).contentType == DefaultContentType
  {
  }

  /** Encoding a message that already carries the encoded content type
      yields the same request again: the default is applied once. */
  lemma EncodeStable(msg: Msg)
    ensures var r := Encode(msg);
            Encode(Msg(msg.payload, msg.topic, Some(MessageInfo(Some(r.contentType), Undefined, None, PropertiesOf(msg))))) == r
  {
  }
}
