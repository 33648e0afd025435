/** Value types shared by the topic matcher, the subscription registry and the
    persistent store of the broker. */
module MqttTypes {

  /** A payload byte. */
  newtype byte = b: int | 0 <= b < 256

  /** The quality-of-service levels a publish or a subscription can ask for. */
  datatype QosType = MostOne | LeastOne | ExactlyOnce

  datatype Option<T> = None | Some(value: T)

  /** A client's subscription to a topic filter; two subscriptions are equal
      when all four fields are. */
  datatype Subscription = Subscription(
    clientId: string,
    topicFilter: string,
    requestedQos: QosType,
    cleanSession: bool)

  /** A publish as the broker keeps it for QoS-2 exchanges and offline sessions. */
  datatype PublishEvent = PublishEvent(
    topic: string,
    qos: QosType,
    message: seq<byte>,
    retain: bool,
    clientId: string,
    messageId: int)

  /** A retained message: payload, QoS and the exact topic it was published on. */
  datatype StoredMessage = StoredMessage(payload: seq<byte>, qos: QosType, topic: string)

  /** No value occurs twice in `s`. */
  predicate Distinct<T(==)>(s: seq<T>)
  {
    forall i, j :: 0 <= i < j < |s| ==> s[i] != s[j]
  }

  /** The bytes of an ASCII string, which every character set encodes alike. */
  function AsciiBytes(s: string): (bytes: seq<byte>)
    requires forall i :: 0 <= i < |s| ==> s[i] as int < 128
    ensures |bytes| == |s|
    ensures forall i :: 0 <= i < |s| ==> bytes[i] as int == s[i] as int
  {
    if s == [] then [] else [s[0] as int as byte] + AsciiBytes(s[1..])
  }
}
