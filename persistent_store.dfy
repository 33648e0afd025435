/** The broker's persistent store, kept in memory: five independent
    sub-stores (retained messages, QoS-2 exchanges, pending session messages,
    packet-ID counters and subscriptions) behind an open/close lifecycle. */
module Persistence {
  import opened MqttTypes

  /** The store is created, then opened by `InitStore`, then closed. */
  datatype Lifecycle = Created | Open | Closed

  class MapDBPersistentStore {
    var state: Lifecycle
    /** Retained messages by the exact topic they were published on. */
    var retained: map<string, StoredMessage>
    /** In-flight QoS-2 publishes by their exchange key. */
    var qos2Messages: map<string, PublishEvent>
    /** Publishes waiting for each client, in arrival order. */
    var sessionMessages: map<string, seq<PublishEvent>>
    /** The last packet ID handed out to each client. */
    var packetIds: map<string, nat>
    /** The persisted subscriptions. */
    var subscriptions: seq<Subscription>

    /** The consistency of the sub-stores. */
    ghost predicate Valid()
      reads this
    {
      && (forall topic :: topic in retained ==> retained[topic].topic == topic)
      && (forall client, i :: client in sessionMessages && 0 <= i < |sessionMessages[client]| ==>
            sessionMessages[client][i].clientId == client)
      && (forall client :: client in packetIds ==> packetIds[client] >= 1)
      && Distinct(subscriptions)
    }

    /** The publishes waiting for `clientId`; none for a client never seen. */
    function Pending(clientId: string): seq<PublishEvent>
      reads this
    {
      if clientId in sessionMessages then sessionMessages[clientId] else []
    }

    constructor ()
      ensures Valid() && state == Created
      ensures retained == map[] && qos2Messages == map[] && sessionMessages == map[]
      ensures packetIds == map[] && subscriptions == []
    {
      state := Created;
      retained, qos2Messages, sessionMessages := map[], map[], map[];
      packetIds, subscriptions := map[], [];
    }

    /** Opens the store for use; what it holds is kept. */
    method InitStore()
      requires Valid()
      modifies this
      ensures Valid() && state == Open
      ensures retained == old(retained) && qos2Messages == old(qos2Messages)
      ensures sessionMessages == old(sessionMessages) && packetIds == old(packetIds)
      ensures subscriptions == old(subscriptions)
    {
      state := Open;
    }

    /** Closes the store; what it holds is kept for a later `InitStore`. */
    method Close()
      requires Valid()
      modifies this
      ensures Valid() && state == Closed
      ensures retained == old(retained) && qos2Messages == old(qos2Messages)
      ensures sessionMessages == old(sessionMessages) && packetIds == old(packetIds)
      ensures subscriptions == old(subscriptions)
    {
      state := Closed;
    }

    // -------------------------------------------------------------------
    // Retained messages

    /** Stores `payload` as the retained message of `topic`, replacing any
        earlier one for the same topic. */
    method StoreRetained(topic: string, payload: seq<byte>, qos: QosType)
      requires Valid() && state == Open
      modifies this
      ensures Valid() && state == Open
      ensures retained == old(retained)[topic := StoredMessage(payload, qos, topic)]
      ensures qos2Messages == old(qos2Messages) && sessionMessages == old(sessionMessages)
      ensures packetIds == old(packetIds) && subscriptions == old(subscriptions)
    {
      retained := retained[topic := StoredMessage(payload, qos, topic)];
    }

    /** The retained messages whose topic satisfies `condition`, each once. */
    method SearchMatching(condition: string -> bool) returns (matches: seq<StoredMessage>)
      requires Valid() && state == Open
      ensures forall m :: m in matches <==>
        m.topic in retained && condition(m.topic) && retained[m.topic] == m
      ensures forall i, j :: 0 <= i < j < |matches| ==> matches[i].topic != matches[j].topic
    {
      matches := [];
      var pending := retained.Keys;
      while pending != {}
        invariant pending <= retained.Keys
        invariant forall m :: m in matches <==>
          m.topic in retained && m.topic !in pending && condition(m.topic) && retained[m.topic] == m
        invariant forall i, j :: 0 <= i < j < |matches| ==> matches[i].topic != matches[j].topic
        decreases pending
      {
        var topic :| topic in pending;
        if condition(topic) {
          matches := matches + [retained[topic]];
        }
        pending := pending - {topic};
      }
    }

    // -------------------------------------------------------------------
    // QoS-2 exchanges

    /** Keeps `evt` under `publishKey` until the exchange completes. */
    method PersistQoS2Message(publishKey: string, evt: PublishEvent)
      requires Valid() && state == Open
      modifies this
      ensures Valid() && state == Open
      ensures qos2Messages == old(qos2Messages)[publishKey := evt]
      ensures retained == old(retained) && sessionMessages == old(sessionMessages)
      ensures packetIds == old(packetIds) && subscriptions == old(subscriptions)
    {
      qos2Messages := qos2Messages[publishKey := evt];
    }

    /** The publish kept under `publishKey`, or `None` when there is none. */
    method RetrieveQoS2Message(publishKey: string) returns (evt: Option<PublishEvent>)
      requires Valid() && state == Open
      ensures evt.Some? <==> publishKey in qos2Messages
      ensures evt.Some? ==> evt.value == qos2Messages[publishKey]
    {
      if publishKey in qos2Messages {
        evt := Some(qos2Messages[publishKey]);
      } else {
        evt := None;
      }
    }

    // -------------------------------------------------------------------
    // Pending session messages

    /** Queues `evt` for its client, behind the publishes already waiting. */
    method StorePublishForFuture(evt: PublishEvent)
      requires Valid() && state == Open
      modifies this
      ensures Valid() && state == Open
      ensures Pending(evt.clientId) == old(Pending(evt.clientId)) + [evt]
      ensures sessionMessages == old(sessionMessages)[evt.clientId := Pending(evt.clientId)]
      ensures retained == old(retained) && qos2Messages == old(qos2Messages)
      ensures packetIds == old(packetIds) && subscriptions == old(subscriptions)
    {
      var queued := Pending(evt.clientId) + [evt];
      sessionMessages := sessionMessages[evt.clientId := queued];
    }

    /** The publishes waiting for `clientId`, in the order they were queued. */
    method ListMessagesInSession(clientId: string) returns (events: seq<PublishEvent>)
      requires Valid() && state == Open
      ensures events == Pending(clientId)
      ensures forall i :: 0 <= i < |events| ==> events[i].clientId == clientId
      ensures clientId !in sessionMessages ==> events == []
    {
      if clientId in sessionMessages {
        events := sessionMessages[clientId];
      } else {
        events := [];
      }
    }

    // -------------------------------------------------------------------
    // Packet identifiers

    /** The next packet ID of `clientId`: 1 for a client never seen, else one
        more than the last one handed out to it. */
    method NextPacketID(clientId: string) returns (id: nat)
      requires Valid() && state == Open
      modifies this
      ensures Valid() && state == Open
      ensures id == if clientId in old(packetIds) then old(packetIds)[clientId] + 1 else 1
      ensures packetIds == old(packetIds)[clientId := id]
      ensures retained == old(retained) && qos2Messages == old(qos2Messages)
      ensures sessionMessages == old(sessionMessages) && subscriptions == old(subscriptions)
    {
      if clientId in packetIds {
        id := packetIds[clientId] + 1;
      } else {
        id := 1;
      }
      packetIds := packetIds[clientId := id];
    }

    // -------------------------------------------------------------------
    // Subscriptions

    /** Records `newSubscription` unless an equal one is already recorded. */
    method AddNewSubscription(newSubscription: Subscription, clientId: string)
      requires Valid() && state == Open
      modifies this
      ensures Valid() && state == Open
      ensures subscriptions ==
        if newSubscription in old(subscriptions) then old(subscriptions)
        else old(subscriptions) + [newSubscription]
      ensures retained == old(retained) && qos2Messages == old(qos2Messages)
      ensures sessionMessages == old(sessionMessages) && packetIds == old(packetIds)
    {
      if newSubscription !in subscriptions {
        subscriptions := subscriptions + [newSubscription];
      }
    }

    /** Every recorded subscription, each once. */
    method ListAllSubscriptions() returns (all: seq<Subscription>)
      requires Valid() && state == Open
      ensures all == subscriptions
      ensures Distinct(all)
    {
      all := subscriptions;
    }
  }
}
