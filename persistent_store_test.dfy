/** The persistent store's behaviour on the concrete scenarios of its unit
    tests: each method builds a fresh open store, runs the scenario, closes
    the store and states what the test asserts. */
module MapDBPersistentStoreTest {
  import opened MqttTypes
  import opened Persistence

  /** The condition that keeps topics under the `sensors/` tree. */
  function SensorsOnly(): string -> bool
  {
    topic => "sensors/" <= topic
  }

  /** A search result that lists, each once, the retained messages whose
      topic passes `condition` holds just the message of `topic` when that
      is the only such topic. */
  lemma SingleMatch(matches: seq<StoredMessage>, retained: map<string, StoredMessage>,
                    condition: string -> bool, topic: string)
    requires forall m :: m in matches <==>
      m.topic in retained && condition(m.topic) && retained[m.topic] == m
    requires forall i, j :: 0 <= i < j < |matches| ==> matches[i].topic != matches[j].topic
    requires topic in retained && retained[topic].topic == topic && condition(topic)
    requires forall t :: t in retained && condition(t) ==> t == topic
    ensures matches == [retained[topic]]
  {
    assert retained[topic] in matches;
    forall i | 0 <= i < |matches|
      ensures matches[i] == retained[topic]
    {
      assert matches[i] in matches;
    }
    assert |matches| >= 2 ==> matches[0].topic != matches[1].topic;
  }

  /** A fresh store, opened. */
  method OpenStore() returns (store: MapDBPersistentStore)
    ensures fresh(store)
    ensures store.Valid() && store.state == Open
    ensures store.retained == map[] && store.qos2Messages == map[] && store.sessionMessages == map[]
    ensures store.packetIds == map[] && store.subscriptions == []
  {
    store := new MapDBPersistentStore();
    store.InitStore();
  }

  /** Only the retained message under `sensors/` is found, with its topic,
      quality of service and payload. */
  method RetainedMessagesAreSearchable() returns (matches: seq<StoredMessage>)
    ensures |matches| == 1
    ensures matches[0].topic == "sensors/kitchen/temp"
    ensures matches[0].qos == MostOne
    ensures matches[0].payload == AsciiBytes("21C")
  {
    var store := OpenStore();
    store.StoreRetained("sensors/kitchen/temp", AsciiBytes("21C"), MostOne);
    store.StoreRetained("alerts/fire", AsciiBytes("warn"), LeastOne);
    var kitchen := StoredMessage(AsciiBytes("21C"), MostOne, "sensors/kitchen/temp");
    assert "alerts/fire"[0] != "sensors/"[0];
    matches := store.SearchMatching(SensorsOnly());
    SingleMatch(matches, store.retained, SensorsOnly(), "sensors/kitchen/temp");
    store.Close();
  }

  /** The QoS-2 publish persisted under `client-1:7` comes back whole. */
  method Qos2MessagesRoundTrip() returns (restored: Option<PublishEvent>)
    ensures restored.Some?
    ensures restored.value.topic == "alerts/fire"
    ensures restored.value.qos == ExactlyOnce
    ensures restored.value.message == AsciiBytes("boom")
    ensures restored.value.retain
    ensures restored.value.clientId == "client-1"
    ensures restored.value.messageId == 7
  {
    var store := OpenStore();
    var event := PublishEvent("alerts/fire", ExactlyOnce, AsciiBytes("boom"), true, "client-1", 7);
    store.PersistQoS2Message("client-1:7", event);
    restored := store.RetrieveQoS2Message("client-1:7");
    store.Close();
  }

  /** The publish queued for `client-9` is its one pending message. */
  method SessionMessagesArePersisted() returns (pending: seq<PublishEvent>)
    ensures |pending| == 1
    ensures pending[0].topic == "sensors/garage/temp"
    ensures pending[0].message == AsciiBytes("18C")
  {
    var store := OpenStore();
    var event := PublishEvent("sensors/garage/temp", LeastOne, AsciiBytes("18C"), false, "client-9", 3);
    store.StorePublishForFuture(event);
    pending := store.ListMessagesInSession("client-9");
    store.Close();
  }

  /** Packet IDs count from 1, separately for each client. */
  method NextPacketIdIsPerClient() returns (firstOfA: nat, secondOfA: nat, firstOfB: nat)
    ensures firstOfA == 1 && secondOfA == 2 && firstOfB == 1
  {
    var store := OpenStore();
    firstOfA := store.NextPacketID("client-a");
    secondOfA := store.NextPacketID("client-a");
    firstOfB := store.NextPacketID("client-b");
    store.Close();
  }

  /** Both added subscriptions are listed, and nothing else. */
  method SubscriptionsAreTracked() returns (first: Subscription, second: Subscription, all: seq<Subscription>)
    ensures first == Subscription("client-a", "alerts/#", MostOne, true)
    ensures second == Subscription("client-b", "sensors/+/temp", LeastOne, false)
    ensures |all| == 2
    ensures first in all && second in all
  {
    var store := OpenStore();
    first := Subscription("client-a", "alerts/#", MostOne, true);
    second := Subscription("client-b", "sensors/+/temp", LeastOne, false);
    store.AddNewSubscription(first, "client-a");
    store.AddNewSubscription(second, "client-b");
    all := store.ListAllSubscriptions();
    store.Close();
  }
}
