# Moquette subscription matching and message persistence

A Dafny model of the part of the Moquette MQTT broker that decides which
subscriptions receive a publish, and of the store that keeps the broker's
messages, packet identifiers and subscriptions. Its three parts:

- **Topic matcher** (`TopicMatcher`, topic_matcher.dfy). This decides whether a topic name matches a topic filter, by the wildcard rules of section 4.7.1 of the OASIS MQTT Version 3.1.1 standard:
  - topics and filters are split on `/` into levels;
  - `+` matches exactly one level;
  - `#` matches all remaining levels, including none, so `sport/#` matches `sport`;
  - any other level must equal the topic level.

  `MatchLevels` is a recursive predicate over level sequences. `Split` and `Join` convert between a string and its levels.
- **Subscription registry** (`Subscriptions`, subscriptions_store.dfy). The class `SubscriptionsStore` holds the subscriptions loaded by `Init` from the sessions store's list. `Matches` filters them against a topic in a loop. The loop is proved equal to the reference function `MatchingSubscriptions`, which is proved to keep exactly the subscriptions whose filter matches.
- **Persistent store** (`Persistence`, persistent_store.dfy). The class `MapDBPersistentStore` is an in-memory model of the MapDB-backed store. It holds five independent sub-stores:
  - retained messages by topic;
  - in-flight QoS-2 publishes by key;
  - pending publishes per client;
  - the last packet ID per client;
  - the subscription list.

  It also has a Created/Open/Closed lifecycle. Every data operation requires the store to be open (`InitStore` opens it). Each operation states its whole new state, and the invariant `Valid` ties two sub-stores to their keys: a retained message carries the topic it is stored under, and a pending publish carries the client ID it is queued for. `Valid` also keeps packet IDs at 1 or more and the subscription list free of duplicates.

The modules `TopicMatcherCases`, `SubscriptionsStoreTest` and `MapDBPersistentStoreTest` state the unit tests' scenarios with their concrete values, as lemmas or as methods that build a fresh store. Shared types (`QosType`, `Subscription`, `PublishEvent`, `StoredMessage`, bytes) are in `MqttTypes` (mqtt_types.dfy).

The implementation classes are not part of this model. The model follows the behaviour that the unit tests of `SubscriptionsStore` and `MapDBPersistentStore` assert, and the MQTT standard where a test leaves the behaviour open. Such choices are listed under "Left out".

## Model

| member | source | states |
|---|---|---|
| TopicMatcher.MatchLevelsWithoutMultiLevel | mqtt/src/test/java/org/eclipse/moquette/spi/impl/subscriptions/SubscriptionsStoreTest.java:50-55 | a filter without `#` matches exactly when it has as many levels as the topic and every level is `+` or equal to the topic level (both directions) |
| TopicMatcher.MatchLevelsMultiLevel | mqtt/src/test/java/org/eclipse/moquette/spi/impl/subscriptions/SubscriptionsStoreTest.java:50-53 | a filter `p/#` (no `#` in `p`) matches exactly the topics with at least `|p|` levels whose first `|p|` levels match `p`, the parent itself included |
| TopicMatcher.MultiLevelMatchesPrefix | mqtt/src/test/java/org/eclipse/moquette/spi/impl/subscriptions/SubscriptionsStoreTest.java:50-53 | a trailing `#` matches any continuation of its prefix, including the empty one |
| TopicMatcher.SingleLevelMatchesAnyLevel | mqtt/src/test/java/org/eclipse/moquette/spi/impl/subscriptions/SubscriptionsStoreTest.java:51-52 | `+` at any position matches any single level when the other levels are equal |
| TopicMatcher.MatchLevelsReflexive | mqtt/src/test/java/org/eclipse/moquette/spi/impl/subscriptions/SubscriptionsStoreTest.java:50-55 | every level sequence matches itself as a filter |
| TopicMatcher.NoWildcardMatchesOnlyItself | mqtt/src/test/java/org/eclipse/moquette/spi/impl/subscriptions/SubscriptionsStoreTest.java:55 | a filter with neither wildcard matches a topic exactly when the two strings are equal |
| TopicMatcher.DepthMustAgreeWithoutMultiLevel | mqtt/src/test/java/org/eclipse/moquette/spi/impl/subscriptions/SubscriptionsStoreTest.java:55 | without `#`, a filter never matches a topic with a different number of levels |
| TopicMatcher.MultiLevelMatchesParentAndDescendants | mqtt/src/test/java/org/eclipse/moquette/spi/impl/subscriptions/SubscriptionsStoreTest.java:50-53 | `prefix/#` matches `prefix` and every `prefix/suffix` |
| TopicMatcher.SingleLevelMatchesMiddleLevel | mqtt/src/test/java/org/eclipse/moquette/spi/impl/subscriptions/SubscriptionsStoreTest.java:51 | `prefix/+/suffix` matches `prefix/level/suffix` for every level without `/` |
| TopicMatcher.SingleLevelMatchesLastLevel | mqtt/src/test/java/org/eclipse/moquette/spi/impl/subscriptions/SubscriptionsStoreTest.java:52 | `prefix/+` matches `prefix/level` for every level without `/` |
| TopicMatcher.Split | mqtt/src/test/java/org/eclipse/moquette/spi/impl/subscriptions/SubscriptionsStoreTest.java:50-55 | splitting on `/` always yields at least one level |
| TopicMatcher.SplitHasNoSeparator | mqtt/src/test/java/org/eclipse/moquette/spi/impl/subscriptions/SubscriptionsStoreTest.java:50-55 | no level produced by splitting contains `/` |
| TopicMatcher.JoinSplit | mqtt/src/test/java/org/eclipse/moquette/spi/impl/subscriptions/SubscriptionsStoreTest.java:50-55 | joining the levels of a string with `/` gives the string back |
| TopicMatcher.SplitJoin | mqtt/src/test/java/org/eclipse/moquette/spi/impl/subscriptions/SubscriptionsStoreTest.java:50-55 | splitting the join of levels without `/` gives the levels back |
| TopicMatcher.SplitConcat | mqtt/src/test/java/org/eclipse/moquette/spi/impl/subscriptions/SubscriptionsStoreTest.java:50-55 | splitting `a/b` gives the levels of `a` followed by those of `b` |
| TopicMatcher.SplitWithoutSeparator | mqtt/src/test/java/org/eclipse/moquette/spi/impl/subscriptions/SubscriptionsStoreTest.java:53 | a string without `/` is a single level |
| TopicMatcher.SplitInjective | mqtt/src/test/java/org/eclipse/moquette/spi/impl/subscriptions/SubscriptionsStoreTest.java:50-55 | two strings have the same levels exactly when they are equal |
| TopicMatcher.SplitTwoLevels | mqtt/src/test/java/org/eclipse/moquette/spi/impl/subscriptions/SubscriptionsStoreTest.java:52-55 | `a/b` with `a`, `b` free of `/` has exactly the levels `a`, `b` |
| TopicMatcher.SplitThreeLevels | mqtt/src/test/java/org/eclipse/moquette/spi/impl/subscriptions/SubscriptionsStoreTest.java:50-54 | `a/b/c` with no `/` in the parts has exactly the levels `a`, `b`, `c` |
| TopicMatcherCases.TrailingMultiLevelMatchesDeeperTopic | mqtt/src/test/java/org/eclipse/moquette/spi/impl/subscriptions/SubscriptionsStoreTest.java:50 | `sport/tennis/player1` matches `sport/tennis/#` |
| TopicMatcherCases.MiddleSingleLevelMatchesAnyLevel | mqtt/src/test/java/org/eclipse/moquette/spi/impl/subscriptions/SubscriptionsStoreTest.java:51 | `sport/tennis/player1` matches `sport/+/player1` |
| TopicMatcherCases.LastSingleLevelMatchesOneLevel | mqtt/src/test/java/org/eclipse/moquette/spi/impl/subscriptions/SubscriptionsStoreTest.java:52 | `sport/tennis` matches `sport/+` |
| TopicMatcherCases.MultiLevelMatchesParentTopic | mqtt/src/test/java/org/eclipse/moquette/spi/impl/subscriptions/SubscriptionsStoreTest.java:53 | `sport` matches `sport/#` |
| TopicMatcherCases.LiteralAfterSingleLevelMustAgree | mqtt/src/test/java/org/eclipse/moquette/spi/impl/subscriptions/SubscriptionsStoreTest.java:54 | `sport/tennis/player1` does not match `sport/+/player2` |
| TopicMatcherCases.ShallowerFilterDoesNotMatch | mqtt/src/test/java/org/eclipse/moquette/spi/impl/subscriptions/SubscriptionsStoreTest.java:55 | `sport/tennis/player1` does not match `sport/tennis` |
| TopicMatcherCases.SensorsKitchenTempFilters | mqtt/src/test/java/org/eclipse/moquette/spi/impl/subscriptions/SubscriptionsStoreTest.java:61-71 | `sensors/kitchen/temp` matches the filters `sensors/kitchen/temp` and `sensors/+/temp` but not `alerts/#` |
| Subscriptions.MatchingSubscriptionsExactly | mqtt/src/test/java/org/eclipse/moquette/spi/impl/subscriptions/SubscriptionsStoreTest.java:71-74 | the reference filter keeps a subscription exactly when it is in the list and its filter matches the topic |
| Subscriptions.MatchingSubscriptionsDistinct | mqtt/src/test/java/org/eclipse/moquette/spi/impl/subscriptions/SubscriptionsStoreTest.java:72 | filtering a list without duplicates yields a list without duplicates |
| Subscriptions.SubscriptionsStore.constructor | mqtt/src/test/java/org/eclipse/moquette/spi/impl/subscriptions/SubscriptionsStoreTest.java:68 | a new registry holds no subscriptions |
| Subscriptions.SubscriptionsStore.Init | mqtt/src/test/java/org/eclipse/moquette/spi/impl/subscriptions/SubscriptionsStoreTest.java:69 | after `init` the registry holds exactly the list returned by the sessions store |
| Subscriptions.SubscriptionsStore.Matches | mqtt/src/test/java/org/eclipse/moquette/spi/impl/subscriptions/SubscriptionsStoreTest.java:71-74 | the result is the registry's subscriptions whose filter matches the topic, in registry order, each an element of the registry, without duplicates when the registry has none |
| SubscriptionsStoreTest.MatchingFirstTwoOfThree | mqtt/src/test/java/org/eclipse/moquette/spi/impl/subscriptions/SubscriptionsStoreTest.java:64-72 | of three subscriptions where only the first two match, filtering keeps exactly the first two |
| SubscriptionsStoreTest.MatchesReturnsAllMatchingSubscriptions | mqtt/src/test/java/org/eclipse/moquette/spi/impl/subscriptions/SubscriptionsStoreTest.java:59-75 | for `sensors/kitchen/temp` the registry returns two subscriptions, the exact and the `+` one, and not `alerts/#` |
| MqttTypes.AsciiBytes | mqtt/src/test/java/org/eclipse/moquette/spi/persistence/MapDBPersistentStoreTest.java:33 | the bytes of an ASCII string are its character codes, one per character |
| Persistence.MapDBPersistentStore.constructor | mqtt/src/test/java/org/eclipse/moquette/spi/persistence/MapDBPersistentStoreTest.java:22 | a new store is created, not yet open, and empty |
| Persistence.MapDBPersistentStore.InitStore | mqtt/src/test/java/org/eclipse/moquette/spi/persistence/MapDBPersistentStoreTest.java:23 | the store becomes open and keeps what it holds |
| Persistence.MapDBPersistentStore.Close | mqtt/src/test/java/org/eclipse/moquette/spi/persistence/MapDBPersistentStoreTest.java:28 | the store becomes closed and keeps what it holds |
| Persistence.MapDBPersistentStore.StoreRetained | mqtt/src/test/java/org/eclipse/moquette/spi/persistence/MapDBPersistentStoreTest.java:33-34 | the topic's retained message becomes the given payload and QoS, tagged with the topic; no other topic or sub-store changes |
| Persistence.MapDBPersistentStore.SearchMatching | mqtt/src/test/java/org/eclipse/moquette/spi/persistence/MapDBPersistentStoreTest.java:36-48 | the result holds exactly the retained messages whose topic satisfies the condition, each with its stored topic, QoS and payload, and no topic twice |
| Persistence.MapDBPersistentStore.PersistQoS2Message | mqtt/src/test/java/org/eclipse/moquette/spi/persistence/MapDBPersistentStoreTest.java:54 | the event is kept under its key; nothing else changes |
| Persistence.MapDBPersistentStore.RetrieveQoS2Message | mqtt/src/test/java/org/eclipse/moquette/spi/persistence/MapDBPersistentStoreTest.java:56-62 | returns the event kept under the key, whole, and `None` exactly when there is none |
| Persistence.MapDBPersistentStore.StorePublishForFuture | mqtt/src/test/java/org/eclipse/moquette/spi/persistence/MapDBPersistentStoreTest.java:68 | the event is queued behind the client's pending events; no other client or sub-store changes |
| Persistence.MapDBPersistentStore.ListMessagesInSession | mqtt/src/test/java/org/eclipse/moquette/spi/persistence/MapDBPersistentStoreTest.java:70-73 | returns the client's pending events, all for that client, and none for a client never seen |
| Persistence.MapDBPersistentStore.NextPacketID | mqtt/src/test/java/org/eclipse/moquette/spi/persistence/MapDBPersistentStoreTest.java:78-80 | returns 1 for a client never seen, otherwise one more than the client's last ID, and records the result for that client only |
| Persistence.MapDBPersistentStore.AddNewSubscription | mqtt/src/test/java/org/eclipse/moquette/spi/persistence/MapDBPersistentStoreTest.java:87-88 | the subscription is added at the end unless an equal one is already recorded; nothing else changes |
| Persistence.MapDBPersistentStore.ListAllSubscriptions | mqtt/src/test/java/org/eclipse/moquette/spi/persistence/MapDBPersistentStoreTest.java:90-93 | returns the recorded subscriptions, with no duplicates |
| MapDBPersistentStoreTest.SingleMatch | mqtt/src/test/java/org/eclipse/moquette/spi/persistence/MapDBPersistentStoreTest.java:43-44 | a search result without repeated topics, when only one retained topic passes the condition, is exactly that topic's message |
| MapDBPersistentStoreTest.OpenStore | mqtt/src/test/java/org/eclipse/moquette/spi/persistence/MapDBPersistentStoreTest.java:20-24 | the fixture yields a fresh open empty store |
| MapDBPersistentStoreTest.RetainedMessagesAreSearchable | mqtt/src/test/java/org/eclipse/moquette/spi/persistence/MapDBPersistentStoreTest.java:32-49 | of `sensors/kitchen/temp` and `alerts/fire`, a `sensors/` prefix search returns one message, with topic `sensors/kitchen/temp`, QoS at most once and payload `21C` |
| MapDBPersistentStoreTest.Qos2MessagesRoundTrip | mqtt/src/test/java/org/eclipse/moquette/spi/persistence/MapDBPersistentStoreTest.java:51-63 | the event persisted under `client-1:7` comes back with its topic, QoS, payload, retain flag, client ID and message ID |
| MapDBPersistentStoreTest.SessionMessagesArePersisted | mqtt/src/test/java/org/eclipse/moquette/spi/persistence/MapDBPersistentStoreTest.java:65-74 | after one queued publish, `client-9` has one pending event, with topic `sensors/garage/temp` and payload `18C` |
| MapDBPersistentStoreTest.NextPacketIdIsPerClient | mqtt/src/test/java/org/eclipse/moquette/spi/persistence/MapDBPersistentStoreTest.java:76-81 | `client-a` gets 1 then 2, and `client-b` then gets 1 |
| MapDBPersistentStoreTest.SubscriptionsAreTracked | mqtt/src/test/java/org/eclipse/moquette/spi/persistence/MapDBPersistentStoreTest.java:83-94 | after adding two different subscriptions, the store lists two subscriptions, both of them |

## Left out

- The implementation classes `SubscriptionsStore` and `MapDBPersistentStore` are not part of this model. Their behaviour is modelled from the unit tests and from section 4.7 of MQTT 3.1.1.
- TopicMatcher.Split keeps every empty level, as section 4.7.1 of MQTT 3.1.1 requires, so `a//b` has three levels and `a/` has two. Java's `String.split` would drop trailing empty levels; whether the implementation does is not visible.
- TopicMatcher.MatchLevels accepts malformed filters, such as `#` not in last position or a wildcard inside a level, and matches them by the same rules (a `#` anywhere matches whatever remains). The standard rejects such filters, and the tests never use one.
- Topic names that start with `$` are not treated specially: no test uses one.
- Subscriptions.SubscriptionsStore: adding, removing and the tree-shaped index of the broker are left out. Only `init` and `matches` are exercised, and `Matches` filters the loaded list in order.
- The throwing `FixedSessionsStore` methods (`addNewSubscription`, `wipeSubscriptions`, `updateSubscriptions`) and its `contains`, which answers `false`, are left out. They are test scaffolding, and `Init` takes the list the stub returns.
- Persistence.MapDBPersistentStore: durability, file layout, the flush performed by `close`, and the MapDB library itself are left out. The store is in memory, and `InitStore`/`Close` only move the lifecycle flag.
- Persistence.MapDBPersistentStore: locking and concurrent access are left out. The model is sequential.
- Persistence.MapDBPersistentStore.NextPacketID: does not model the 16-bit wrap-around of MQTT packet identifiers. IDs are unbounded naturals, because no test reaches the bound.
- Persistence.MapDBPersistentStore.StoreRetained: does not delete the retained message when the payload is empty, as section 3.3.1.3 of MQTT 3.1.1 asks. The tests never store an empty payload.
- Persistence.MapDBPersistentStore.PersistQoS2Message: a second persist under a key already in use replaces the earlier event. The invariant that in-flight QoS-2 entries are never silently overwritten, except by an explicit delete, is not modelled, because no test reuses a key.
- Persistence.MapDBPersistentStore.RetrieveQoS2Message: the QoS-2 key is an opaque string supplied by the caller. Nothing ties it to the client ID and packet ID of the event kept under it (the broker composes it from those two, as in `client-1:7`).
- Persistence.MapDBPersistentStore.StorePublishForFuture: the first-in-first-out order of several pending events is an assumption. The tests queue one event only.
- Persistence.MapDBPersistentStore.AddNewSubscription: the `clientID` argument is not used as a key, and duplicates are detected by value equality. Wiping, updating and per-client lookup of subscriptions, and removing QoS-2 messages after an exchange completes, are not exercised and are left out.
- MqttTypes.AsciiBytes models `String.getBytes()` only for ASCII text. Charsets and encodings are left out.
