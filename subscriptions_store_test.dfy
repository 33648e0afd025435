/** The registry lookup of the unit tests, proved about the model. */
module SubscriptionsStoreTest {
  import opened MqttTypes
  import opened Subscriptions
  import opened TopicMatcher
  import TopicMatcherCases

  /** Of three subscriptions of which the first two match a topic and the
      third does not, the lookup selects the first two, in order. */
  lemma MatchingFirstTwoOfThree(a: Subscription, b: Subscription, c: Subscription, topic: string)
    requires MatchTopics(topic, a.topicFilter) && MatchTopics(topic, b.topicFilter)
    requires !MatchTopics(topic, c.topicFilter)
    ensures MatchingSubscriptions([a, b, c], topic) == [a, b]
  {
    var subs := [a, b, c];
    assert subs[..2] == [a, b] && [a, b][..1] == [a] && [a][..0] == [];
    assert MatchingSubscriptions([], topic) == [];
    assert MatchingSubscriptions([a], topic) == [a];
    assert MatchingSubscriptions([a, b], topic) == [a, b];
  }

  /** After loading three persisted subscriptions, the lookup for
      "sensors/kitchen/temp" returns the exact and the single-level wildcard
      subscriptions and not the one under "alerts/#". */
  method MatchesReturnsAllMatchingSubscriptions()
    returns (exact: Subscription, wildcard: Subscription, multi: Subscription,
             matching: seq<Subscription>)
    ensures exact == Subscription("client-a", "sensors/kitchen/temp", LeastOne, false)
    ensures wildcard == Subscription("client-b", "sensors/+/temp", MostOne, true)
    ensures multi == Subscription("client-c", "alerts/#", MostOne, true)
    ensures |matching| == 2 && exact in matching && wildcard in matching
    ensures multi !in matching
  {
    exact := Subscription("client-a", "sensors/kitchen/temp", LeastOne, false);
    wildcard := Subscription("client-b", "sensors/+/temp", MostOne, true);
    multi := Subscription("client-c", "alerts/#", MostOne, true);
    var persisted := [exact, wildcard, multi];
    var store := new SubscriptionsStore();
    store.Init(persisted);
    matching := store.Matches("sensors/kitchen/temp");
    TopicMatcherCases.SensorsKitchenTempFilters();
    MatchingFirstTwoOfThree(exact, wildcard, multi, "sensors/kitchen/temp");
  }
}
