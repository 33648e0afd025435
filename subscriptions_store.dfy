/** The subscription registry: the subscriptions loaded from the session
    store, and the lookup of those whose filter matches a published topic. */
module Subscriptions {
  import opened MqttTypes
  import opened TopicMatcher

  /** The subscriptions of `subs` whose filter matches `topic`, in the order
      of `subs`. */
  function MatchingSubscriptions(subs: seq<Subscription>, topic: string): seq<Subscription>
  {
    if subs == [] then []
    else
      var last := subs[|subs| - 1];
      MatchingSubscriptions(subs[..|subs| - 1], topic)
        + (if MatchTopics(topic, last.topicFilter) then [last] else [])
  }

  /** Exactly the subscriptions whose filter matches are selected. */
  lemma {:induction false} MatchingSubscriptionsExactly(subs: seq<Subscription>, topic: string)
    ensures forall s :: s in MatchingSubscriptions(subs, topic) <==>
      s in subs && MatchTopics(topic, s.topicFilter)
  {
    if subs != [] {
      var init := subs[..|subs| - 1];
      MatchingSubscriptionsExactly(init, topic);
      assert subs == init + [subs[|subs| - 1]];
    }
  }

  /** Selecting keeps the result free of duplicates when the registry is. */
  lemma {:induction false} MatchingSubscriptionsDistinct(subs: seq<Subscription>, topic: string)
    requires Distinct(subs)
    ensures Distinct(MatchingSubscriptions(subs, topic))
  {
    if subs != [] {
      var init := subs[..|subs| - 1];
      var last := subs[|subs| - 1];
      assert Distinct(init);
      MatchingSubscriptionsDistinct(init, topic);
      MatchingSubscriptionsExactly(init, topic);
      assert last !in init;
    }
  }

  /** The in-memory registry of subscriptions. */
  class SubscriptionsStore {
    var subscriptions: seq<Subscription>

    constructor ()
      ensures subscriptions == []
    {
      subscriptions := [];
    }

    /** Loads the subscriptions the session store lists; `persisted` is the
        list its `listAllSubscriptions` returned. */
    method Init(persisted: seq<Subscription>)
      modifies this
      ensures subscriptions == persisted
    {
      subscriptions := persisted;
    }

    /** The registered subscriptions whose filter matches `topic`. */
    method Matches(topic: string) returns (matching: seq<Subscription>)
      ensures matching == MatchingSubscriptions(subscriptions, topic)
      ensures forall s :: s in matching <==> s in subscriptions && MatchTopics(topic, s.topicFilter)
      ensures Distinct(subscriptions) ==> Distinct(matching)
    {
      matching := [];
      var i := 0;
      while i < |subscriptions|
        invariant 0 <= i <= |subscriptions|
        invariant matching == MatchingSubscriptions(subscriptions[..i], topic)
      {
        var s := subscriptions[i];
        assert subscriptions[..i + 1][..i] == subscriptions[..i];
        if MatchTopics(topic, s.topicFilter) {
          matching := matching + [s];
        }
        i := i + 1;
      }
      assert subscriptions[..i] == subscriptions;
      MatchingSubscriptionsExactly(subscriptions, topic);
      if Distinct(subscriptions) {
        MatchingSubscriptionsDistinct(subscriptions, topic);
      }
    }
  }
}
