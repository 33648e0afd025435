/** The wildcard cases of the registry's unit tests, proved about the topic
    matcher. Each case states one assertion of the tests on its literal topic
    and filter. */
module TopicMatcherCases {
  import opened TopicMatcher

  // The levels of the topics and filters the tests use.

  lemma SplitSportTennisPlayer1()
    ensures Split("sport/tennis/player1") == ["sport", "tennis", "player1"]
  {
    SplitThreeLevels("sport/tennis/player1", "sport", "tennis", "player1");
  }

  lemma SplitSportTennisHash()
    ensures Split("sport/tennis/#") == ["sport", "tennis", "#"]
  {
    SplitThreeLevels("sport/tennis/#", "sport", "tennis", "#");
  }

  lemma SplitSportPlusPlayer1()
    ensures Split("sport/+/player1") == ["sport", "+", "player1"]
  {
    SplitThreeLevels("sport/+/player1", "sport", "+", "player1");
  }

  lemma SplitSportTennis()
    ensures Split("sport/tennis") == ["sport", "tennis"]
  {
    SplitTwoLevels("sport/tennis", "sport", "tennis");
  }

  lemma SplitSportPlus()
    ensures Split("sport/+") == ["sport", "+"]
  {
    SplitTwoLevels("sport/+", "sport", "+");
  }

  lemma SplitSport()
    ensures Split("sport") == ["sport"]
  {
    SplitWithoutSeparator("sport");
  }

  lemma SplitSportHash()
    ensures Split("sport/#") == ["sport", "#"]
  {
    SplitTwoLevels("sport/#", "sport", "#");
  }

  lemma SplitSportPlusPlayer2()
    ensures Split("sport/+/player2") == ["sport", "+", "player2"]
  {
    SplitThreeLevels("sport/+/player2", "sport", "+", "player2");
  }

  lemma SplitSensorsKitchenTemp()
    ensures Split("sensors/kitchen/temp") == ["sensors", "kitchen", "temp"]
  {
    SplitThreeLevels("sensors/kitchen/temp", "sensors", "kitchen", "temp");
  }

  lemma SplitSensorsPlusTemp()
    ensures Split("sensors/+/temp") == ["sensors", "+", "temp"]
  {
    SplitThreeLevels("sensors/+/temp", "sensors", "+", "temp");
  }

  lemma SplitAlertsHash()
    ensures Split("alerts/#") == ["alerts", "#"]
  {
    SplitTwoLevels("alerts/#", "alerts", "#");
  }

  /** Whether a topic matches a filter is decided by their levels. */
  lemma MatchTopicsByLevels(topic: string, filter: string, t: seq<string>, f: seq<string>)
    requires Split(topic) == t && Split(filter) == f
    ensures MatchTopics(topic, filter) == MatchLevels(t, f)
  {
  }

  // The wildcard cases, first on levels and then on the strings.

  lemma TrailingMultiLevelMatchesDeeperTopic_Levels()
    ensures MatchLevels(["sport", "tennis", "player1"], ["sport", "tennis", "#"])
  {
  }

  lemma MiddleSingleLevelMatchesAnyLevel_Levels()
    ensures MatchLevels(["sport", "tennis", "player1"], ["sport", "+", "player1"])
  {
  }

  lemma LastSingleLevelMatchesOneLevel_Levels()
    ensures MatchLevels(["sport", "tennis"], ["sport", "+"])
  {
  }

  lemma MultiLevelMatchesParentTopic_Levels()
    ensures MatchLevels(["sport"], ["sport", "#"])
  {
  }

  lemma LiteralAfterSingleLevelMustAgree_Levels()
    ensures !MatchLevels(["sport", "tennis", "player1"], ["sport", "+", "player2"])
  {
  }

  lemma ShallowerFilterDoesNotMatch_Levels()
    ensures !MatchLevels(["sport", "tennis", "player1"], ["sport", "tennis"])
  {
  }

  lemma ExactFilterMatchesItsTopic_Levels()
    ensures MatchLevels(["sensors", "kitchen", "temp"], ["sensors", "kitchen", "temp"])
  {
  }

  lemma SingleLevelFilterMatchesKitchen_Levels()
    ensures MatchLevels(["sensors", "kitchen", "temp"], ["sensors", "+", "temp"])
  {
  }

  lemma OtherTreeFilterDoesNotMatch_Levels()
    ensures !MatchLevels(["sensors", "kitchen", "temp"], ["alerts", "#"])
  {
  }

  /** A trailing multi-level wildcard matches a deeper topic under the same levels. */
  lemma TrailingMultiLevelMatchesDeeperTopic()
    ensures MatchTopics("sport/tennis/player1", "sport/tennis/#")
  {
    SplitSportTennisPlayer1();
    SplitSportTennisHash();
    TrailingMultiLevelMatchesDeeperTopic_Levels();
    MatchTopicsByLevels("sport/tennis/player1", "sport/tennis/#", ["sport", "tennis", "player1"], ["sport", "tennis", "#"]);
  }

  /** A single-level wildcard in the middle matches the level in that place. */
  lemma MiddleSingleLevelMatchesAnyLevel()
    ensures MatchTopics("sport/tennis/player1", "sport/+/player1")
  {
    SplitSportTennisPlayer1();
    SplitSportPlusPlayer1();
    MiddleSingleLevelMatchesAnyLevel_Levels();
    MatchTopicsByLevels("sport/tennis/player1", "sport/+/player1", ["sport", "tennis", "player1"], ["sport", "+", "player1"]);
  }

  /** A single-level wildcard at the end matches exactly one last level. */
  lemma LastSingleLevelMatchesOneLevel()
    ensures MatchTopics("sport/tennis", "sport/+")
  {
    SplitSportTennis();
    SplitSportPlus();
    LastSingleLevelMatchesOneLevel_Levels();
    MatchTopicsByLevels("sport/tennis", "sport/+", ["sport", "tennis"], ["sport", "+"]);
  }

  /** A multi-level wildcard also matches zero remaining levels: the parent topic. */
  lemma MultiLevelMatchesParentTopic()
    ensures MatchTopics("sport", "sport/#")
  {
    SplitSport();
    SplitSportHash();
    MultiLevelMatchesParentTopic_Levels();
    MatchTopicsByLevels("sport", "sport/#", ["sport"], ["sport", "#"]);
  }

  /** A literal level after a single-level wildcard must equal the topic level. */
  lemma LiteralAfterSingleLevelMustAgree()
    ensures !MatchTopics("sport/tennis/player1", "sport/+/player2")
  {
    SplitSportTennisPlayer1();
    SplitSportPlusPlayer2();
    LiteralAfterSingleLevelMustAgree_Levels();
    MatchTopicsByLevels("sport/tennis/player1", "sport/+/player2", ["sport", "tennis", "player1"], ["sport", "+", "player2"]);
  }

  /** Without a multi-level wildcard the number of levels must agree. */
  lemma ShallowerFilterDoesNotMatch()
    ensures !MatchTopics("sport/tennis/player1", "sport/tennis")
  {
    SplitSportTennisPlayer1();
    SplitSportTennis();
    ShallowerFilterDoesNotMatch_Levels();
    MatchTopicsByLevels("sport/tennis/player1", "sport/tennis", ["sport", "tennis", "player1"], ["sport", "tennis"]);
  }

  /** The filters of the registry lookup test against the topic it publishes on. */
  lemma SensorsKitchenTempFilters()
    ensures MatchTopics("sensors/kitchen/temp", "sensors/kitchen/temp")
    ensures MatchTopics("sensors/kitchen/temp", "sensors/+/temp")
    ensures !MatchTopics("sensors/kitchen/temp", "alerts/#")
  {
    SplitSensorsKitchenTemp();
    SplitSensorsPlusTemp();
    SplitAlertsHash();
    ExactFilterMatchesItsTopic_Levels();
    SingleLevelFilterMatchesKitchen_Levels();
    OtherTreeFilterDoesNotMatch_Levels();
    MatchTopicsByLevels("sensors/kitchen/temp", "sensors/kitchen/temp", ["sensors", "kitchen", "temp"], ["sensors", "kitchen", "temp"]);
    MatchTopicsByLevels("sensors/kitchen/temp", "sensors/+/temp", ["sensors", "kitchen", "temp"], ["sensors", "+", "temp"]);
    MatchTopicsByLevels("sensors/kitchen/temp", "alerts/#", ["sensors", "kitchen", "temp"], ["alerts", "#"]);
  }
}
