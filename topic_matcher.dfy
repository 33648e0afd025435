/** Matching of concrete topics against subscription filters, after the
    wildcard rules of section 4.7.1 of the OASIS MQTT Version 3.1.1 standard:
    topics and filters are split into levels at '/', a level "+" matches
    exactly one topic level and a level "#" matches all remaining levels,
    including none. */
module TopicMatcher {

  const Separator: char := '/'
  const SingleLevel: string := "+"
  const MultiLevel: string := "#"

  /** `levels` joined with the separator between consecutive levels. */
  function Join(levels: seq<string>): string
    requires |levels| >= 1
  {
    if |levels| == 1 then levels[0] else levels[0] + [Separator] + Join(levels[1..])
  }

  /** The levels of `s`: the maximal runs of characters between separators.
      Empty levels, and so leading and trailing separators, are kept. */
  function Split(s: string): (levels: seq<string>)
    ensures |levels| >= 1
    decreases |s|
  {
    if s == [] then [""]
    else
      var rest := Split(s[1..]);
      if s[0] == Separator then [""] + rest
      else [[s[0]] + rest[0]] + rest[1..]
  }

  /** A filter level matches a topic level when it is the single-level
      wildcard or the same string. */
  predicate LevelMatches(filterLevel: string, topicLevel: string)
  {
    filterLevel == SingleLevel || filterLevel == topicLevel
  }

  /** Whether the topic levels `t` match the filter levels `f`. */
  predicate MatchLevels(t: seq<string>, f: seq<string>)
  {
    if f == [] then t == []
    else if f[0] == MultiLevel then true
    else if t == [] then false
    else LevelMatches(f[0], t[0]) && MatchLevels(t[1..], f[1..])
  }

  /** Whether the concrete topic `topic` matches the subscription filter `filter`. */
  predicate MatchTopics(topic: string, filter: string)
  {
    MatchLevels(Split(topic), Split(filter))
  }

  // ---------------------------------------------------------------------
  // Splitting and joining

  /** No level contains the separator. */
  lemma {:induction false} SplitHasNoSeparator(s: string)
    ensures forall i :: 0 <= i < |Split(s)| ==> Separator !in Split(s)[i]
    decreases |s|
  {
    if s != [] {
      SplitHasNoSeparator(s[1..]);
      var rest := Split(s[1..]);
      if s[0] != Separator {
        assert Separator !in [s[0]] + rest[0];
      }
    }
  }

  /** Joining the levels of `s` gives back `s`. */
  lemma {:induction false} JoinSplit(s: string)
    ensures Join(Split(s)) == s
    decreases |s|
  {
    if s != [] {
      var t := s[1..];
      assert s == [s[0]] + t;
      JoinSplit(t);
      if s[0] == Separator {
        SplitConsSeparator(t);
        JoinEmptyFirstLevel(Split(t));
      } else {
        SplitConsOther(s[0], t);
        JoinPrependToFirstLevel(s[0], Split(t));
      }
    }
  }

  /** Joining behind an empty first level puts a separator in front. */
  lemma JoinEmptyFirstLevel(levels: seq<string>)
    requires |levels| >= 1
    ensures Join([""] + levels) == [Separator] + Join(levels)
  {
  }

  /** Prepending a character to the first level prepends it to the join. */
  lemma JoinPrependToFirstLevel(c: char, levels: seq<string>)
    requires |levels| >= 1
    ensures Join([[c] + levels[0]] + levels[1..]) == [c] + Join(levels)
  {
  }

  /** Splitting a join of separator-free levels gives back those levels. */
  lemma {:induction false} SplitJoin(levels: seq<string>)
    requires |levels| >= 1
    requires forall i :: 0 <= i < |levels| ==> Separator !in levels[i]
    ensures Split(Join(levels)) == levels
  {
    SplitWithoutSeparator(levels[0]);
    if |levels| > 1 {
      SplitJoin(levels[1..]);
      SplitConcat(levels[0], Join(levels[1..]));
      assert levels == [levels[0]] + levels[1..];
    }
  }

  /** A string without a separator is a single level. */
  lemma {:induction false} SplitWithoutSeparator(s: string)
    requires Separator !in s
    ensures Split(s) == [s]
    decreases |s|
  {
    if s != [] {
      SplitWithoutSeparator(s[1..]);
      assert s == [s[0]] + s[1..];
    }
  }

  /** A leading separator starts with an empty level. */
  lemma SplitConsSeparator(s: string)
    ensures Split([Separator] + s) == [""] + Split(s)
  {
  }

  /** Any other leading character belongs to the first level. */
  lemma SplitConsOther(c: char, s: string)
    requires c != Separator
    ensures Split([c] + s) == [[c] + Split(s)[0]] + Split(s)[1..]
  {
  }

  /** The levels of `a/b` are the levels of `a` followed by those of `b`. */
  lemma {:induction false} SplitConcat(a: string, b: string)
    ensures Split(a + [Separator] + b) == Split(a) + Split(b)
    decreases |a|
  {
    if a == [] {
      SplitConsSeparator(b);
      assert a + [Separator] + b == [Separator] + b;
    } else {
      SplitConcat(a[1..], b);
      SplitConcatStep(a[0], a[1..], b);
      assert a == [a[0]] + a[1..];
    }
  }

  /** One character in front of `a` in `a/b`. */
  lemma SplitConcatStep(c: char, a: string, b: string)
    requires Split(a + [Separator] + b) == Split(a) + Split(b)
    ensures Split([c] + a + [Separator] + b) == Split([c] + a) + Split(b)
  {
    var x := a + [Separator] + b;
    var ra, rb := Split(a), Split(b);
    assert [c] + a + [Separator] + b == [c] + x;
    if c == Separator {
      SplitConsSeparator(x);
      SplitConsSeparator(a);
    } else {
      SplitConsOther(c, x);
      SplitConsOther(c, a);
      PrependToFirstLevel(c, ra, rb);
    }
  }

  /** Prepending a character to the first level commutes with appending levels. */
  lemma PrependToFirstLevel(c: char, ra: seq<string>, rb: seq<string>)
    requires |ra| >= 1
    ensures [[c] + (ra + rb)[0]] + (ra + rb)[1..] == ([[c] + ra[0]] + ra[1..]) + rb
  {
  }

  /** Splitting is one-to-one: different strings have different levels. */
  lemma SplitInjective(s: string, u: string)
    ensures Split(s) == Split(u) <==> s == u
  {
    if Split(s) == Split(u) {
      JoinSplit(s);
      JoinSplit(u);
    }
  }

  // ---------------------------------------------------------------------
  // Characterisations of matching on levels

  /** Every filter matches itself; in particular a wildcard-free filter
      matches the topic spelled the same way. */
  lemma {:induction false} MatchLevelsReflexive(t: seq<string>)
    ensures MatchLevels(t, t)
  {
    if t != [] && t[0] != MultiLevel {
      MatchLevelsReflexive(t[1..]);
    }
  }

  /** Without a multi-level wildcard, a filter matches exactly the topics with
      as many levels whose every level it matches level by level. */
  lemma {:induction false} MatchLevelsWithoutMultiLevel(t: seq<string>, f: seq<string>)
    requires MultiLevel !in f
    ensures MatchLevels(t, f) <==>
      |t| == |f| && forall i :: 0 <= i < |f| ==> LevelMatches(f[i], t[i])
  {
    if f != [] && t != [] {
      MatchLevelsWithoutMultiLevel(t[1..], f[1..]);
      if |t| == |f| && forall i :: 0 <= i < |f| ==> LevelMatches(f[i], t[i]) {
        assert forall i :: 0 <= i < |f| - 1 ==> LevelMatches(f[1..][i], t[1..][i]) by {
          forall i | 0 <= i < |f| - 1 ensures LevelMatches(f[1..][i], t[1..][i]) {
            assert LevelMatches(f[i + 1], t[i + 1]);
          }
        }
      }
      if MatchLevels(t, f) {
        forall i | 0 <= i < |f| ensures LevelMatches(f[i], t[i]) {
          if i > 0 { assert LevelMatches(f[1..][i - 1], t[1..][i - 1]); }
        }
      }
    }
  }

  /** A filter `p/#` (with no other multi-level wildcard) matches exactly the
      topics that have at least the levels of `p`, each matched by `p`. */
  lemma {:induction false} MatchLevelsMultiLevel(t: seq<string>, p: seq<string>)
    requires MultiLevel !in p
    ensures MatchLevels(t, p + [MultiLevel]) <==>
      |p| <= |t| && forall i :: 0 <= i < |p| ==> LevelMatches(p[i], t[i])
  {
    var f := p + [MultiLevel];
    if p != [] && t != [] {
      assert f[1..] == p[1..] + [MultiLevel];
      MatchLevelsMultiLevel(t[1..], p[1..]);
      if |p| <= |t| && forall i :: 0 <= i < |p| ==> LevelMatches(p[i], t[i]) {
        assert forall i :: 0 <= i < |p| - 1 ==> LevelMatches(p[1..][i], t[1..][i]) by {
          forall i | 0 <= i < |p| - 1 ensures LevelMatches(p[1..][i], t[1..][i]) {
            assert LevelMatches(p[i + 1], t[i + 1]);
          }
        }
      }
      if MatchLevels(t, f) {
        forall i | 0 <= i < |p| ensures LevelMatches(p[i], t[i]) {
          if i > 0 { assert LevelMatches(p[1..][i - 1], t[1..][i - 1]); }
        }
      }
    }
  }

  /** `p/#` matches the levels of `p` themselves and any deeper levels under them. */
  lemma {:induction false} MultiLevelMatchesPrefix(p: seq<string>, rest: seq<string>)
    ensures MatchLevels(p + rest, p + [MultiLevel])
  {
    if p != [] && p[0] != MultiLevel {
      assert (p + rest)[1..] == p[1..] + rest;
      assert (p + [MultiLevel])[1..] == p[1..] + [MultiLevel];
      MultiLevelMatchesPrefix(p[1..], rest);
    }
  }

  /** A single-level wildcard in place of one level matches any level there. */
  lemma {:induction false} SingleLevelMatchesAnyLevel(p: seq<string>, level: string, s: seq<string>)
    ensures MatchLevels(p + [level] + s, p + [SingleLevel] + s)
  {
    if p == [] {
      assert ([level] + s)[1..] == s;
      assert ([SingleLevel] + s)[1..] == s;
      MatchLevelsReflexive(s);
    } else if p[0] != MultiLevel {
      assert (p + [level] + s)[1..] == p[1..] + [level] + s;
      assert (p + [SingleLevel] + s)[1..] == p[1..] + [SingleLevel] + s;
      SingleLevelMatchesAnyLevel(p[1..], level, s);
    }
  }

  // ---------------------------------------------------------------------
  // Properties of MatchTopics on strings

  /** A filter without wildcards matches exactly the topic equal to it. */
  lemma NoWildcardMatchesOnlyItself(topic: string, filter: string)
    requires SingleLevel !in Split(filter) && MultiLevel !in Split(filter)
    ensures MatchTopics(topic, filter) <==> topic == filter
  {
    var t, f := Split(topic), Split(filter);
    MatchLevelsWithoutMultiLevel(t, f);
    if MatchTopics(topic, filter) {
      assert forall i :: 0 <= i < |f| ==> f[i] == t[i] by {
        forall i | 0 <= i < |f| ensures f[i] == t[i] {
          assert f[i] != SingleLevel;
        }
      }
      assert t == f;
    }
    SplitInjective(topic, filter);
    if topic == filter { MatchLevelsReflexive(t); }
  }

  /** A filter without a multi-level wildcard never matches a topic with a
      different number of levels. */
  lemma DepthMustAgreeWithoutMultiLevel(topic: string, filter: string)
    requires MultiLevel !in Split(filter)
    requires |Split(topic)| != |Split(filter)|
    ensures !MatchTopics(topic, filter)
  {
    MatchLevelsWithoutMultiLevel(Split(topic), Split(filter));
  }

  /** `prefix/#` matches the parent topic `prefix` and every topic below it. */
  lemma MultiLevelMatchesParentAndDescendants(prefix: string, suffix: string)
    ensures MatchTopics(prefix, prefix + "/#")
    ensures MatchTopics(prefix + "/" + suffix, prefix + "/#")
  {
    var p := Split(prefix);
    assert prefix + "/#" == prefix + [Separator] + MultiLevel;
    SplitConcat(prefix, MultiLevel);
    SplitWithoutSeparator(MultiLevel);
    assert Split(prefix + "/#") == p + [MultiLevel];
    assert prefix + "/" + suffix == prefix + [Separator] + suffix;
    SplitConcat(prefix, suffix);
    MultiLevelMatchesPrefix(p, []);
    assert p + [] == p;
    MultiLevelMatchesPrefix(p, Split(suffix));
  }

  /** `prefix/+/suffix` matches `prefix/level/suffix` for any single level. */
  lemma SingleLevelMatchesMiddleLevel(prefix: string, level: string, suffix: string)
    requires Separator !in level
    ensures MatchTopics(prefix + "/" + level + "/" + suffix, prefix + "/+/" + suffix)
  {
    var p, s := Split(prefix), Split(suffix);
    SplitWithoutSeparator(level);
    SplitWithoutSeparator(SingleLevel);
    assert prefix + "/" + level + "/" + suffix == (prefix + [Separator] + level) + [Separator] + suffix;
    SplitConcat(prefix + [Separator] + level, suffix);
    SplitConcat(prefix, level);
    assert Split(prefix + "/" + level + "/" + suffix) == p + [level] + s;
    assert prefix + "/+/" + suffix == (prefix + [Separator] + SingleLevel) + [Separator] + suffix;
    SplitConcat(prefix + [Separator] + SingleLevel, suffix);
    SplitConcat(prefix, SingleLevel);
    assert Split(prefix + "/+/" + suffix) == p + [SingleLevel] + s;
    SingleLevelMatchesAnyLevel(p, level, s);
  }

  /** `prefix/+` matches `prefix/level` for any single level. */
  lemma SingleLevelMatchesLastLevel(prefix: string, level: string)
    requires Separator !in level
    ensures MatchTopics(prefix + "/" + level, prefix + "/+")
  {
    var p := Split(prefix);
    SplitWithoutSeparator(level);
    SplitWithoutSeparator(SingleLevel);
    assert prefix + "/" + level == prefix + [Separator] + level;
    assert prefix + "/+" == prefix + [Separator] + SingleLevel;
    SplitConcat(prefix, level);
    SplitConcat(prefix, SingleLevel);
    SingleLevelMatchesAnyLevel(p, level, []);
    assert p + [level] + [] == p + [level];
    assert p + [SingleLevel] + [] == p + [SingleLevel];
  }

  /** The levels of `t` when it is `a/b` for separator-free `a` and `b`. */
  lemma SplitTwoLevels(t: string, a: string, b: string)
    requires Separator !in a && Separator !in b
    requires t == a + [Separator] + b
    ensures Split(t) == [a, b]
  {
    SplitConcat(a, b);
    SplitWithoutSeparator(a);
    SplitWithoutSeparator(b);
  }

  /** The levels of `t` when it is `a/b/c` for separator-free `a`, `b` and `c`. */
  lemma SplitThreeLevels(t: string, a: string, b: string, c: string)
    requires Separator !in a && Separator !in b && Separator !in c
    requires t == a + [Separator] + b + [Separator] + c
    ensures Split(t) == [a, b, c]
  {
    SplitConcat(a + [Separator] + b, c);
    SplitTwoLevels(a + [Separator] + b, a, b);
    SplitWithoutSeparator(c);
  }
}
