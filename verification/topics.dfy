/**
 The MQTT topic scheme: the four global wildcard subscriptions and the two
 per-device topics the binding publishes to. All topics are `/`-separated and
 start with an empty segment.
 */
module Topics {
  import opened Strings

  /**
   The suffix constants the binding takes from its constants module, whose
   values are not part of this model: the measures class, the configuration
   class with its command and values subclasses, the command-update class, and
   the alarm identifier raised on subscription failure.
   */
  datatype Constants = Constants(
    measures: string,
    configuration: string,
    configurationCommand: string,
    configurationCommandUpdate: string,
    configurationValues: string,
    alarm: string)

  /** A string that can stand as one topic segment. */
  predicate IsSegment(s: string) {
    '/' !in s
  }

  /** Every suffix is a non-empty single segment. */
  predicate WellFormed(c: Constants) {
    && |c.measures| > 0 && IsSegment(c.measures)
    && |c.configuration| > 0 && IsSegment(c.configuration)
    && |c.configurationCommand| > 0 && IsSegment(c.configurationCommand)
    && |c.configurationCommandUpdate| > 0 && IsSegment(c.configurationCommandUpdate)
    && |c.configurationValues| > 0 && IsSegment(c.configurationValues)
    && |c.alarm| > 0
  }

  const Wildcard: string := "+"
  const CommandSuffix: string := "cmd"

  /** The global subscriptions, in the order the binding pushes them. */
  function GenerateTopics(c: Constants): (topics: seq<string>)
    ensures |topics| == 4
    ensures forall i :: 0 <= i < 4 ==> "/+/+/" <= topics[i]
  {
    [ "/+/+/" + c.measures + "/+",
      "/+/+/" + c.measures,
      "/+/+/" + c.configuration + "/" + c.configurationCommand,
      "/+/+/" + c.configurationCommandUpdate ]
  }

  /**
   Topic on which a device receives the configuration values it asked for.
   Splitting it recovers the API key, the device id and both suffixes.
   */
  function ConfigValuesTopic(c: Constants, apiKey: string, deviceId: string): (topic: string)
    ensures IsSegment(c.configuration) && IsSegment(c.configurationValues) &&
            IsSegment(apiKey) && IsSegment(deviceId) ==>
              Split(topic, '/') == ["", apiKey, deviceId, c.configuration, c.configurationValues]
  {
    var topic := "/" + apiKey + "/" + deviceId + "/" + c.configuration + "/" + c.configurationValues;
    if IsSegment(c.configuration) && IsSegment(c.configurationValues) &&
       IsSegment(apiKey) && IsSegment(deviceId) then
      JoinFive(apiKey, deviceId, c.configuration, c.configurationValues);
      SplitJoin(["", apiKey, deviceId, c.configuration, c.configurationValues], '/');
      topic
    else topic
  }

  /** Topic on which a device receives commands. Splitting it recovers the API key and the device id. */
  function CommandTopic(apiKey: string, deviceId: string): (topic: string)
    ensures IsSegment(apiKey) && IsSegment(deviceId) ==>
              Split(topic, '/') == ["", apiKey, deviceId, CommandSuffix]
  {
    var topic := "/" + apiKey + "/" + deviceId + "/" + CommandSuffix;
    if IsSegment(apiKey) && IsSegment(deviceId) then
      JoinFour(apiKey, deviceId, CommandSuffix);
      SplitJoin(["", apiKey, deviceId, CommandSuffix], '/');
      topic
    else topic
  }

  /** `/`-joined segments written out by concatenation, for three and four segments after the leading one. */
  lemma JoinFour(a: string, b: string, d: string)
    ensures Join(["", a, b, d], '/') == "/" + a + "/" + b + "/" + d
  {
    assert Join([b, d], '/') == b + "/" + d by {
      assert [b, d][1..] == [d];
    }
    assert Join([a, b, d], '/') == a + "/" + (b + "/" + d) by {
      assert [a, b, d][1..] == [b, d];
    }
    assert Join(["", a, b, d], '/') == "" + "/" + (a + "/" + (b + "/" + d)) by {
      assert ["", a, b, d][1..] == [a, b, d];
    }
    assert "" + "/" + (a + "/" + (b + "/" + d)) == "/" + a + "/" + b + "/" + d;
  }

  lemma JoinFive(a: string, b: string, d: string, e: string)
    ensures Join(["", a, b, d, e], '/') == "/" + a + "/" + b + "/" + d + "/" + e
  {
    JoinFour(b, d, e);
    assert ["", a, b, d, e][1..] == [a, b, d, e];
    assert [a, b, d, e][1..] == ["", b, d, e][1..];
    var tail := "/" + b + "/" + d + "/" + e;
    assert Join([a, b, d, e], '/') == a + tail;
    assert "/" + a + "/" + b + "/" + d + "/" + e == "/" + (a + tail);
  }

  /** Distinct device addresses get distinct topics, so a publish never reaches another device's topic. */
  lemma CommandTopicInjective(k1: string, d1: string, k2: string, d2: string)
    requires IsSegment(k1) && IsSegment(d1) && IsSegment(k2) && IsSegment(d2)
    ensures CommandTopic(k1, d1) == CommandTopic(k2, d2) <==> k1 == k2 && d1 == d2
  {
    assert Split(CommandTopic(k1, d1), '/')[1..3] == [k1, d1];
    assert Split(CommandTopic(k2, d2), '/')[1..3] == [k2, d2];
  }

  lemma ConfigValuesTopicInjective(c: Constants, k1: string, d1: string, k2: string, d2: string)
    requires WellFormed(c)
    requires IsSegment(k1) && IsSegment(d1) && IsSegment(k2) && IsSegment(d2)
    ensures ConfigValuesTopic(c, k1, d1) == ConfigValuesTopic(c, k2, d2) <==> k1 == k2 && d1 == d2
  {
    assert Split(ConfigValuesTopic(c, k1, d1), '/')[1..3] == [k1, d1];
    assert Split(ConfigValuesTopic(c, k2, d2), '/')[1..3] == [k2, d2];
  }

  // ---------------------------------------------------------------------------
  // What the subscriptions receive: topic-filter matching with the single-level
  // wildcard `+` of section 4.7.1.3 of MQTT 3.1.1 (no `#` filter is used here).

  predicate SegmentMatches(filterSegment: string, topicSegment: string) {
    filterSegment == Wildcard || filterSegment == topicSegment
  }

  predicate SegmentsMatch(fs: seq<string>, ts: seq<string>) {
    |fs| == |ts| && forall i :: 0 <= i < |fs| ==> SegmentMatches(fs[i], ts[i])
  }

  predicate FilterMatches(filter: string, topic: string) {
    SegmentsMatch(Split(filter, '/'), Split(topic, '/'))
  }

  /** Some global subscription delivers `topic` to the binding. */
  predicate Heard(c: Constants, topic: string) {
    exists i :: 0 <= i < 4 && FilterMatches(GenerateTopics(c)[i], topic)
  }

  /** The global topics split into their segments. */
  lemma GlobalTopicSegments(c: Constants)
    requires WellFormed(c)
    ensures Split(GenerateTopics(c)[0], '/') == ["", "+", "+", c.measures, "+"]
    ensures Split(GenerateTopics(c)[1], '/') == ["", "+", "+", c.measures]
    ensures Split(GenerateTopics(c)[2], '/') == ["", "+", "+", c.configuration, c.configurationCommand]
    ensures Split(GenerateTopics(c)[3], '/') == ["", "+", "+", c.configurationCommandUpdate]
  {
    assert "/+/+/" == "/" + "+" + "/" + "+" + "/";
    assert "/+/+/" + c.measures + "/+" == "/" + "+" + "/" + "+" + "/" + c.measures + "/" + "+";
    JoinFive("+", "+", c.measures, "+");
    SplitJoin(["", "+", "+", c.measures, "+"], '/');
    JoinFour("+", "+", c.measures);
    SplitJoin(["", "+", "+", c.measures], '/');
    JoinFive("+", "+", c.configuration, c.configurationCommand);
    SplitJoin(["", "+", "+", c.configuration, c.configurationCommand], '/');
    JoinFour("+", "+", c.configurationCommandUpdate);
    SplitJoin(["", "+", "+", c.configurationCommandUpdate], '/');
  }

  /**
   Each global subscription receives its message class from every device of
   every API key: measures with and without a subtopic, configuration
   requests, and command-update reports.
   */
  lemma GlobalTopicsCoverAllDevices(c: Constants, apiKey: string, deviceId: string, sub: string)
    requires WellFormed(c)
    requires IsSegment(apiKey) && IsSegment(deviceId) && IsSegment(sub)
    ensures FilterMatches(GenerateTopics(c)[0], "/" + apiKey + "/" + deviceId + "/" + c.measures + "/" + sub)
    ensures FilterMatches(GenerateTopics(c)[1], "/" + apiKey + "/" + deviceId + "/" + c.measures)
    ensures FilterMatches(GenerateTopics(c)[2],
              "/" + apiKey + "/" + deviceId + "/" + c.configuration + "/" + c.configurationCommand)
    ensures FilterMatches(GenerateTopics(c)[3], "/" + apiKey + "/" + deviceId + "/" + c.configurationCommandUpdate)
  {
    GlobalTopicSegments(c);
    JoinFive(apiKey, deviceId, c.measures, sub);
    SplitJoin(["", apiKey, deviceId, c.measures, sub], '/');
    JoinFour(apiKey, deviceId, c.measures);
    SplitJoin(["", apiKey, deviceId, c.measures], '/');
    JoinFive(apiKey, deviceId, c.configuration, c.configurationCommand);
    SplitJoin(["", apiKey, deviceId, c.configuration, c.configurationCommand], '/');
    JoinFour(apiKey, deviceId, c.configurationCommandUpdate);
    SplitJoin(["", apiKey, deviceId, c.configurationCommandUpdate], '/');
  }

  /**
   The binding hears its own command publishes exactly when the measures or
   the command-update suffix matches the segment `cmd`.
   */
  lemma CommandTopicHeardIff(c: Constants, apiKey: string, deviceId: string)
    requires WellFormed(c)
    requires IsSegment(apiKey) && IsSegment(deviceId)
    ensures Heard(c, CommandTopic(apiKey, deviceId))
            <==> SegmentMatches(c.measures, CommandSuffix)
                 || SegmentMatches(c.configurationCommandUpdate, CommandSuffix)
  {
    GlobalTopicSegments(c);
    assert Split(CommandTopic(apiKey, deviceId), '/') == ["", apiKey, deviceId, CommandSuffix];
    var ts := ["", apiKey, deviceId, CommandSuffix];
    if SegmentMatches(c.measures, CommandSuffix) {
      assert SegmentsMatch(["", "+", "+", c.measures], ts);
      assert FilterMatches(GenerateTopics(c)[1], CommandTopic(apiKey, deviceId));
    } else if SegmentMatches(c.configurationCommandUpdate, CommandSuffix) {
      assert SegmentsMatch(["", "+", "+", c.configurationCommandUpdate], ts);
      assert FilterMatches(GenerateTopics(c)[3], CommandTopic(apiKey, deviceId));
    } else {
      forall i | 0 <= i < 4
        ensures !FilterMatches(GenerateTopics(c)[i], CommandTopic(apiKey, deviceId))
      {
        if i == 1 {
          assert !SegmentMatches(c.measures, ts[3]);
        } else if i == 3 {
          assert !SegmentMatches(c.configurationCommandUpdate, ts[3]);
        }
      }
    }
  }

  /**
   The binding hears its own configuration-values publishes exactly when the
   measures suffix matches the configuration suffix, or the
   configuration-command suffix matches the configuration-values suffix.
   */
  lemma ConfigValuesTopicHeardIff(c: Constants, apiKey: string, deviceId: string)
    requires WellFormed(c)
    requires IsSegment(apiKey) && IsSegment(deviceId)
    ensures Heard(c, ConfigValuesTopic(c, apiKey, deviceId))
            <==> SegmentMatches(c.measures, c.configuration)
                 || SegmentMatches(c.configurationCommand, c.configurationValues)
  {
    GlobalTopicSegments(c);
    assert Split(ConfigValuesTopic(c, apiKey, deviceId), '/')
           == ["", apiKey, deviceId, c.configuration, c.configurationValues];
    var topic := ConfigValuesTopic(c, apiKey, deviceId);
    var ts := ["", apiKey, deviceId, c.configuration, c.configurationValues];
    if SegmentMatches(c.measures, c.configuration) {
      assert SegmentsMatch(["", "+", "+", c.measures, "+"], ts);
      assert FilterMatches(GenerateTopics(c)[0], topic);
    } else if SegmentMatches(c.configurationCommand, c.configurationValues) {
      assert SegmentsMatch(["", "+", "+", c.configuration, c.configurationCommand], ts);
      assert FilterMatches(GenerateTopics(c)[2], topic);
    } else {
      forall i | 0 <= i < 4
        ensures !FilterMatches(GenerateTopics(c)[i], topic)
      {
        if i == 0 {
          assert !SegmentMatches(c.measures, ts[3]);
        } else if i == 2 {
          assert !SegmentMatches(c.configurationCommand, ts[4]);
        }
      }
    }
  }
}
