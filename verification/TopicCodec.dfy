/** The MQTT topic of a device: printer, parser, and the broker's subscription filter. */
module TopicCodec {
  import opened Options

  const TELEMETRY_TOPIC_PATTERN := "devices/+/telemetry"

  function TelemetryTopic(deviceId: string): string {
    "devices/" + deviceId + "/telemetry"
  }

  /** The anchored regular expression: a fixed prefix, one or more non-slash characters, a fixed suffix. */
  function ParseDeviceId(topic: string): Option<string> {
    var prefix, suffix := "devices/", "/telemetry";
    if |topic| <= |prefix| + |suffix| then None
    else
      var middle := topic[|prefix|..|topic| - |suffix|];
      if prefix <= topic && topic[|topic| - |suffix|..] == suffix && '/' !in middle then Some(middle) else None
  }

  /** The levels of a topic or filter: the pieces between its slashes (section 4.7.1.1 of MQTT 3.1.1). */
  function Levels(s: string): (levels: seq<string>)
    ensures |levels| >= 1
  {
    if s == "" then [""]
    else
      var rest := Levels(s[1..]);
      if s[0] == '/' then [""] + rest else [[s[0]] + rest[0]] + rest[1..]
  }

  /** Matching of a filter without `#`: `+` stands for exactly one level (section 4.7.1.3 of MQTT 3.1.1). */
  predicate FilterMatches(filter: string, topic: string) {
    var f, t := Levels(filter), Levels(topic);
    |f| == |t| && forall i | 0 <= i < |f| :: f[i] == "+" || f[i] == t[i]
  }

  lemma {:induction false} LevelsOfSlashFree(a: string)
    requires '/' !in a
    ensures Levels(a) == [a]
  {
    if a != "" {
      LevelsOfSlashFree(a[1..]);
      assert a == [a[0]] + a[1..];
    }
  }

  lemma {:induction false} LevelsOfJoin(a: string, b: string)
    requires '/' !in a
    ensures Levels(a + "/" + b) == [a] + Levels(b)
  {
    var s := a + "/" + b;
    if a == "" {
      assert s[1..] == b;
    } else {
      LevelsOfJoin(a[1..], b);
      assert s[1..] == a[1..] + "/" + b;
      assert [a[0]] + a[1..] == a;
    }
  }

  /** Every string is its first level, and a slash and the rest when there is a second level. */
  lemma {:induction false} FirstLevel(s: string)
    ensures '/' !in Levels(s)[0]
    ensures |Levels(s)| == 1 ==> s == Levels(s)[0]
    ensures |Levels(s)| > 1 ==>
              var n := |Levels(s)[0]|;
              n < |s| && s == Levels(s)[0] + "/" + s[n + 1..] && Levels(s[n + 1..]) == Levels(s)[1..]
  {
    if s != "" && s[0] == '/' {
      assert s == "" + "/" + s[1..];
    } else if s != "" {
      var rest := s[1..];
      FirstLevel(rest);
      assert s == [s[0]] + rest;
      var n := |Levels(s)[0]|;
      if |Levels(s)| > 1 {
        assert s[n + 1..] == rest[n..];
        assert s[1..] == Levels(rest)[0] + "/" + rest[n..];
      }
    }
  }

  lemma ThreeLevels(p: string, id: string, q: string)
    requires '/' !in p && '/' !in id && '/' !in q
    ensures Levels(p + "/" + id + "/" + q) == [p, id, q]
  {
    LevelsOfJoin(p, id + "/" + q);
    assert p + "/" + id + "/" + q == p + "/" + (id + "/" + q);
    LevelsOfJoin(id, q);
    LevelsOfSlashFree(q);
  }

  /** A string is determined by its levels. */
  lemma FromThreeLevels(s: string, p: string, id: string, q: string)
    requires Levels(s) == [p, id, q]
    ensures s == p + "/" + id + "/" + q && '/' !in p && '/' !in id && '/' !in q
  {
    hide *;
    FirstLevel(s);
    var rest := s[|p| + 1..];
    FirstLevel(rest);
    FirstLevel(rest[|id| + 1..]);
  }

  /** A filter whose only wildcard is its middle level matches exactly the topics that differ from it there. */
  lemma MiddleWildcard(p: string, q: string, topic: string)
    requires '/' !in p && '/' !in q && p != "+" && q != "+"
    ensures FilterMatches(p + "/" + "+" + "/" + q, topic) <==>
              |Levels(topic)| == 3 && topic == p + "/" + Levels(topic)[1] + "/" + q
  {
    ThreeLevels(p, "+", q);
    var levels := Levels(topic);
    if |levels| == 3 {
      assert levels == [levels[0], levels[1], levels[2]];
      FromThreeLevels(topic, levels[0], levels[1], levels[2]);
      if topic == p + "/" + levels[1] + "/" + q {
        ThreeLevels(p, levels[1], q);
      }
    }
  }

  /** Printing then parsing gives the id back, exactly for the ids that can stand in one level. */
  lemma ParsePrint(id: string)
    ensures ParseDeviceId(TelemetryTopic(id)) == Some(id) <==> id != "" && '/' !in id
    ensures ParseDeviceId(TelemetryTopic(id)).Some? ==> ParseDeviceId(TelemetryTopic(id)) == Some(id)
  {
    var topic := TelemetryTopic(id);
    assert topic[|topic| - 10..] == "/telemetry";
    assert topic[8..|topic| - 10] == id;
  }

  /** Parsing then printing gives the topic back, and the parsed id is a non-empty level. */
  lemma PrintParse(topic: string)
    requires ParseDeviceId(topic).Some?
    ensures TelemetryTopic(ParseDeviceId(topic).value) == topic
    ensures ParseDeviceId(topic).value != "" && '/' !in ParseDeviceId(topic).value
  {
    var n := |topic| - 10;
    assert topic == (topic[..8] + topic[8..n]) + topic[n..];
  }

  /** The parser accepts exactly the three-level topics around a non-empty middle level, and returns that level. */
  lemma ParserAcceptsLevels(topic: string, p: string, q: string)
    requires '/' !in p && '/' !in q
    requires forall id :: TelemetryTopic(id) == p + "/" + id + "/" + q
    ensures ParseDeviceId(topic).Some? <==>
              |Levels(topic)| == 3 && topic == p + "/" + Levels(topic)[1] + "/" + q && Levels(topic)[1] != ""
    ensures ParseDeviceId(topic).Some? ==> ParseDeviceId(topic).value == Levels(topic)[1]
  {
    var levels := Levels(topic);
    if ParseDeviceId(topic).Some? {
      var id := ParseDeviceId(topic).value;
      PrintParse(topic);
      assert topic == p + "/" + id + "/" + q;
      ThreeLevels(p, id, q);
    } else if |levels| == 3 && topic == p + "/" + levels[1] + "/" + q {
      var id := levels[1];
      assert levels == [levels[0], id, levels[2]];
      FromThreeLevels(topic, levels[0], id, levels[2]);
      assert topic == TelemetryTopic(id);
      ParsePrint(id);
    }
  }

  /** The subscription filter, cut into its levels. */
  lemma PatternShape(p: string, q: string)
    requires p == "devices" && q == "telemetry"
    ensures TELEMETRY_TOPIC_PATTERN == p + "/" + "+" + "/" + q
    ensures '/' !in p && '/' !in q && p != "+" && q != "+"
    ensures forall id :: TelemetryTopic(id) == p + "/" + id + "/" + q
  {
    assert p[0] == 'd' && q[0] == 't';
    forall id ensures TelemetryTopic(id) == p + "/" + id + "/" + q {}
  }

  /** The parser accepts exactly the topics the subscription delivers, less those with an empty device level. */
  lemma ParserAcceptsFilter(topic: string, p: string, q: string)
    requires '/' !in p && '/' !in q && p != "+" && q != "+"
    requires forall id :: TelemetryTopic(id) == p + "/" + id + "/" + q
    ensures ParseDeviceId(topic).Some? <==>
              FilterMatches(p + "/" + "+" + "/" + q, topic) && |Levels(topic)| == 3 && Levels(topic)[1] != ""
  {
    ParserAcceptsLevels(topic, p, q);
    MiddleWildcard(p, q, topic);
    ThreeLevels(p, "+", q);
  }

  /** For the subscription itself: every topic the broker delivers is accepted, unless its device level is empty. */
  lemma ParserAcceptsSubscription(topic: string)
    ensures ParseDeviceId(topic).Some? <==>
              FilterMatches(TELEMETRY_TOPIC_PATTERN, topic) && |Levels(topic)| == 3 && Levels(topic)[1] != ""
    ensures ParseDeviceId(topic).Some? ==> ParseDeviceId(topic).value == Levels(topic)[1]
  {
    hide *;
    var p, q := "devices", "telemetry";
    PatternShape(p, q);
    ParserAcceptsFilter(topic, p, q);
    ParserAcceptsLevels(topic, p, q);
  }
}
