/** The MQTT topic contract: building, splitting, subscribing and authorising topics. */
module Topics {
  import opened Prelude

  const SUBSCRIBE_TOPIC := "embediq/+/#"

  datatype Address = Address(id: string, channel: string)

  /** `s.split("/")` */
  function Split(s: string): (parts: seq<string>)
    ensures |parts| >= 1
    ensures forall p | p in parts :: '/' !in p
  {
    if s == "" then [""]
    else
      var rest := Split(s[1..]);
      if s[0] == '/' then [""] + rest else [[s[0]] + rest[0]] + rest[1..]
  }

  /** `"/".join(parts)` */
  function Join(parts: seq<string>): string {
    if parts == [] then ""
    else if |parts| == 1 then parts[0]
    else parts[0] + "/" + Join(parts[1..])
  }

  function Build(id: string, channel: string): string {
    "embediq" + "/" + id + "/" + channel
  }

  function DesiredTopic(id: string): string {
    Build(id, "state/desired")
  }

  function ReportedTopic(id: string): string {
    Build(id, "state/reported")
  }

  function CmdTopic(id: string): string {
    Build(id, "cmd")
  }

  /** A topic name may not hold wildcards, section 3.3.2.1 of MQTT 3.1.1; the client raises on one. */
  predicate Publishable(topic: string) {
    '+' !in topic && '#' !in topic
  }

  /** The shape test and the split at the head of `route_message`. */
  function Parse(topic: string): Option<Address> {
    var parts := Split(topic);
    if |parts| < 3 || parts[0] != "embediq" then None
    else Some(Address(parts[1], Join(parts[2..])))
  }

  /** Level by level matching of a topic against a filter, section 4.7.1 of MQTT 3.1.1:
      `+` is one level, `#` is the parent and everything below it. */
  predicate Matches(pattern: seq<string>, levels: seq<string>) {
    if pattern == [] then levels == []
    else if pattern[0] == "#" then true
    else levels != [] && (pattern[0] == "+" || pattern[0] == levels[0]) && Matches(pattern[1..], levels[1..])
  }

  /** A wildcard fills its whole level, and `#` is the last one, section 4.7.1 of MQTT 3.1.1. */
  predicate ValidFilter(pattern: seq<string>) {
    forall i | 0 <= i < |pattern| ::
      && ('+' in pattern[i] ==> pattern[i] == "+")
      && ('#' in pattern[i] ==> pattern[i] == "#" && i == |pattern| - 1)
  }

  /** A subscription to `filter` is granted and takes in messages on `topic`. */
  predicate Hears(filter: string, topic: string) {
    ValidFilter(Split(filter)) && Matches(Split(filter), Split(topic))
  }

  /** `internal_acl`: a missing topic reads as the empty string. */
  predicate AclAllows(topic: Option<string>) {
    var t := if topic.Some? then topic.value else "";
    t == "embediq" || "embediq/" <= t
  }

  lemma {:induction false} SplitConcat(a: string, b: string)
    ensures Split(a + "/" + b) == Split(a) + Split(b)
  {
    var s := a + "/" + b;
    if a == "" {
      assert s[1..] == b;
    } else {
      assert s[1..] == a[1..] + "/" + b;
      SplitConcat(a[1..], b);
    }
  }

  lemma {:induction false} SplitWhole(s: string)
    ensures '/' !in s <==> Split(s) == [s]
  {
    if s == "" {
    } else {
      SplitWhole(s[1..]);
      assert s == [s[0]] + s[1..];
    }
  }

  lemma {:induction false} JoinSplit(s: string)
    ensures Join(Split(s)) == s
  {
    if s == "" {
    } else {
      var rest := Split(s[1..]);
      JoinSplit(s[1..]);
      if s[0] == '/' {
        assert ([""] + rest)[1..] == rest;
      } else {
        var parts := [[s[0]] + rest[0]] + rest[1..];
        assert parts[1..] == rest[1..];
        assert Join(parts) == [s[0]] + Join(rest);
      }
    }
  }

  lemma NamespaceLevels(rest: string)
    ensures Split("embediq" + "/" + rest) == ["embediq"] + Split(rest)
  {
    SplitConcat("embediq", rest);
    SplitWhole("embediq");
  }

  lemma BuildLevels(id: string, channel: string)
    ensures Split(Build(id, channel)) == ["embediq"] + Split(id) + Split(channel)
  {
    assert Build(id, channel) == "embediq" + "/" + (id + "/" + channel);
    NamespaceLevels(id + "/" + channel);
    SplitConcat(id, channel);
  }

  /** Every accepted topic is rebuilt from its parsed parts. */
  lemma RebuildAccepted(topic: string)
    requires Parse(topic).Some?
    ensures Build(Parse(topic).value.id, Parse(topic).value.channel) == topic
    ensures '/' !in Parse(topic).value.id
  {
    var parts := Split(topic);
    JoinSplit(topic);
    assert parts[1..][1..] == parts[2..];
  }

  /** A built topic always parses; it parses back to the same pair iff the id has no slash. */
  lemma RoundTripIffSlashFree(id: string, channel: string)
    ensures Parse(Build(id, channel)).Some?
    ensures Parse(Build(id, channel)) == Some(Address(id, channel)) <==> '/' !in id
  {
    BuildLevels(id, channel);
    SplitWhole(id);
    JoinSplit(channel);
    var parts := Split(Build(id, channel));
    if '/' !in id {
      assert parts[2..] == Split(channel);
    }
  }

  lemma SlashFreeTopicsDistinct(a: string, b: string, c: string, d: string)
    requires '/' !in a && '/' !in b
    ensures Build(a, c) == Build(b, d) <==> a == b && c == d
  {
    RoundTripIffSlashFree(a, c);
    RoundTripIffSlashFree(b, d);
  }

  /** On one channel even ids with slashes keep their topics apart. */
  lemma ChannelTopicInjective(a: string, b: string, channel: string)
    ensures Build(a, channel) == Build(b, channel) ==> a == b
  {
    var s, t := Build(a, channel), Build(b, channel);
    if s == t {
      var n := |s| - |channel| - 1;
      assert s[8..n] == a && t[8..n] == b;
    }
  }

  /** No command topic is a desired-state topic, whatever the two ids are. */
  lemma CmdIsNotDesired(a: string, b: string)
    ensures CmdTopic(a) != DesiredTopic(b)
  {
    var s, t := CmdTopic(a), DesiredTopic(b);
    assert s[|s| - 2] == 'm' && t[|t| - 2] == 'e';
  }

  lemma BuildSpelled(id: string, channel: string)
    ensures Build(id, channel) == "embediq/" + id + ("/" + channel)
  {
  }

  lemma PublishableBuild(id: string, channel: string)
    ensures Publishable(Build(id, channel)) <==> Publishable(id) && Publishable(channel)
  {
  }

  /** On every channel of the contract an id can be published to iff it holds no wildcard. */
  lemma PublishableIff(id: string)
    ensures Publishable(DesiredTopic(id)) <==> Publishable(id)
    ensures Publishable(ReportedTopic(id)) <==> Publishable(id)
    ensures Publishable(CmdTopic(id)) <==> Publishable(id)
  {
    PublishableBuild(id, "state/desired");
    PublishableBuild(id, "state/reported");
    PublishableBuild(id, "cmd");
  }

  /** The topics of the contract that hold state or commands, letter by letter. */
  lemma TopicsSpelled(id: string)
    ensures DesiredTopic(id) == "embediq/" + id + "/state/desired"
    ensures ReportedTopic(id) == "embediq/" + id + "/state/reported"
    ensures CmdTopic(id) == "embediq/" + id + "/cmd"
  {
    assert "embediq/" == "embediq" + "/";
    BuildSpelled(id, "state/desired");
    BuildSpelled(id, "state/reported");
    BuildSpelled(id, "cmd");
  }

  lemma DeviceTopicsSpelled(id: string)
    ensures Build(id, "telemetry") == "embediq/" + id + "/telemetry"
    ensures Build(id, "logs") == "embediq/" + id + "/logs"
    ensures Build(id, "state/reported") == "embediq/" + id + "/state/reported"
    ensures Build(id, "status") == "embediq/" + id + "/status"
  {
    BuildSpelled(id, "telemetry");
    BuildSpelled(id, "logs");
    BuildSpelled(id, "state/reported");
    BuildSpelled(id, "status");
  }

  /** What the dispatcher tells apart; `Unhandled` covers the cloud-to-device and unknown channels. */
  datatype Kind = Telemetry | Logs | Reports | Status | Unhandled

  function KindOf(channel: string): Kind {
    if channel == "telemetry" then Telemetry
    else if channel == "logs" then Logs
    else if channel == "state/reported" then Reports
    else if channel == "status" then Status
    else Unhandled
  }

  /** Cloud-to-device topics never reach a handler of the bridge, even for ids with slashes. */
  lemma CloudTopicsUnhandled(id: string, topic: string)
    requires topic == CmdTopic(id) || topic == DesiredTopic(id)
    ensures Parse(topic).Some? && KindOf(Parse(topic).value.channel) == Unhandled
  {
    RoundTripIffSlashFree(id, "cmd");
    RoundTripIffSlashFree(id, "state/desired");
    RebuildAccepted(topic);
    var n := |topic|;
    if topic == CmdTopic(id) {
      assert topic[n - 1] == 'd' && topic[n - 2] == 'm';
    } else {
      assert topic[n - 1] == 'd' && topic[n - 3] == 'r';
    }
    assert topic[n - |Parse(topic).value.channel|..] == Parse(topic).value.channel;
  }

  predicate NoHash(pattern: seq<string>) {
    forall i | 0 <= i < |pattern| :: pattern[i] != "#"
  }

  lemma {:induction false} MatchesLevelwise(pattern: seq<string>, levels: seq<string>)
    requires NoHash(pattern)
    ensures Matches(pattern, levels) <==>
            |pattern| == |levels| && forall i | 0 <= i < |pattern| :: pattern[i] == "+" || pattern[i] == levels[i]
  {
    if pattern == [] || levels == [] {
      assert pattern != [] ==> pattern[0] != "#";
    } else {
      assert NoHash(pattern[1..]) && pattern[0] != "#";
      MatchesLevelwise(pattern[1..], levels[1..]);
      assert pattern == [pattern[0]] + pattern[1..] && levels == [levels[0]] + levels[1..];
    }
  }

  predicate Plain(levels: seq<string>) {
    forall i | 0 <= i < |levels| :: Publishable(levels[i])
  }

  lemma PlainCons(levels: seq<string>, head: string, c: char)
    requires Plain(levels) && levels != [] && c != '+' && c != '#' && Publishable(head)
    ensures Plain([""] + levels) && Plain([[c] + levels[0]] + levels[1..])
  {
    assert Publishable([c] + levels[0]);
  }

  lemma {:induction false} SplitPlain(s: string)
    requires Publishable(s)
    ensures Plain(Split(s))
  {
    if s == "" {
    } else {
      assert s[0] in s && Publishable(s[1..]);
      SplitPlain(s[1..]);
      PlainCons(Split(s[1..]), "", s[0]);
    }
  }

  lemma PlainIsNoWildcard(level: string)
    requires Publishable(level)
    ensures level != "#" && level != "+"
  {
    assert '#' in "#" && '+' in "+";
  }

  lemma PlainMatchesItself(pattern: seq<string>, levels: seq<string>)
    requires Plain(pattern)
    ensures ValidFilter(pattern) && (Matches(pattern, levels) <==> levels == pattern)
  {
    forall i | 0 <= i < |pattern| ensures pattern[i] != "#" && pattern[i] != "+" { PlainIsNoWildcard(pattern[i]); }
    MatchesLevelwise(pattern, levels);
  }

  /** A subscription without wildcards takes in its own topic and no other. */
  lemma PlainHearsItself(filter: string, topic: string)
    requires Publishable(filter)
    ensures Hears(filter, topic) <==> topic == filter
  {
    SplitPlain(filter);
    PlainMatchesItself(Split(filter), Split(topic));
    JoinSplit(filter);
    JoinSplit(topic);
  }

  lemma ValidMeansNoHash(pattern: seq<string>)
    requires ValidFilter(pattern) && pattern != [] && Publishable(pattern[|pattern| - 1])
    ensures NoHash(pattern)
  {
    PlainIsNoWildcard(pattern[|pattern| - 1]);
    assert "#"[0] == '#';
  }

  lemma LevelsHeard(head: string, middle: seq<string>, level: string, tail: seq<string>)
    requires Publishable(head) && Publishable(level) && Plain(tail) && tail != []
    ensures var pattern, levels := [head] + middle + tail, [head] + [level] + tail;
            ValidFilter(pattern) && Matches(pattern, levels) <==> middle == [level] || middle == ["+"]
  {
    var pattern, levels := [head] + middle + tail, [head] + [level] + tail;
    assert pattern[|pattern| - 1] == tail[|tail| - 1];
    if ValidFilter(pattern) && Matches(pattern, levels) {
      ValidMeansNoHash(pattern);
      MatchesLevelwise(pattern, levels);
      assert pattern[1] == middle[0] && levels[1] == level;
    }
    if middle == [level] {
      assert Plain(pattern);
      PlainMatchesItself(pattern, levels);
    } else if middle == ["+"] {
      forall i | 0 <= i < |pattern| && i != 1 ensures Publishable(pattern[i]) && pattern[i] == levels[i] {
        assert i > 1 ==> pattern[i] == tail[i - 2] && levels[i] == tail[i - 2];
      }
      forall i | 0 <= i < |pattern| ensures pattern[i] != "#" {
        if i != 1 { PlainIsNoWildcard(pattern[i]); }
      }
      MatchesLevelwise(pattern, levels);
    }
  }

  lemma SingleLevel(s: string, level: string)
    requires '/' !in level
    ensures Split(s) == [level] <==> s == level
  {
    JoinSplit(s);
    SplitWhole(level);
  }

  lemma ChannelHeardIff(a: string, b: string, channel: string)
    requires '/' !in b && Publishable(b) && Publishable(channel)
    ensures Hears(Build(a, channel), Build(b, channel)) <==> a == b || a == "+"
  {
    BuildLevels(a, channel);
    BuildLevels(b, channel);
    SingleLevel(b, b);
    SingleLevel(a, b);
    SingleLevel(a, "+");
    SplitPlain(channel);
    LevelsHeard("embediq", Split(a), b, Split(channel));
  }

  /** Whose desired document a device is given: its own and no other, except that the subscription of
      an id "+" takes in the documents of every device. */
  lemma DesiredHeardIff(a: string, b: string)
    requires '/' !in b && Publishable(b)
    ensures Hears(DesiredTopic(a), DesiredTopic(b)) <==> a == b || a == "+"
  {
    ChannelHeardIff(a, b, "state/desired");
  }

  lemma SubscriptionParts()
    ensures SUBSCRIBE_TOPIC == "embediq" + "/" + ("+" + "/" + "#")
  {
  }

  lemma SubscriptionLevels()
    ensures Split(SUBSCRIBE_TOPIC) == ["embediq", "+", "#"]
  {
    SubscriptionParts();
    NamespaceLevels("+" + "/" + "#");
    SplitConcat("+", "#");
    SplitWhole("+");
    SplitWhole("#");
  }

  lemma MatchesSubscription(levels: seq<string>)
    ensures Matches(["embediq", "+", "#"], levels) <==> |levels| >= 2 && levels[0] == "embediq"
  {
    var pattern := ["embediq", "+", "#"];
    assert pattern[1..] == ["+", "#"];
    assert pattern[1..][1..] == ["#"];
    if |levels| >= 2 {
      assert Matches(["#"], levels[1..][1..]);
      assert Matches(["+", "#"], levels[1..]);
    }
  }

  lemma NamespaceFirstLevel(rest: string)
    ensures Split("embediq/" + rest)[0] == "embediq"
  {
    assert "embediq/" + rest == "embediq" + "/" + rest;
    NamespaceLevels(rest);
  }

  lemma FirstLevelNamespace(topic: string)
    requires Split(topic)[0] == "embediq"
    ensures topic == "embediq" || "embediq/" <= topic
  {
    JoinSplit(topic);
    var parts := Split(topic);
    if |parts| > 1 {
      assert topic == "embediq" + "/" + Join(parts[1..]);
      assert topic[..8] == "embediq/";
    }
  }

  /** The ACL admits exactly the topics whose first level is `embediq`. */
  lemma AclIffFirstLevel(topic: string)
    ensures AclAllows(Some(topic)) <==> Split(topic)[0] == "embediq"
    ensures !AclAllows(None)
  {
    if "embediq/" <= topic {
      assert topic == "embediq/" + topic[8..];
      NamespaceFirstLevel(topic[8..]);
    }
    if topic == "embediq" { SplitWhole(topic); }
    if Split(topic)[0] == "embediq" { FirstLevelNamespace(topic); }
  }

  /** Router, subscription and ACL agree: a topic is routed iff it is under the subscription and
      has at least three levels, and the ACL lets every topic under the subscription through. */
  lemma RoutingSubscriptionAclAgree(topic: string)
    ensures Parse(topic).Some? <==>
            Matches(Split(SUBSCRIBE_TOPIC), Split(topic)) && |Split(topic)| >= 3
    ensures Matches(Split(SUBSCRIBE_TOPIC), Split(topic)) ==> AclAllows(Some(topic))
  {
    SubscriptionLevels();
    AclIffFirstLevel(topic);
    MatchesSubscription(Split(topic));
  }
}
