/** The kateway topic namespace of `mysqlStore`: how an application's logical
    (appid, topic, version) triple becomes a physical Kafka topic name, how the
    owning appid is read back from such a name, how shadow-queue names are
    built, and which topic and consumer-group names are accepted. None of these
    read the store's state, so they are module-level members here. */
module Namespace {
  import opened Utf8
  import opened Text
  import Adler32
  import Decimal

  /** Longest accepted topic name, in bytes. */
  const MaxTopicLen: nat := 64

  /** The consumer group reserved for smoke tests, and the X-Origin header
      value that a request must carry to use it. */
  const SmoketestGroup: string := "__smoketest__"
  const SmoketestOrigin: string := "smoketest"

  // ---------------------------------------------------------------------
  // App id recovery

  /** The app id a physical topic name belongs to: everything before the
      first '.', or "" when the name has no '.'. */
  function TopicAppid(kafkaTopic: string): (appid: string)
    ensures '.' !in appid
    ensures appid <= kafkaTopic
    ensures '.' in kafkaTopic ==> |appid| < |kafkaTopic| && kafkaTopic[|appid|] == '.'
    ensures '.' !in kafkaTopic ==> appid == ""
  {
    var firstDot := IndexOf(kafkaTopic, '.');
    if firstDot == -1 || firstDot > |kafkaTopic| then "" else kafkaTopic[..firstDot]
  }

  /** The app id is the first of the '.'-separated segments of a dotted name. */
  lemma TopicAppidIsFirstSegment(kafkaTopic: string)
    requires '.' in kafkaTopic
    ensures TopicAppid(kafkaTopic) == Split(kafkaTopic, '.')[0]
  {
  }

  /** Whatever follows a dot-free app id and a '.', the app id is recovered. */
  lemma TopicAppidOfJoin(appid: string, rest: string)
    requires '.' !in appid
    ensures TopicAppid(appid + "." + rest) == appid
  {
    IndexOfJoin(appid, '.', rest);
    assert (appid + "." + rest)[..|appid|] == appid;
  }

  // ---------------------------------------------------------------------
  // Physical topic names

  /** The obfuscation cookie: the Adler-32 checksum of the bytes of
      appid + topic, modulo 1000. */
  function Cookie(appid: string, topic: string): (c: nat)
    ensures c < 1000
  {
    Adler32.Checksum(Encode(appid + topic)) % 1000
  }

  /** The physical topic name "appid.topic.ver", followed by ".cookie" when the
      version is longer than two bytes (from "v10" on). */
  function KafkaTopicName(appid: string, topic: string, ver: string): string {
    var name := appid + "." + topic + "." + ver;
    if |Encode(ver)| > 2 then name + "." + Decimal.Decimal(Cookie(appid, topic)) else name
  }

  /** Builds the physical topic name in a scratch buffer, piece by piece. */
  method KafkaTopic(appid: string, topic: string, ver: string) returns (r: string)
    ensures r == KafkaTopicName(appid, topic, ver)
  {
    var b: string := [];
    b := b + appid;
    b := b + ['.'];
    b := b + topic;
    b := b + ['.'];
    b := b + ver;
    if |Encode(ver)| > 2 {
      b := b + ['.'];
      var cookie := Adler32.Checksum(Encode(appid + topic));
      b := b + Decimal.Decimal(cookie % 1000);
    }
    r := b;
  }

  /** Versions of at most two bytes ("v1" .. "v9") get no fourth segment. */
  lemma KafkaTopicShortVersion(appid: string, topic: string, ver: string)
    requires |Encode(ver)| <= 2
    ensures KafkaTopicName(appid, topic, ver) == appid + "." + topic + "." + ver
  {
  }

  /** Longer versions get a fourth segment: the canonical decimal (one to
      three digits, no padding) of the Adler-32 checksum of appid + topic,
      modulo 1000. */
  lemma KafkaTopicLongVersion(appid: string, topic: string, ver: string)
    requires |Encode(ver)| > 2
    ensures var name := appid + "." + topic + "." + ver;
            var r := KafkaTopicName(appid, topic, ver);
            && |name| + 2 <= |r| <= |name| + 4
            && r[..|name| + 1] == name + "."
            && Decimal.IsCanonical(r[|name| + 1..])
            && Decimal.ValueOf(r[|name| + 1..]) == Adler32.Checksum(Encode(appid + topic)) % 1000
  {
    var name := appid + "." + topic + "." + ver;
    var c := Cookie(appid, topic);
    var r := KafkaTopicName(appid, topic, ver);
    assert r[..|name| + 1] == name + ".";
    assert r[|name| + 1..] == Decimal.Decimal(c);
    Decimal.DecimalRoundTrip(c);
    Decimal.DecimalLength(c, 3);
    assert Decimal.Pow10(3) == 1000;
  }

  /** The cookie depends on appid and topic only through their concatenation. */
  lemma CookieOfConcatenation(appid1: string, topic1: string, appid2: string, topic2: string)
    requires appid1 + topic1 == appid2 + topic2
    ensures Cookie(appid1, topic1) == Cookie(appid2, topic2)
  {
  }

  /** The cookie is the checksum of the bytes of appid followed by the bytes
      of topic, which is what `[]byte(appid + topic)` holds. */
  lemma CookieOfBytes(appid: string, topic: string)
    ensures Cookie(appid, topic) == Adler32.Checksum(Encode(appid) + Encode(topic)) % 1000
  {
    EncodeAppend(appid, topic);
  }

  /** With dot-free parts, the name has exactly three or exactly four
      '.'-separated segments: appid, topic, ver and, for long versions, the
      decimal cookie. */
  lemma KafkaTopicSegments(appid: string, topic: string, ver: string)
    requires '.' !in appid && '.' !in topic && '.' !in ver
    ensures Split(KafkaTopicName(appid, topic, ver), '.') ==
            if |Encode(ver)| > 2 then [appid, topic, ver, Decimal.Decimal(Cookie(appid, topic))]
            else [appid, topic, ver]
  {
    if |Encode(ver)| > 2 {
      var d := Decimal.Decimal(Cookie(appid, topic));
      DigitsAreDotFree(d);
      SplitOfFour(appid, topic, ver, d);
    } else {
      SplitOfThree(appid, topic, ver);
    }
  }

  lemma SplitOfThree(x: string, y: string, z: string)
    requires '.' !in x && '.' !in y && '.' !in z
    ensures Split(x + "." + y + "." + z, '.') == [x, y, z]
  {
    var parts := [x, y, z];
    assert parts[1..] == [y, z];
    assert parts[1..][1..] == [z];
    assert Join([z], '.') == z;
    assert Join([y, z], '.') == y + "." + z;
    assert Join(parts, '.') == x + "." + (y + "." + z);
    assert x + "." + y + "." + z == x + "." + (y + "." + z);
    JoinSplitRoundTrip(parts, '.');
  }

  lemma SplitOfFour(w: string, x: string, y: string, z: string)
    requires '.' !in w && '.' !in x && '.' !in y && '.' !in z
    ensures Split(w + "." + x + "." + y + "." + z, '.') == [w, x, y, z]
  {
    var parts := [w, x, y, z];
    assert parts[1..] == [x, y, z];
    assert parts[1..][1..] == [y, z];
    assert parts[1..][1..][1..] == [z];
    assert Join([z], '.') == z;
    assert Join([y, z], '.') == y + "." + z;
    assert Join([x, y, z], '.') == x + "." + (y + "." + z);
    assert Join(parts, '.') == w + "." + (x + "." + (y + "." + z));
    assert w + "." + x + "." + y + "." + z == w + "." + (x + "." + (y + "." + z));
    JoinSplitRoundTrip(parts, '.');
  }

  lemma DigitsAreDotFree(s: string)
    requires Decimal.AllDigits(s)
    ensures '.' !in s
  {
    forall i | 0 <= i < |s| ensures s[i] != '.' {
      assert Decimal.IsDigit(s[i]);
    }
  }

  /** The app id of a dot-free owner is recovered from its physical topic name. */
  lemma TopicAppidOfKafkaTopic(appid: string, topic: string, ver: string)
    requires '.' !in appid
    ensures TopicAppid(KafkaTopicName(appid, topic, ver)) == appid
  {
    var tail := if |Encode(ver)| > 2 then "." + Decimal.Decimal(Cookie(appid, topic)) else "";
    assert KafkaTopicName(appid, topic, ver) == appid + "." + (topic + "." + ver + tail);
    TopicAppidOfJoin(appid, topic + "." + ver + tail);
  }

  // ---------------------------------------------------------------------
  // Shadow queues

  /** The shadow queue `shadow` that subscriber `myAppid`, in consumer group
      `group`, keeps of `hisAppid`'s topic: the owner's physical name followed
      by the subscriber, the group and the shadow id. The source calls the
      `KafkaTopic` method here; a function cannot call a method, so this uses
      `KafkaTopicName`, which that method is proved to return. */
  function ShadowTopic(shadow: string, myAppid: string, hisAppid: string, topic: string,
                       ver: string, group: string): (r: string)
    ensures var owner := KafkaTopicName(hisAppid, topic, ver);
            && owner + "." <= r
            && r[|owner| + 1..] == myAppid + "." + group + "." + shadow
  {
    var r := KafkaTopicName(hisAppid, topic, ver);
    r + "." + myAppid + "." + group + "." + shadow
  }

  /** The app id recovered from a shadow queue name is the owner's. */
  lemma TopicAppidOfShadowTopic(shadow: string, myAppid: string, hisAppid: string, topic: string,
                                ver: string, group: string)
    requires '.' !in hisAppid
    ensures TopicAppid(ShadowTopic(shadow, myAppid, hisAppid, topic, ver, group)) == hisAppid
  {
    var owner := KafkaTopicName(hisAppid, topic, ver);
    var tail := if |Encode(ver)| > 2 then "." + Decimal.Decimal(Cookie(hisAppid, topic)) else "";
    var rest := topic + "." + ver + tail + "." + myAppid + "." + group + "." + shadow;
    assert ShadowTopic(shadow, myAppid, hisAppid, topic, ver, group) == hisAppid + "." + rest;
    TopicAppidOfJoin(hisAppid, rest);
  }

  /** Two dot-free subscribers never share a shadow queue name for the same
      owner's topic. */
  lemma ShadowTopicSeparatesSubscribers(shadow1: string, my1: string, group1: string,
                                        shadow2: string, my2: string, group2: string,
                                        hisAppid: string, topic: string, ver: string)
    requires '.' !in my1 && '.' !in my2
    requires ShadowTopic(shadow1, my1, hisAppid, topic, ver, group1) ==
             ShadowTopic(shadow2, my2, hisAppid, topic, ver, group2)
    ensures my1 == my2
  {
    var owner := KafkaTopicName(hisAppid, topic, ver);
    var r := ShadowTopic(shadow1, my1, hisAppid, topic, ver, group1);
    assert r[|owner| + 1..] == my1 + "." + (group1 + "." + shadow1);
    assert r[|owner| + 1..] == my2 + "." + (group2 + "." + shadow2);
    JoinInjective(my1, group1 + "." + shadow1, my2, group2 + "." + shadow2, '.');
  }

  // ---------------------------------------------------------------------
  // Name validation

  /** The character class [a-zA-Z0-9\-_] shared by topic and group names. */
  predicate IsNameChar(c: char) {
    c == '_' || c == '-' || ('0' <= c <= '9') || ('a' <= c <= 'z') || ('A' <= c <= 'Z')
  }

  predicate AllNameChars(s: string) {
    forall i :: 0 <= i < |s| ==> IsNameChar(s[i])
  }

  lemma NameCharsAreAscii(s: string)
    ensures AllNameChars(s) ==> |Encode(s)| == |s|
  {
    AsciiLength(s);
  }

  /** The longest run of name characters at the start of `s`. */
  function NameRun(s: string): (r: string)
    ensures r <= s && AllNameChars(r)
    ensures |r| == |s| || !IsNameChar(s[|r|])
  {
    if s != [] && IsNameChar(s[0]) then [s[0]] + NameRun(s[1..]) else []
  }

  /** `r` occurs in `s` at position `k`, no name character comes before `k`,
      and the run cannot be extended to the right. */
  predicate LeftmostRunAt(s: string, k: int, r: string) {
    && 0 <= k && k + |r| <= |s|
    && s[k..k + |r|] == r
    && (forall j :: 0 <= j < k ==> !IsNameChar(s[j]))
    && (k + |r| == |s| || !IsNameChar(s[k + |r|]))
  }

  /** A leftmost run found in `s[1..]` is one in `s` when `s[0]` is no name character. */
  lemma LeftmostRunShift(s: string, k: int, r: string)
    requires s != [] && !IsNameChar(s[0])
    requires LeftmostRunAt(s[1..], k, r)
    ensures LeftmostRunAt(s, k + 1, r)
  {
    assert s[k + 1..k + 1 + |r|] == s[1..][k..k + |r|];
    forall j | 0 <= j < k + 1 ensures !IsNameChar(s[j]) {
      if j > 0 {
        assert s[j] == s[1..][j - 1];
      }
    }
  }

  /** What `regexp.MustCompile("[a-zA-Z0-9\\-_]+").FindString(s)` returns: the
      leftmost match, which (the repetition being greedy) is the whole run of
      name characters starting at the first name character; "" if none. */
  function FindNameRun(s: string): (r: string)
    ensures AllNameChars(r)
    ensures r == [] <==> forall i :: 0 <= i < |s| ==> !IsNameChar(s[i])
    ensures r != [] ==> exists k :: LeftmostRunAt(s, k, r)
    ensures AllNameChars(s) ==> r == s
  {
    if s == [] then []
    else if IsNameChar(s[0]) then
      var r := NameRun(s);
      assert LeftmostRunAt(s, 0, r);
      r
    else
      var r := FindNameRun(s[1..]);
      if r == [] then
        assert forall i :: 1 <= i < |s| ==> s[i] == s[1..][i - 1];
        r
      else
        var k :| LeftmostRunAt(s[1..], k, r);
        LeftmostRunShift(s, k, r);
        r
  }

  /** A topic name is 1 to 64 bytes long and its leftmost match of the name
      pattern is the whole name; equivalently, 1 to 64 characters, all in
      [a-zA-Z0-9\-_]. */
  function ValidateTopicName(topic: string): (ok: bool)
    ensures ok <==> 0 < |topic| <= MaxTopicLen && AllNameChars(topic)
  {
    NameCharsAreAscii(topic);
    var n := |Encode(topic)|;
    n > 0 && n <= MaxTopicLen && FindNameRun(topic) == topic
  }

  /** When a consumer group name is acceptable, given the value of the
      request's X-Origin header ("" when absent). */
  predicate GroupNameAllowed(xOrigin: string, group: string) {
    && |group| > 0
    && AllNameChars(group)
    && (group == SmoketestGroup ==> xOrigin == SmoketestOrigin)
  }

  /** Checks a consumer group name character by character, rejecting as soon
      as one falls outside the name class, then applies the smoke-test rule. */
  method ValidateGroupName(xOrigin: string, group: string) returns (ok: bool)
    ensures ok <==> GroupNameAllowed(xOrigin, group)
  {
    if |group| == 0 {
      return false;
    }
    var i := 0;
    while i < |group|
      invariant 0 <= i <= |group|
      invariant forall j :: 0 <= j < i ==> IsNameChar(group[j])
    {
      var c := group[i];
      if !(c == '_' || c == '-' || ('0' <= c <= '9') || ('a' <= c <= 'z') || ('A' <= c <= 'Z')) {
        return false;
      }
      i := i + 1;
    }
    if group == SmoketestGroup && xOrigin != SmoketestOrigin {
      return false;
    }
    return true;
  }

  /** The smoke-test group is well formed, so only the header decides it. */
  lemma SmoketestGroupNeedsOrigin(xOrigin: string)
    ensures GroupNameAllowed(xOrigin, SmoketestGroup) <==> xOrigin == SmoketestOrigin
  {
    assert AllNameChars(SmoketestGroup) by {
      forall i | 0 <= i < |SmoketestGroup| ensures IsNameChar(SmoketestGroup[i]) {
      }
    }
  }

  /** Apart from the smoke-test rule and the length cap, group and topic names
      obey the same rule. */
  lemma GroupAndTopicNamesAgree(xOrigin: string, name: string)
    requires |name| <= MaxTopicLen && name != SmoketestGroup
    ensures GroupNameAllowed(xOrigin, name) <==> ValidateTopicName(name)
  {
  }
}
