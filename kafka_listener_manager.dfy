/**
 * RuntimeKafkaListenerManager: the registry of the Kafka consumers the
 * mock server starts at run time, one per broker url, topic and consumer
 * group, under the key `url|topic|group`. A container is an object with a
 * running flag, the topic it consumes, the consumer configuration it was
 * built with and the broker id its message handler passes on; what the
 * Kafka client does inside it is not modelled.
 */
module RuntimeKafkaListenerManager {
  import opened JavaLang

  const SEPARATOR: char := '|'
  const BEAN_PREFIX: string := "runtime-kafka-"
  const STRING_DESERIALIZER: string := "org.apache.kafka.common.serialization.StringDeserializer"
  const OFFSET_RESET: string := "latest"

  /** The consumer configuration `listenerProps` builds. */
  datatype ConsumerProps = ConsumerProps(
    bootstrapServers: Option<string>,
    groupId: Option<string>,
    keyDeserializer: string,
    valueDeserializer: string,
    autoOffsetReset: string,
    enableAutoCommit: bool)

  /** One entry of `getActiveListeners`. */
  datatype ActiveListener = ActiveListener(brokerUrl: string, topic: string, groupId: string, running: bool)

  /** The call a container's message listener makes for one record: `handle(brokerId, topic, value)`. */
  datatype HandlerCall = HandlerCall(brokerId: Option<string>, topic: string, message: Option<string>)

  /** `key`: string concatenation, so a null part reads "null". */
  function Key(brokerUrl: Option<string>, topic: Option<string>, groupId: Option<string>): string {
    FormatNullable(brokerUrl) + [SEPARATOR] + FormatNullable(topic) + [SEPARATOR] + FormatNullable(groupId)
  }

  /** `listenerProps`: bootstrap servers and group as given, String deserializers, newest offset, auto-commit on. */
  function ListenerProps(brokerUrl: Option<string>, groupId: Option<string>): (p: ConsumerProps)
    ensures p.bootstrapServers == brokerUrl && p.groupId == groupId
    ensures p.keyDeserializer == STRING_DESERIALIZER && p.valueDeserializer == STRING_DESERIALIZER
    ensures p.autoOffsetReset == "latest" && p.enableAutoCommit
  {
    ConsumerProps(brokerUrl, groupId, STRING_DESERIALIZER, STRING_DESERIALIZER, OFFSET_RESET, true)
  }

  /**
   * String.split with a one-character, non-special delimiter and a
   * positive limit: the delimiter is applied at most limit - 1 times, the
   * last part holds the rest of the input, and empty parts are kept.
   */
  function SplitLimit(s: string, c: char, limit: nat): (parts: seq<string>)
    requires limit >= 1
    ensures 1 <= |parts| <= limit
    ensures forall i | 0 <= i < |parts| - 1 :: c !in parts[i]
    decreases limit
  {
    var k := IndexOf(s, c);
    if limit == 1 || k == -1 then [s] else [s[..k]] + SplitLimit(s[k + 1..], c, limit - 1)
  }

  /** The entry `getActiveListeners` makes of a key: its first three `|`-separated parts. */
  function Listed(key: string, running: bool): (a: Result<ActiveListener>)
    ensures a.Ok? <==> |SplitLimit(key, SEPARATOR, 3)| == 3
    ensures a.Ok? ==>
      a.value.running == running && SplitLimit(key, SEPARATOR, 3) == [a.value.brokerUrl, a.value.topic, a.value.groupId]
    ensures a.Err? ==> a.error == IndexOutOfBounds
  {
    var parts := SplitLimit(key, SEPARATOR, 3);
    if |parts| < 3 then Err(IndexOutOfBounds) else Ok(ActiveListener(parts[0], parts[1], parts[2], running))
  }

  /** A started message listener container. */
  class Container {
    const topic: Option<string>
    const props: ConsumerProps
    const brokerId: Option<string>
    const beanName: string
    var running: bool

    /** The container is built, named and started. */
    constructor (topic: Option<string>, props: ConsumerProps, brokerId: Option<string>, beanName: string)
      ensures this.topic == topic && this.props == props && this.brokerId == brokerId && this.beanName == beanName
      ensures running
    {
      this.topic := topic;
      this.props := props;
      this.brokerId := brokerId;
      this.beanName := beanName;
      running := true;
    }

    /** `container.stop()`. */
    method Stop()
      modifies this
      ensures !running
    {
      running := false;
    }

    /** The message listener: the broker id it was started with, and the record's topic and value. */
    method Deliver(recordTopic: string, recordValue: Option<string>) returns (call: HandlerCall)
      ensures call.brokerId == brokerId && call.topic == recordTopic && call.message == recordValue
    {
      call := HandlerCall(brokerId, recordTopic, recordValue);
    }
  }

  class Manager {
    var containers: map<string, Container>

    /**
     * Every registered container runs, no container is registered twice,
     * and every key splits into url, topic and group.
     */
    ghost predicate Valid()
      reads this, containers.Values
    {
      (forall k | k in containers :: containers[k].running)
      && (forall k, k' | k in containers && k' in containers && k != k' :: containers[k] != containers[k'])
      && (forall k | k in containers :: |SplitLimit(k, SEPARATOR, 3)| == 3)
    }

    constructor ()
      ensures Valid() && containers == map[]
    {
      containers := map[];
    }

    /**
     * `start`: a key that is already registered changes nothing, whatever
     * broker id comes with it; otherwise one new, running container for
     * the topic, configured for the url and group, is registered under it.
     */
    method Start(brokerUrl: Option<string>, brokerId: Option<string>, topic: Option<string>, groupId: Option<string>)
      requires Valid()
      modifies this
      ensures Valid()
      ensures Key(brokerUrl, topic, groupId) in old(containers) ==> containers == old(containers)
      ensures Key(brokerUrl, topic, groupId) !in old(containers) ==>
        var k := Key(brokerUrl, topic, groupId);
        k in containers && containers == old(containers)[k := containers[k]] && fresh(containers[k])
        && containers[k].running && containers[k].topic == topic && containers[k].brokerId == brokerId
        && containers[k].props == ListenerProps(brokerUrl, groupId) && containers[k].beanName == BEAN_PREFIX + k
    {
      var key := Key(brokerUrl, topic, groupId);
      if key in containers {
        return;
      }
      var props := ListenerProps(brokerUrl, groupId);
      var container := new Container(topic, props, brokerId, BEAN_PREFIX + key);
      KeySplits(brokerUrl, topic, groupId);
      containers := containers[key := container];
    }

    /**
     * `stop`: the key's container is removed and stopped; an absent key
     * changes nothing.
     */
    method Stop(brokerUrl: Option<string>, topic: Option<string>, groupId: Option<string>)
      requires Valid()
      modifies this, if Key(brokerUrl, topic, groupId) in containers then {containers[Key(brokerUrl, topic, groupId)]} else {}
      ensures Valid()
      ensures containers == old(containers) - {Key(brokerUrl, topic, groupId)}
      ensures Key(brokerUrl, topic, groupId) in old(containers) ==> !old(containers)[Key(brokerUrl, topic, groupId)].running
    {
      var key := Key(brokerUrl, topic, groupId);
      var container := Remove(key);
      if container == null {
        return;
      }
      container.Stop();
    }

    /** `containers.remove(key)`: the removed container, or null when the key is absent. */
    method Remove(key: string) returns (c: Container?)
      modifies this
      ensures containers == old(containers) - {key}
      ensures c == if key in old(containers) then old(containers)[key] else null
    {
      c := if key in containers then containers[key] else null;
      containers := containers - {key};
    }

    /**
     * `getActiveListeners`: one entry per registered key, in the map's
     * iteration order, which is left open here. Each entry is the split of
     * its key, so joining its parts back gives a registered key, and each
     * container runs.
     */
    method GetActiveListeners() returns (r: seq<ActiveListener>)
      requires Valid()
      ensures |r| == |containers|
      ensures forall k | k in containers :: Listed(k, true).Ok? && Listed(k, true).value in r
      ensures forall a | a in r :: a.running && Joined(a) in containers
    {
      var keys := InSomeOrder(containers.Keys);
      r := ListEntries(keys, containers);
      ListingCoversKeys(keys, containers.Keys, r);
    }
  }

  /** The stream's `map` step: each key's split, with its container's running flag. */
  method ListEntries(keys: seq<string>, registry: map<string, Container>) returns (r: seq<ActiveListener>)
    requires forall i | 0 <= i < |keys| :: keys[i] in registry
    requires forall i | 0 <= i < |keys| :: registry[keys[i]].running && |SplitLimit(keys[i], SEPARATOR, 3)| == 3
    ensures |r| == |keys| && forall j | 0 <= j < |keys| :: Listed(keys[j], true) == Ok(r[j])
  {
    r := [];
    for i := 0 to |keys|
      invariant |r| == i
      invariant forall j | 0 <= j < i :: Listed(keys[j], true) == Ok(r[j])
    {
      var entry := Listed(keys[i], registry[keys[i]].running);
      ghost var prev := r;
      r := r + [entry.value];
      assert forall j | 0 <= j < i + 1 :: Listed(keys[j], true) == Ok(r[j]) by {
        forall j | 0 <= j < i + 1
          ensures Listed(keys[j], true) == Ok(r[j])
        {
          if j < i { assert r[j] == prev[j]; }
        }
      }
    }
  }

  /**
   * A listing made entry by entry from an enumeration of the keys has an
   * entry for every key, and every entry joins back to a key.
   */
  lemma ListingCoversKeys(keys: seq<string>, registered: set<string>, r: seq<ActiveListener>)
    requires (forall k | k in registered :: k in keys) && (forall i | 0 <= i < |keys| :: keys[i] in registered)
    requires |r| == |keys| && forall j | 0 <= j < |keys| :: Listed(keys[j], true) == Ok(r[j])
    ensures forall k | k in registered :: Listed(k, true).Ok? && Listed(k, true).value in r
    ensures forall a | a in r :: a.running && Joined(a) in registered
  {
    forall k | k in registered
      ensures Listed(k, true).Ok? && Listed(k, true).value in r
    {
      var j :| 0 <= j < |keys| && keys[j] == k;
      assert Listed(k, true) == Ok(r[j]);
    }
    forall a | a in r
      ensures a.running && Joined(a) in registered
    {
      var j :| 0 <= j < |r| && r[j] == a;
      ListedJoinsBack(keys[j], true);
    }
  }

  /** An entry's parts joined back with `|`. */
  function Joined(a: ActiveListener): string {
    JoinWith([a.brokerUrl, a.topic, a.groupId], SEPARATOR)
  }

  /** String.join: the parts with one `c` between each two. */
  function JoinWith(parts: seq<string>, c: char): string
    decreases |parts|
  {
    if parts == [] then [] else if |parts| == 1 then parts[0] else parts[0] + [c] + JoinWith(parts[1..], c)
  }

  /** Joining the parts of a split with its delimiter gives the string back. */
  lemma {:induction false} SplitThenJoin(s: string, c: char, limit: nat)
    requires limit >= 1
    ensures JoinWith(SplitLimit(s, c, limit), c) == s
    decreases limit
  {
    var k := IndexOf(s, c);
    if limit > 1 && k != -1 {
      var tail := SplitLimit(s[k + 1..], c, limit - 1);
      SplitThenJoin(s[k + 1..], c, limit - 1);
      var parts := [s[..k]] + tail;
      assert parts[1..] == tail;
      assert s == s[..k] + [c] + s[k + 1..];
    }
  }

  /** Splitting a key and joining the parts back gives the key. */
  lemma ListedJoinsBack(key: string, running: bool)
    requires Listed(key, running).Ok?
    ensures Joined(Listed(key, running).value) == key
  {
    SplitThenJoin(key, SEPARATOR, 3);
  }

  /** A string with the delimiter splits in two under limit 2. */
  lemma SplitsInTwo(s: string, c: char)
    requires c in s
    ensures |SplitLimit(s, c, 2)| == 2
  {
  }

  /** The first `|` of a key is at most at the end of its url part. */
  lemma KeyFirstSeparator(u: string, rest: string)
    ensures var k := IndexOf(u + [SEPARATOR] + rest, SEPARATOR);
      0 <= k <= |u| && (k == |u| <==> SEPARATOR !in u)
  {
    if SEPARATOR in u {
      assert u + [SEPARATOR] + rest == u + ([SEPARATOR] + rest);
      IndexOfWithin(u, SEPARATOR, [SEPARATOR] + rest);
    } else {
      IndexOfAfter(u, SEPARATOR, rest);
    }
  }

  /** A key built by `key` always splits into three parts. */
  lemma KeySplits(brokerUrl: Option<string>, topic: Option<string>, groupId: Option<string>)
    ensures |SplitLimit(Key(brokerUrl, topic, groupId), SEPARATOR, 3)| == 3
  {
    var u, t, g := FormatNullable(brokerUrl), FormatNullable(topic), FormatNullable(groupId);
    var rest := t + [SEPARATOR] + g;
    var key := u + [SEPARATOR] + rest;
    assert Key(brokerUrl, topic, groupId) == key;
    KeyFirstSeparator(u, rest);
    var k := IndexOf(key, SEPARATOR);
    assert key[k + 1..][|u| - k + |t|] == SEPARATOR;
    SplitsInTwo(key[k + 1..], SEPARATOR);
  }

  /** A string with no `c` followed by `c` splits off as the first part. */
  lemma SplitAtFirst(a: string, c: char, b: string, limit: nat)
    requires c !in a && limit >= 2
    ensures SplitLimit(a + [c] + b, c, limit) == [a] + SplitLimit(b, c, limit - 1)
  {
    var s := a + [c] + b;
    IndexOfAfter(a, c, b);
    assert s[..|a|] == a && s[|a| + 1..] == b;
  }

  /** Three parts joined with `|` split back into them when the first two contain no `|`. */
  lemma SplitsIntoParts(u: string, t: string, g: string)
    requires SEPARATOR !in u && SEPARATOR !in t
    ensures SplitLimit(u + [SEPARATOR] + t + [SEPARATOR] + g, SEPARATOR, 3) == [u, t, g]
  {
    var rest := t + [SEPARATOR] + g;
    assert u + [SEPARATOR] + t + [SEPARATOR] + g == u + [SEPARATOR] + rest;
    SplitAtFirst(u, SEPARATOR, rest, 3);
    SplitAtFirst(t, SEPARATOR, g, 2);
  }

  /**
   * Splitting a key recovers the url, the topic and the group exactly when
   * neither the url nor the topic contains `|`.
   */
  lemma KeySplitRecoversParts(brokerUrl: Option<string>, topic: Option<string>, groupId: Option<string>)
    ensures var u, t, g := FormatNullable(brokerUrl), FormatNullable(topic), FormatNullable(groupId);
      SplitLimit(Key(brokerUrl, topic, groupId), SEPARATOR, 3) == [u, t, g] <==> SEPARATOR !in u && SEPARATOR !in t
  {
    var u, t, g := FormatNullable(brokerUrl), FormatNullable(topic), FormatNullable(groupId);
    var parts := SplitLimit(Key(brokerUrl, topic, groupId), SEPARATOR, 3);
    assert |parts| == 3 ==> SEPARATOR !in parts[0] && SEPARATOR !in parts[1];
    if SEPARATOR !in u && SEPARATOR !in t {
      SplitsIntoParts(u, t, g);
    }
  }

  /** Whatever the broker id, a key's entry in the listing is its url, topic and group when they contain no `|`. */
  lemma ListedKeyNamesItsParts(brokerUrl: string, topic: string, groupId: string, running: bool)
    requires SEPARATOR !in brokerUrl && SEPARATOR !in topic
    ensures Listed(Key(Some(brokerUrl), Some(topic), Some(groupId)), running)
      == Ok(ActiveListener(brokerUrl, topic, groupId, running))
  {
    KeySplitRecoversParts(Some(brokerUrl), Some(topic), Some(groupId));
  }

  /** A registration followed by the removal of the same fresh key leaves the registry as it was. */
  lemma StartThenStopRestores(registry: map<string, Container>, key: string, c: Container)
    requires key !in registry
    ensures registry[key := c] - {key} == registry
  {
  }
}
