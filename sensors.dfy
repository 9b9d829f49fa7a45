/**
 * One (device, sensor) pair the bridge has heard from (func.py:38-53),
 * and the messages published about it.
 *
 * The identity of a sensor (its device id, name, type and flat names) is
 * fixed at construction and never reassigned, so it is `const` here; the
 * value, the `configured` flag and the last-update stamp change in place.
 * Time is a whole number of seconds passed in by the caller.
 */
module Sensors {
  import opened Options
  import opened Strings
  import opened Kinds
  import opened Topics

  /** The change event `Sensor.update` logs (func.py:51). */
  datatype ValueChange = ValueChange(typeName: string, sensorName: string, from: string, to: string)

  /** The log entry of an update from `from` to `to`: one exactly when the value changes. */
  function ChangeEvent(typeName: string, sensorName: string, from: string, to: string): (e: Option<ValueChange>)
    ensures e.None? <==> from == to
    ensures e.Some? ==> e.value == ValueChange(typeName, sensorName, from, to)
  {
    if from != to then Some(ValueChange(typeName, sensorName, from, to)) else None
  }

  class Sensor {
    const deviceId: string
    const sensorName: string
    const sensorType: SensorType
    const sensorFlatName: string
    const deviceFlatName: string
    var sensorValue: string
    var configured: bool
    var lastUpdated: Option<int>

    /** func.py:39-47: the flat names are derived once, the stamp starts unset. */
    constructor (deviceId: string, sensorName: string, sensorValue: string, sensorType: SensorType, configured: bool)
      ensures this.deviceId == deviceId && this.sensorName == sensorName
      ensures this.sensorValue == sensorValue && this.sensorType == sensorType
      ensures this.configured == configured && lastUpdated == None
      ensures sensorFlatName == FlatName(sensorName) && deviceFlatName == FlatName(deviceId)
    {
      this.deviceId := deviceId;
      this.sensorName := sensorName;
      this.sensorValue := sensorValue;
      this.sensorType := sensorType;
      this.configured := configured;
      this.sensorFlatName := FlatName(sensorName);
      this.deviceFlatName := FlatName(deviceId);
      this.lastUpdated := None;
    }

    /** The registry key of a sensor. */
    function Key(): (string, string)
    {
      (deviceId, sensorName)
    }

    /**
     * `Sensor.update` (func.py:49-53): the value is replaced and the stamp
     * set to `now`; a change event is returned exactly when the new value
     * differs from the old one.
     */
    method Update(value: string, now: int) returns (event: Option<ValueChange>)
      modifies this`sensorValue, this`lastUpdated
      ensures sensorValue == value && lastUpdated == Some(now)
      ensures event == ChangeEvent(sensorType.name, sensorName, old(sensorValue), value)
    {
      if sensorValue != value {
        event := Some(ValueChange(sensorType.name, sensorName, sensorValue, value));
      } else {
        event := None;
      }
      sensorValue := value;
      lastUpdated := Some(now);
    }
  }

  /**
   * The flat names of a sensor are those of its own device id and name
   * (func.py:45-46); every topic of the sensor is built from them.
   */
  predicate Named(s: Sensor)
  {
    s.deviceFlatName == FlatName(s.deviceId) && s.sensorFlatName == FlatName(s.sensorName)
  }

  /** Every sensor of `ss` has the flat names of its own id and name. */
  predicate AllNamed(ss: seq<Sensor>)
  {
    forall k {:trigger Named(ss[k])} :: 0 <= k < |ss| ==> Named(ss[k])
  }

  /** Appending a sensor with its own flat names keeps every sensor named. */
  lemma AllNamedAppend(ss: seq<Sensor>, s: Sensor)
    requires AllNamed(ss) && Named(s)
    ensures AllNamed(ss + [s])
  {
    forall k | 0 <= k < |ss| + 1 ensures Named((ss + [s])[k]) {
      if k < |ss| { assert (ss + [s])[k] == ss[k] && Named(ss[k]); }
    }
  }

  /** Taking one sensor out keeps every sensor named. */
  lemma AllNamedRemove(ss: seq<Sensor>, k: nat)
    requires AllNamed(ss) && k < |ss|
    ensures AllNamed(ss[..k] + ss[k + 1..])
  {
    var r := ss[..k] + ss[k + 1..];
    forall j | 0 <= j < |r| ensures Named(r[j]) {
      if j < k { assert r[j] == ss[j] && Named(ss[j]); } else { assert r[j] == ss[j + 1] && Named(ss[j + 1]); }
    }
  }

  /** The discovery message of `configure_sensor` (func.py:200). */
  function ConfigMessage(s: Sensor): Message
  {
    Message(EntityTopic(DiscoveryKind(s.sensorType), s.deviceFlatName, s.sensorFlatName, "config"),
            Discovery(DiscoveryPayload(s.sensorType, s.deviceId, s.sensorName, s.deviceFlatName, s.sensorFlatName)))
  }

  /** The availability message of `update_sensor` (func.py:230). */
  function OnlineMessage(s: Sensor): Message
  {
    Message(AvailabilityTopic(s.deviceFlatName, s.sensorFlatName), Text("online"))
  }

  /** The availability message of `sensor_offline` (func.py:210). */
  function OfflineMessage(s: Sensor): Message
  {
    Message(AvailabilityTopic(s.deviceFlatName, s.sensorFlatName), Text("offline"))
  }

  /** The single-key state message of `update_sensor` (func.py:220-222, func.py:231). */
  function StateMessage(s: Sensor, value: string): Message
  {
    Message(EntityTopic(StateKind(s.sensorType), s.deviceFlatName, s.sensorFlatName, "state"),
            Object(map[s.sensorFlatName := JStr(value)]))
  }

  /** The command relayed to the device's own command topic (func.py:151). */
  function RelayMessage(s: Sensor, data: string): Message
    requires s.sensorType.commandTopic.Some?
  {
    Message(s.sensorType.commandTopic.value, Text(s.deviceId + "|" + s.sensorName + "|" + data))
  }

  /**
   * The availability publishes of `update_sensor` and `sensor_offline` go
   * to the availability topic the discovery payload announces, with the
   * payloads it names as available and not available.
   */
  lemma AvailabilityAgreesWithDiscovery(s: Sensor)
    ensures var p := ConfigMessage(s).payload.config;
      && AvailabilityTopicKey in p && PayloadAvailableKey in p && PayloadNotAvailableKey in p
      && p[AvailabilityTopicKey] == JStr(OnlineMessage(s).topic)
      && OfflineMessage(s).topic == OnlineMessage(s).topic
      && p[PayloadAvailableKey] == JStr(OnlineMessage(s).payload.text)
      && p[PayloadNotAvailableKey] == JStr(OfflineMessage(s).payload.text)
  {
    DiscoveryPayloadShape(s.sensorType, s.deviceId, s.sensorName, s.deviceFlatName, s.sensorFlatName);
  }

  /**
   * The state publish reaches the state topic the discovery payload
   * announces exactly when the two classifiers agree on the kind; where
   * they differ the hub listens on a topic the bridge never publishes to.
   */
  lemma StateTopicAgreesWithDiscovery(s: Sensor, value: string)
    ensures var p := ConfigMessage(s).payload.config;
      && StateTopicKey in p
      && (p[StateTopicKey] == JStr(StateMessage(s, value).topic) <==> StateKind(s.sensorType) == DiscoveryKind(s.sensorType))
  {
    var t, d, n := s.sensorType, s.deviceFlatName, s.sensorFlatName;
    DiscoveryPayloadShape(t, s.deviceId, s.sensorName, d, n);
    var p := ConfigMessage(s).payload.config;
    if p[StateTopicKey] == JStr(StateMessage(s, value).topic) {
      EntityTopicDeterminesKind(DiscoveryKind(t), d, n, "state", StateKind(t), d, n, "state");
    }
  }

  /**
   * The state payload has the single key that the discovery payload's
   * value template reads, holding the published value.
   */
  lemma StateMatchesValueTemplate(s: Sensor, value: string)
    ensures var f := StateMessage(s, value).payload.fields;
      && (forall k :: k in f <==> k == s.sensorFlatName)
      && f[s.sensorFlatName] == JStr(value)
    ensures var p := ConfigMessage(s).payload.config;
      ValueTemplateKey in p && p[ValueTemplateKey] == JStr("{{ value_json." + s.sensorFlatName + " }}")
  {
    DiscoveryPayloadShape(s.sensorType, s.deviceId, s.sensorName, s.deviceFlatName, s.sensorFlatName);
  }

  /**
   * A relayed command is in the bridge's own reading format: when no
   * field holds a `|`, the device splits it back into id, name and data.
   */
  lemma RelayPayloadSplits(s: Sensor, data: string)
    requires s.sensorType.commandTopic.Some?
    requires '|' !in s.deviceId && '|' !in s.sensorName && '|' !in data
    ensures Split(RelayMessage(s, data).payload.text, '|') == [s.deviceId, s.sensorName, data]
  {
    var parts := [s.deviceId, s.sensorName, data];
    assert Join("|", parts) == s.deviceId + "|" + s.sensorName + "|" + data by {
      assert parts[1..][1..] == [data];
      assert Join("|", parts[1..]) == s.sensorName + "|" + data;
    }
    SplitJoin(parts, '|');
  }

  /** The offline messages for `removed`, in order. */
  function OfflineMessages(removed: seq<Sensor>): seq<Message>
  {
    if removed == [] then []
    else OfflineMessages(removed[..|removed| - 1]) + [OfflineMessage(removed[|removed| - 1])]
  }

  /** The offline messages of two batches of removals, one after the other. */
  lemma OfflineMessagesAppend(outbox: seq<Message>, a: seq<Sensor>, b: seq<Sensor>)
    ensures outbox + OfflineMessages(a + b) == outbox + OfflineMessages(a) + OfflineMessages(b)
  {
    OfflineMessagesConcat(a, b);
  }

  lemma {:induction false} OfflineMessagesConcat(a: seq<Sensor>, b: seq<Sensor>)
    ensures OfflineMessages(a + b) == OfflineMessages(a) + OfflineMessages(b)
  {
    if b == [] {
      assert a + b == a;
    } else {
      var init := b[..|b| - 1];
      OfflineMessagesConcat(a, init);
      assert (a + b)[..|a + b| - 1] == a + init;
    }
  }

  /** One offline message per removed sensor, in removal order. */
  lemma {:induction false} OfflineMessagesEach(removed: seq<Sensor>)
    ensures |OfflineMessages(removed)| == |removed|
    ensures forall k :: 0 <= k < |removed| ==> OfflineMessages(removed)[k] == OfflineMessage(removed[k])
  {
    if removed != [] {
      OfflineMessagesEach(removed[..|removed| - 1]);
    }
  }

  /** No two sensors share a registry key, so no sensor occurs twice. */
  ghost predicate DistinctKeys(ss: seq<Sensor>)
  {
    forall i, j :: 0 <= i < j < |ss| ==> ss[i].Key() != ss[j].Key()
  }

  /**
   * The registry invariant, stated the way the registry grows: the key of
   * each sensor is not found among the sensors before it.
   */
  predicate UniqueKeys(ss: seq<Sensor>)
  {
    ss == [] || (UniqueKeys(ss[..|ss| - 1]) && KeyAbsent(ss[..|ss| - 1], ss[|ss| - 1].Key()))
  }

  /** No sensor of `ss` has the key `key`. */
  predicate KeyAbsent(ss: seq<Sensor>, key: (string, string))
  {
    ss == [] || (ss[|ss| - 1].Key() != key && KeyAbsent(ss[..|ss| - 1], key))
  }

  /** Absence of a key is what the lookup reports as not found. */
  lemma {:induction false} KeyAbsentLookup(ss: seq<Sensor>, deviceId: string, sensorName: string)
    ensures KeyAbsent(ss, (deviceId, sensorName)) <==> forall i :: 0 <= i < |ss| ==> ss[i].Key() != (deviceId, sensorName)
  {
    if ss != [] {
      var init := ss[..|ss| - 1];
      KeyAbsentLookup(init, deviceId, sensorName);
      assert forall i :: 0 <= i < |init| ==> init[i] == ss[i];
    }
  }

  /** The position of the first sensor with the given key, if any (func.py:131-137). */
  function Lookup(ss: seq<Sensor>, deviceId: string, sensorName: string): (r: Option<nat>)
    ensures r.None? <==> forall i :: 0 <= i < |ss| ==> ss[i].Key() != (deviceId, sensorName)
    ensures r.Some? ==> r.value < |ss| && ss[r.value].Key() == (deviceId, sensorName)
    ensures r.Some? ==> forall i :: 0 <= i < r.value ==> ss[i].Key() != (deviceId, sensorName)
  {
    if ss == [] then None
    else if ss[0].Key() == (deviceId, sensorName) then Some(0)
    else match Lookup(ss[1..], deviceId, sensorName)
      case None => None
      case Some(k) => Some(k + 1)
  }

  /** The position `list.remove` takes a sensor out of: its first occurrence. */
  function IndexOf(ss: seq<Sensor>, s: Sensor): (k: nat)
    requires s in ss
    ensures k < |ss| && ss[k] == s
    ensures forall i :: 0 <= i < k ==> ss[i] != s
  {
    if ss[0] == s then 0 else 1 + IndexOf(ss[1..], s)
  }

  /** In a registry with unique keys a sensor is found where it stands. */
  lemma UniqueIndex(ss: seq<Sensor>, k: nat)
    requires UniqueKeys(ss) && k < |ss|
    ensures IndexOf(ss, ss[k]) == k
    ensures Lookup(ss, ss[k].deviceId, ss[k].sensorName) == Some(k)
    ensures forall j :: 0 <= j < |ss| && j != k ==> ss[j] != ss[k]
  {
    UniqueKeysDistinct(ss);
  }

  /** Taking one sensor out keeps the keys unique. */
  lemma UniqueKeysRemove(ss: seq<Sensor>, k: nat)
    requires UniqueKeys(ss) && k < |ss|
    ensures UniqueKeys(ss[..k] + ss[k + 1..])
  {
    UniqueKeysDistinct(ss);
    DistinctKeysRemove(ss, k);
    UniqueKeysDistinct(ss[..k] + ss[k + 1..]);
  }

  /** Taking one sensor out keeps the keys pairwise distinct. */
  lemma DistinctKeysRemove(ss: seq<Sensor>, k: nat)
    requires DistinctKeys(ss) && k < |ss|
    ensures DistinctKeys(ss[..k] + ss[k + 1..])
  {
    var r := ss[..k] + ss[k + 1..];
    forall i, j | 0 <= i < j < |r| ensures r[i].Key() != r[j].Key() {
      var i', j' := if i < k then i else i + 1, if j < k then j else j + 1;
      assert r[i] == ss[i'] && r[j] == ss[j'];
    }
  }

  /** Appending a sensor whose key is unseen keeps the keys unique. */
  lemma UniqueKeysAppend(ss: seq<Sensor>, s: Sensor)
    requires UniqueKeys(ss)
    requires Lookup(ss, s.deviceId, s.sensorName).None?
    ensures UniqueKeys(ss + [s])
  {
    assert (ss + [s])[..|ss|] == ss;
    KeyAbsentLookup(ss, s.deviceId, s.sensorName);
  }

  /** The growth form of the invariant says exactly that keys are pairwise distinct. */
  lemma {:induction false} UniqueKeysDistinct(ss: seq<Sensor>)
    ensures UniqueKeys(ss) <==> DistinctKeys(ss)
  {
    if ss != [] {
      var init := ss[..|ss| - 1];
      UniqueKeysDistinct(init);
      KeyAbsentLookup(init, ss[|ss| - 1].deviceId, ss[|ss| - 1].sensorName);
      assert forall i :: 0 <= i < |init| ==> init[i] == ss[i];
    }
  }

  /**
   * In a registry with unique keys, `list.remove` of the sensor standing
   * between `a` and `b` finds it there and leaves `a + b`.
   */
  lemma RemoveBetween(ss: seq<Sensor>, a: seq<Sensor>, s: Sensor, b: seq<Sensor>)
    requires UniqueKeys(ss) && ss == a + ([s] + b)
    ensures s in ss && IndexOf(ss, s) == |a|
    ensures ss[..IndexOf(ss, s)] + ss[IndexOf(ss, s) + 1..] == a + b
  {
    assert ss[|a|] == s;
    UniqueIndex(ss, |a|);
    assert ss[..|a|] == a && ss[|a| + 1..] == b;
  }
}
