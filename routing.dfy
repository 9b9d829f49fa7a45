/**
 * Command routing (func.py:147-155): a hub command on a sensor's
 * `homeassistant/{switch|select|number}/{deviceFlat}/{sensorFlat}/set`
 * topic is relayed to the sensor type's own command topic as
 * `{deviceId}|{sensorName}|{data}`. Every sensor is compared with all
 * three shapes; nothing stops the loop at the first match.
 */
module Routing {
  import opened Strings
  import opened Kinds
  import opened Topics
  import opened Sensors

  /** One of the three tests of func.py:150, 152 and 154. */
  predicate ShapeMatches(s: Sensor, k: Kind, topic: string)
  {
    EntityTopic(k, s.deviceFlatName, s.sensorFlatName, "set") == topic && StrTruthy(s.sensorType.commandTopic)
  }

  /** What the loop body publishes for one sensor, test by test. */
  function SensorRelays(s: Sensor, topic: string, data: string): seq<Message>
  {
    (if ShapeMatches(s, Switch, topic) then [RelayMessage(s, data)] else [])
    + (if ShapeMatches(s, Select, topic) then [RelayMessage(s, data)] else [])
    + (if ShapeMatches(s, Number, topic) then [RelayMessage(s, data)] else [])
  }

  /** The sensor owns the topic as one of its three command shapes and has a command topic. */
  predicate RoutesTo(s: Sensor, topic: string)
  {
    && StrTruthy(s.sensorType.commandTopic)
    && (|| topic == EntityTopic(Switch, s.deviceFlatName, s.sensorFlatName, "set")
        || topic == EntityTopic(Select, s.deviceFlatName, s.sensorFlatName, "set")
        || topic == EntityTopic(Number, s.deviceFlatName, s.sensorFlatName, "set"))
  }

  /**
   * The three tests can hold at most one at a time, since each shape
   * spells out its kind: a sensor relays a command once when it owns
   * the topic, and not at all otherwise.
   */
  lemma SensorRelaysAtMostOnce(s: Sensor, topic: string, data: string)
    ensures SensorRelays(s, topic, data) == if RoutesTo(s, topic) then [RelayMessage(s, data)] else []
  {
    var d, n := s.deviceFlatName, s.sensorFlatName;
    if ShapeMatches(s, Switch, topic) && ShapeMatches(s, Select, topic) {
      EntityTopicDeterminesKind(Switch, d, n, "set", Select, d, n, "set");
    }
    if ShapeMatches(s, Switch, topic) && ShapeMatches(s, Number, topic) {
      EntityTopicDeterminesKind(Switch, d, n, "set", Number, d, n, "set");
    }
    if ShapeMatches(s, Select, topic) && ShapeMatches(s, Number, topic) {
      EntityTopicDeterminesKind(Select, d, n, "set", Number, d, n, "set");
    }
  }

  /**
   * The command topic a discovery payload announces is one the sensor
   * relays from exactly when its type has a command topic.
   */
  lemma DiscoveredCommandTopicRoutes(s: Sensor)
    requires DiscoveryKind(s.sensorType) != PlainSensor
    ensures var p := ConfigMessage(s).payload.config;
      && CommandTopicKey in p && p[CommandTopicKey].JStr?
      && (RoutesTo(s, p[CommandTopicKey].s) <==> StrTruthy(s.sensorType.commandTopic))
  {
    DiscoveryPayloadShape(s.sensorType, s.deviceId, s.sensorName, s.deviceFlatName, s.sensorFlatName);
  }

  /**
   * A command on a `.../set` topic built from a sensor's own device id and
   * name is relayed once by that sensor, when its type has a command topic.
   */
  lemma CommandForKeyRelays(s: Sensor, k: Kind, data: string)
    requires Named(s) && k != PlainSensor && StrTruthy(s.sensorType.commandTopic)
    ensures SensorRelays(s, EntityTopic(k, FlatName(s.deviceId), FlatName(s.sensorName), "set"), data) == [RelayMessage(s, data)]
  {
    SensorRelaysAtMostOnce(s, EntityTopic(k, FlatName(s.deviceId), FlatName(s.sensorName), "set"), data);
  }

  /** Everything the command branch publishes for the registry `ss`, in registry order. */
  function CommandRelays(ss: seq<Sensor>, topic: string, data: string): seq<Message>
  {
    if ss == [] then []
    else CommandRelays(ss[..|ss| - 1], topic, data) + SensorRelays(ss[|ss| - 1], topic, data)
  }

  /** Visiting one more sensor of the registry appends what that sensor relays. */
  lemma CommandRelaysStep(ss: seq<Sensor>, i: nat, topic: string, data: string)
    requires i < |ss|
    ensures CommandRelays(ss[..i + 1], topic, data) == CommandRelays(ss[..i], topic, data) + SensorRelays(ss[i], topic, data)
  {
    assert ss[..i + 1][..i] == ss[..i];
  }

  /** The sensors that own the topic, in registry order. */
  function Routed(ss: seq<Sensor>, topic: string): (r: seq<Sensor>)
    ensures forall k :: 0 <= k < |r| ==> RoutesTo(r[k], topic) && r[k] in ss
    ensures forall s :: s in ss && RoutesTo(s, topic) ==> s in r
  {
    if ss == [] then []
    else
      var init, last := ss[..|ss| - 1], ss[|ss| - 1];
      assert ss == init + [last];
      Routed(init, topic) + (if RoutesTo(last, topic) then [last] else [])
  }

  /**
   * The command branch relays the command once to the command topic of
   * every sensor that owns the topic, in registry order, and publishes
   * nothing else.
   */
  lemma {:induction false} CommandRelaysAreRouted(ss: seq<Sensor>, topic: string, data: string)
    ensures |CommandRelays(ss, topic, data)| == |Routed(ss, topic)|
    ensures forall k :: 0 <= k < |Routed(ss, topic)| ==>
      CommandRelays(ss, topic, data)[k] == RelayMessage(Routed(ss, topic)[k], data)
  {
    if ss != [] {
      var init, last := ss[..|ss| - 1], ss[|ss| - 1];
      CommandRelaysAreRouted(init, topic, data);
      SensorRelaysAtMostOnce(last, topic, data);
    }
  }

  /** A command no sensor owns is dropped. */
  lemma NoOwnerNoRelay(ss: seq<Sensor>, topic: string, data: string)
    requires forall k :: 0 <= k < |ss| ==> !RoutesTo(ss[k], topic)
    ensures CommandRelays(ss, topic, data) == []
  {
    CommandRelaysAreRouted(ss, topic, data);
  }
}
