/**
 * The bridge worker (func.py:57-242): the registry of known sensors and
 * the handlers that read and change it.
 *
 * Every `publish` of the transport is an append to `outbox`, every
 * `subscribe` an append to `subscriptions`, and every value-change log
 * line of `Sensor.update` an append to `log`. The current time is the
 * `now` argument, in whole seconds.
 */
module Bridge {
  import opened Options
  import opened Strings
  import opened Kinds
  import opened Topics
  import opened Sensors
  import opened Routing
  import opened Liveness
  import opened Seqs

  class SensorWorker {
    const sensorTypes: seq<SensorType>
    var sensors: seq<Sensor>
    var outbox: seq<Message>
    var subscriptions: seq<string>
    var log: seq<ValueChange>

    /**
     * The registry invariant: no two sensors share a (device id, sensor
     * name) key, and every registered sensor has been configured and has
     * the flat names of its own id and name.
     */
    ghost predicate Valid()
      reads this, sensors
    {
      && UniqueKeys(sensors)
      && (forall k :: 0 <= k < |sensors| ==> sensors[k].configured)
      && AllNamed(sensors)
    }

    /** func.py:58-64: an empty registry; the thread it starts is not modelled. */
    constructor (sensorTypes: seq<SensorType>)
      ensures Valid()
      ensures this.sensorTypes == sensorTypes
      ensures sensors == [] && outbox == [] && subscriptions == [] && log == []
    {
      this.sensorTypes := sensorTypes;
      sensors := [];
      outbox := [];
      subscriptions := [];
      log := [];
    }

    /**
     * The type lookup of `on_message` (func.py:123-129): the first type
     * whose topic is `topic`, else the last type the loop variable held;
     * `None` only when there are no types at all.
     */
    method FindSensorType(topic: string) returns (t: Option<SensorType>)
      ensures t.None? <==> |sensorTypes| == 0
      ensures t.Some? ==> t.value == ResolveType(sensorTypes, topic)
    {
      var current: Option<SensorType> := None;
      var i := 0;
      while i < |sensorTypes|
        invariant 0 <= i <= |sensorTypes|
        invariant forall j :: 0 <= j < i ==> sensorTypes[j].topic != topic
        invariant i == 0 <==> current.None?
        invariant i > 0 ==> current == Some(sensorTypes[i - 1])
      {
        current := Some(sensorTypes[i]);
        if sensorTypes[i].topic == topic {
          break;
        }
        i := i + 1;
      }
      t := current;
    }

    /** The registry lookup of `on_message` (func.py:131-137): the first sensor with the key. */
    method FindSensor(deviceId: string, sensorName: string) returns (found: Option<Sensor>)
      ensures Lookup(sensors, deviceId, sensorName).None? ==> found.None?
      ensures Lookup(sensors, deviceId, sensorName).Some? ==>
        found == Some(sensors[Lookup(sensors, deviceId, sensorName).value])
    {
      found := None;
      var i := 0;
      while i < |sensors|
        invariant 0 <= i <= |sensors|
        invariant forall j :: 0 <= j < i ==> sensors[j].Key() != (deviceId, sensorName)
        invariant found.None?
      {
        if sensors[i].deviceId == deviceId && sensors[i].sensorName == sensorName {
          found := Some(sensors[i]);
          break;
        }
        i := i + 1;
      }
    }

    /**
     * `update_sensor` (func.py:217-231): stamp the sensor with `now`, then
     * publish "online" to its availability topic and its single-key state
     * to the state topic of its state kind, in that order.
     */
    method UpdateSensor(sensor: Sensor, now: int)
      modifies this`outbox, sensor`lastUpdated
      ensures sensor.lastUpdated == Some(now)
      ensures outbox == old(outbox) + [OnlineMessage(sensor), StateMessage(sensor, sensor.sensorValue)]
    {
      sensor.lastUpdated := Some(now);
      outbox := outbox + [OnlineMessage(sensor)];
      outbox := outbox + [StateMessage(sensor, sensor.sensorValue)];
    }

    /**
     * `configure_sensor` (func.py:159-205) for a sensor whose key is not
     * registered: publish its discovery payload to the config topic of its
     * discovery kind, mark it configured, append it to the registry, and
     * publish its initial state. Re-applying its own value logs nothing.
     */
    method ConfigureSensor(sensor: Sensor, now: int)
      requires Valid()
      requires Lookup(sensors, sensor.deviceId, sensor.sensorName).None?
      requires Named(sensor)
      modifies this`outbox, this`sensors, this`log, sensor`configured, sensor`sensorValue, sensor`lastUpdated
      ensures Valid()
      ensures sensors == old(sensors) + [sensor]
      ensures sensor.configured && sensor.lastUpdated == Some(now)
      ensures sensor.sensorValue == old(sensor.sensorValue)
      ensures outbox == old(outbox) + [ConfigMessage(sensor), OnlineMessage(sensor), StateMessage(sensor, sensor.sensorValue)]
      ensures log == old(log)
    {
      Enroll(sensor);
      UpdateReading(sensor, sensor.sensorValue, now, |sensors| - 1);
    }

    /**
     * The first half of `configure_sensor` (func.py:200-202): publish the
     * discovery message, mark the sensor configured and append it.
     */
    method Enroll(sensor: Sensor)
      requires Valid()
      requires Lookup(sensors, sensor.deviceId, sensor.sensorName).None?
      requires Named(sensor)
      modifies this`outbox, this`sensors, sensor`configured
      ensures Valid()
      ensures sensors == old(sensors) + [sensor]
      ensures sensor.configured
      ensures outbox == old(outbox) + [ConfigMessage(sensor)]
    {
      outbox := outbox + [ConfigMessage(sensor)];
      sensor.configured := true;
      UniqueKeysAppend(sensors, sensor);
      AllNamedAppend(sensors, sensor);
      sensors := sensors + [sensor];
    }

    /**
     * `sensor_offline` (func.py:208-213): publish "offline" to the
     * sensor's availability topic, then take it out of the registry where
     * `list.remove` finds it.
     */
    method SensorOffline(sensor: Sensor)
      requires Valid() && sensor in sensors
      modifies this`sensors, this`outbox
      ensures Valid()
      ensures sensors == old(sensors)[..IndexOf(old(sensors), sensor)] + old(sensors)[IndexOf(old(sensors), sensor) + 1..]
      ensures outbox == old(outbox) + [OfflineMessage(sensor)]
    {
      outbox := outbox + [OfflineMessage(sensor)];
      var k := IndexOf(sensors, sensor);
      UniqueKeysRemove(sensors, k);
      AllNamedRemove(sensors, k);
      sensors := sensors[..k] + sensors[k + 1..];
    }

    /**
     * The loop body of `sensor_last_update_worker` (func.py:72-75) at
     * iterator position `i`: a stale sensor there is published offline and
     * removed, and either way the iterator moves on to position `i + 1` of
     * the list as it now is.
     */
    method VisitAt(i: nat, now: int, timeout: int, ghost stale: set<Sensor>)
      requires Valid() && i < |sensors|
      requires Stale(sensors[i], now, timeout) <==> sensors[i] in stale
      modifies this`sensors, this`outbox
      ensures Valid()
      ensures |sensors| <= old(|sensors|)
      ensures forall s :: s in sensors ==> s in old(sensors)
      ensures sensors == if old(sensors[i]) in stale then old(sensors)[..i] + old(sensors)[i + 1..] else old(sensors)
      ensures var gone := if old(sensors[i]) in stale then [old(sensors[i])] else [];
        && Sweep(sensors, i + 1, stale).kept == Sweep(old(sensors), i, stale).kept
        && Sweep(old(sensors), i, stale).removed == gone + Sweep(sensors, i + 1, stale).removed
        && outbox == old(outbox) + OfflineMessages(gone)
    {
      var sensor := sensors[i];
      if Stale(sensor, now, timeout) {
        UniqueIndex(sensors, i);
        SensorOffline(sensor);
        assert OfflineMessages([sensor]) == [OfflineMessage(sensor)];
      } else {
        assert OfflineMessages([]) == [];
      }
    }

    /**
     * One pass of `sensor_last_update_worker` (func.py:69-75) with the
     * timeout given in minutes: every sensor the list iterator reaches and
     * finds stale is published offline and removed, as `SweepView` says.
     */
    method SweepTick(now: int, onlineTimeout: int)
      requires Valid()
      modifies this`sensors, this`outbox
      ensures Valid()
      ensures sensors == SweepView(old(sensors), old(StaleAt(sensors, now, onlineTimeout * 60))).kept
      ensures outbox == old(outbox) + OfflineMessages(SweepView(old(sensors), old(StaleAt(sensors, now, onlineTimeout * 60))).removed)
    {
      var timeout := onlineTimeout * 60;
      ghost var stale := StaleAt(sensors, now, timeout);
      SweepIsView(sensors, 0, stale);
      assert sensors[..0] == [] && sensors[0..] == sensors;
      ghost var total := Sweep(sensors, 0, stale);
      ghost var removed: seq<Sensor> := [];
      var i := 0;
      while i < |sensors|
        invariant Valid()
        invariant forall s :: s in sensors ==> (Stale(s, now, timeout) <==> s in stale)
        invariant Sweep(sensors, i, stale).kept == total.kept
        invariant removed + Sweep(sensors, i, stale).removed == total.removed
        invariant outbox == old(outbox) + OfflineMessages(removed)
        decreases |sensors| - i
      {
        ghost var s := sensors[i];
        ghost var gone := if s in stale then [s] else [];
        OfflineMessagesAppend(old(outbox), removed, gone);
        VisitAt(i, now, timeout, stale);
        ConcatAssoc(removed, gone, Sweep(sensors, i + 1, stale).removed);
        removed := removed + gone;
        i := i + 1;
      }
      assert removed + [] == removed;
    }

    /**
     * The loop body of the sweep over a snapshot: the sensor at `i` of the
     * snapshot, which stands right after the survivors of the snapshot's
     * first `i` sensors, is published offline and removed when it is
     * stale, and kept otherwise.
     */
    method DropIfStale(snapshot: seq<Sensor>, i: nat, now: int, timeout: int, ghost base: seq<Message>, ghost stale: set<Sensor>)
      requires Valid() && i < |snapshot|
      requires sensors == NotStale(snapshot[..i], stale) + snapshot[i..]
      requires outbox == base + OfflineMessages(StaleOnes(snapshot[..i], stale))
      requires Stale(snapshot[i], now, timeout) <==> snapshot[i] in stale
      modifies this`sensors, this`outbox
      ensures Valid()
      ensures sensors == NotStale(snapshot[..i + 1], stale) + snapshot[i + 1..]
      ensures outbox == base + OfflineMessages(StaleOnes(snapshot[..i + 1], stale))
    {
      var sensor := snapshot[i];
      if Stale(sensor, now, timeout) {
        DropStep(snapshot, i, stale);
        RemoveBetween(sensors, NotStale(snapshot[..i + 1], stale), sensor, snapshot[i + 1..]);
        OfflineMessagesAppend(base, StaleOnes(snapshot[..i], stale), [sensor]);
        SensorOffline(sensor);
        assert OfflineMessages([sensor]) == [OfflineMessage(sensor)];
      } else {
        KeepStep(snapshot, i, stale);
      }
    }

    /**
     * The sweep without the skipped neighbour: iterating over a snapshot
     * of the registry, every stale sensor is published offline and
     * removed, and the others are kept in order.
     */
    method SweepTickIntended(now: int, onlineTimeout: int)
      requires Valid()
      modifies this`sensors, this`outbox
      ensures Valid()
      ensures sensors == NotStale(old(sensors), old(StaleAt(sensors, now, onlineTimeout * 60)))
      ensures outbox == old(outbox) + OfflineMessages(StaleOnes(old(sensors), old(StaleAt(sensors, now, onlineTimeout * 60))))
    {
      var timeout := onlineTimeout * 60;
      ghost var stale := StaleAt(sensors, now, timeout);
      var snapshot := sensors;
      var i := 0;
      while i < |snapshot|
        invariant 0 <= i <= |snapshot|
        invariant Valid()
        invariant sensors == NotStale(snapshot[..i], stale) + snapshot[i..]
        invariant outbox == old(outbox) + OfflineMessages(StaleOnes(snapshot[..i], stale))
      {
        ghost var s := snapshot[i];
        DropIfStale(snapshot, i, now, timeout, old(outbox), stale);
        i := i + 1;
      }
      assert snapshot[..i] == snapshot && snapshot[i..] == [];
      assert sensors == NotStale(snapshot, stale) + [];
    }

    /**
     * The body of the command loop for one sensor (func.py:150-155): each
     * of the three command shapes the topic equals, for a type with a
     * command topic, relays the command.
     */
    method RelayToSensor(s: Sensor, topic: string, data: string)
      modifies this`outbox
      ensures outbox == old(outbox) + SensorRelays(s, topic, data)
    {
      if ShapeMatches(s, Switch, topic) {
        outbox := outbox + [RelayMessage(s, data)];
      }
      if ShapeMatches(s, Select, topic) {
        outbox := outbox + [RelayMessage(s, data)];
      }
      if ShapeMatches(s, Number, topic) {
        outbox := outbox + [RelayMessage(s, data)];
      }
    }

    /**
     * The command branch of `on_message` (func.py:147-155): every sensor
     * is compared with the three command shapes, and each match with a
     * command topic relays the command; the registry is not touched.
     */
    method RouteCommand(topic: string, data: string)
      modifies this`outbox
      ensures outbox == old(outbox) + CommandRelays(sensors, topic, data)
    {
      var i := 0;
      while i < |sensors|
        invariant 0 <= i <= |sensors|
        invariant outbox == old(outbox) + CommandRelays(sensors[..i], topic, data)
      {
        CommandRelaysStep(sensors, i, topic, data);
        ConcatAssoc(old(outbox), CommandRelays(sensors[..i], topic, data), SensorRelays(sensors[i], topic, data));
        RelayToSensor(sensors[i], topic, data);
        i := i + 1;
      }
      assert sensors[..i] == sensors;
    }

    /**
     * `on_message` (func.py:112-155). A payload of three or more
     * `|`-fields is a reading `device|sensor|value`: an unseen key gets a
     * new sensor, configured and appended, with a config, an online and a
     * state publish; a known key keeps the registry as it is, updates that
     * sensor and publishes online and state. Any other payload is a command.
     */
    method OnMessage(topic: string, data: string, now: int)
      requires Valid()
      requires |Split(data, '|')| >= 3 && Lookup(sensors, Split(data, '|')[0], Split(data, '|')[1]).None? ==> |sensorTypes| > 0
      modifies this, sensors
      ensures Valid()
      ensures subscriptions == old(subscriptions)
      ensures |Split(data, '|')| < 3 ==>
        && sensors == old(sensors) && log == old(log)
        && outbox == old(outbox) + CommandRelays(sensors, topic, data)
        && forall k :: 0 <= k < |sensors| ==> unchanged(sensors[k])
      ensures |Split(data, '|')| >= 3 && Lookup(old(sensors), Split(data, '|')[0], Split(data, '|')[1]).None? ==>
        var p := Split(data, '|');
        && |sensors| == |old(sensors)| + 1 && sensors[..|old(sensors)|] == old(sensors)
        && var s := sensors[|old(sensors)|];
        && fresh(s)
        && s.deviceId == p[0] && s.sensorName == p[1] && s.sensorValue == p[2]
        && s.deviceFlatName == FlatName(p[0]) && s.sensorFlatName == FlatName(p[1])
        && s.sensorType == ResolveType(sensorTypes, topic)
        && s.configured && s.lastUpdated == Some(now)
        && outbox == old(outbox) + [ConfigMessage(s), OnlineMessage(s), StateMessage(s, p[2])]
        && log == old(log)
        && forall k :: 0 <= k < |old(sensors)| ==> unchanged(old(sensors)[k])
      ensures |Split(data, '|')| >= 3 && Lookup(old(sensors), Split(data, '|')[0], Split(data, '|')[1]).Some? ==>
        var p := Split(data, '|');
        var k := Lookup(old(sensors), p[0], p[1]).value;
        && sensors == old(sensors)
        && var s := sensors[k];
        && s.sensorValue == p[2] && s.lastUpdated == Some(now) && s.configured
        && outbox == old(outbox) + [OnlineMessage(s), StateMessage(s, p[2])]
        && log == old(log) + ToSeq(ChangeEvent(s.sensorType.name, s.sensorName, old(s.sensorValue), p[2]))
        && forall j :: 0 <= j < |sensors| && j != k ==> unchanged(sensors[j])
    {
      var parts := Split(data, '|');
      if |parts| >= 3 {
        HandleReading(topic, parts, now);
      } else {
        RouteCommand(topic, data);
      }
    }

    /**
     * The reading branch of `on_message` (func.py:119-146) for the fields
     * `p` of the payload: the type is resolved from the topic and the
     * sensor is looked up by its key, then created or updated.
     */
    method HandleReading(topic: string, p: seq<string>, now: int)
      requires Valid() && |p| >= 3
      requires Lookup(sensors, p[0], p[1]).None? ==> |sensorTypes| > 0
      modifies this, sensors
      ensures Valid()
      ensures subscriptions == old(subscriptions)
      ensures Lookup(old(sensors), p[0], p[1]).None? ==>
        && |sensors| == |old(sensors)| + 1 && sensors[..|old(sensors)|] == old(sensors)
        && var s := sensors[|old(sensors)|];
        && fresh(s)
        && s.deviceId == p[0] && s.sensorName == p[1] && s.sensorValue == p[2]
        && s.deviceFlatName == FlatName(p[0]) && s.sensorFlatName == FlatName(p[1])
        && s.sensorType == ResolveType(sensorTypes, topic)
        && s.configured && s.lastUpdated == Some(now)
        && outbox == old(outbox) + [ConfigMessage(s), OnlineMessage(s), StateMessage(s, p[2])]
        && log == old(log)
        && forall k :: 0 <= k < |old(sensors)| ==> unchanged(old(sensors)[k])
      ensures Lookup(old(sensors), p[0], p[1]).Some? ==>
        var k := Lookup(old(sensors), p[0], p[1]).value;
        && sensors == old(sensors)
        && var s := sensors[k];
        && s.sensorValue == p[2] && s.lastUpdated == Some(now) && s.configured
        && outbox == old(outbox) + [OnlineMessage(s), StateMessage(s, p[2])]
        && log == old(log) + ToSeq(ChangeEvent(s.sensorType.name, s.sensorName, old(s.sensorValue), p[2]))
        && forall j :: 0 <= j < |sensors| && j != k ==> unchanged(sensors[j])
    {
      var deviceId, sensorName, sensorValue := p[0], p[1], p[2];
      var sensorType := FindSensorType(topic);
      var found := FindSensor(deviceId, sensorName);
      if found.None? {
        RegisterReading(deviceId, sensorName, sensorValue, sensorType.value, now);
      } else {
        ghost var k := Lookup(sensors, deviceId, sensorName).value;
        UniqueIndex(sensors, k);
        UpdateReading(found.value, sensorValue, now, k);
      }
    }

    /**
     * A reading for an unseen key (func.py:138-142): a new sensor with the
     * reading's value is configured and appended to the registry.
     */
    method RegisterReading(deviceId: string, sensorName: string, sensorValue: string, sensorType: SensorType, now: int)
      requires Valid() && Lookup(sensors, deviceId, sensorName).None?
      modifies this
      ensures Valid()
      ensures subscriptions == old(subscriptions) && log == old(log)
      ensures |sensors| == |old(sensors)| + 1 && sensors[..|old(sensors)|] == old(sensors)
      ensures var s := sensors[|old(sensors)|];
        && fresh(s)
        && s.deviceId == deviceId && s.sensorName == sensorName && s.sensorValue == sensorValue
        && s.deviceFlatName == FlatName(deviceId) && s.sensorFlatName == FlatName(sensorName)
        && s.sensorType == sensorType && s.configured && s.lastUpdated == Some(now)
        && outbox == old(outbox) + [ConfigMessage(s), OnlineMessage(s), StateMessage(s, sensorValue)]
    {
      var sensor := new Sensor(deviceId, sensorName, sensorValue, sensorType, false);
      ConfigureSensor(sensor, now);
      assert sensors[..|old(sensors)|] == old(sensors);
    }

    /**
     * A reading for the registered sensor at position `k` (func.py:143-146):
     * its value is replaced, a change is logged, and it is stamped and
     * published again; no other sensor changes.
     */
    method UpdateReading(sensor: Sensor, sensorValue: string, now: int, ghost k: nat)
      requires Valid() && k < |sensors| && sensors[k] == sensor
      modifies this`outbox, this`log, sensor`sensorValue, sensor`lastUpdated
      ensures Valid()
      ensures sensor.sensorValue == sensorValue && sensor.lastUpdated == Some(now)
      ensures outbox == old(outbox) + [OnlineMessage(sensor), StateMessage(sensor, sensorValue)]
      ensures log == old(log) + ToSeq(ChangeEvent(sensor.sensorType.name, sensor.sensorName, old(sensor.sensorValue), sensorValue))
    {
      var event := sensor.Update(sensorValue, now);
      log := log + ToSeq(event);
      UpdateSensor(sensor, now);
    }

    /**
     * `subscribe` (func.py:233-242): for each type in order, the topics
     * `TypeSubscriptions` names.
     */
    method Subscribe()
      modifies this`subscriptions
      ensures subscriptions == old(subscriptions) + SubscriptionTopics(sensorTypes)
    {
      var i := 0;
      while i < |sensorTypes|
        invariant 0 <= i <= |sensorTypes|
        invariant subscriptions == old(subscriptions) + SubscriptionTopics(sensorTypes[..i])
      {
        assert sensorTypes[..i + 1][..i] == sensorTypes[..i];
        SubscribeType(sensorTypes[i]);
        i := i + 1;
      }
      assert sensorTypes[..i] == sensorTypes;
    }

    /**
     * The loop body of `subscribe` (func.py:236-242): the reading topic,
     * then the switch, select and number wildcards its fields ask for.
     */
    method SubscribeType(t: SensorType)
      modifies this`subscriptions
      ensures subscriptions == old(subscriptions) + TypeSubscriptions(t)
    {
      subscriptions := subscriptions + [t.topic];
      if StrTruthy(t.commandTopic) && !ListTruthy(t.options) {
        subscriptions := subscriptions + [Wildcard(Switch)];
      }
      if ListTruthy(t.options) {
        subscriptions := subscriptions + [Wildcard(Select)];
      }
      if IntTruthy(t.min) && IntTruthy(t.max) {
        subscriptions := subscriptions + [Wildcard(Number)];
      }
    }
  }
}
