/**
 * Sensor types and the hub entity kind derived from them.
 *
 * A sensor type's optional fields are read with Python truthiness:
 * `None`, `""`, `[]` and `0` all count as absent. The bridge has two
 * classifiers built from those tests: the one that chooses the discovery
 * topic and payload (func.py:180-199) and the one that chooses the state
 * topic (func.py:223-229). They differ in their "select" test.
 */
module Kinds {
  import opened Options

  /** A sensor type from the configuration (func.py:25-35). */
  datatype SensorType = SensorType(
    name: string,
    topic: string,
    unitOfMeasurement: string,
    deviceClass: string,
    commandTopic: Option<string>,
    options: Option<seq<string>>,
    min: Option<int>,
    max: Option<int>,
    step: Option<int>)

  /** The four entity kinds of the hub. */
  datatype Kind = PlainSensor | Switch | Select | Number

  /**
   * A sensor type as built from one configuration entry (main.py:9-19).
   * `step` is read with `get("step", 1)`: `None` stands for a missing key,
   * which gives 1, and `Some(v)` for a key that is present, whose value
   * `v` is kept even when it is `None`.
   */
  function FromConfig(name: string, topic: string, unit: string, deviceClass: string,
                      commandTopic: Option<string>, options: Option<seq<string>>,
                      min: Option<int>, max: Option<int>, step: Option<Option<int>>): (t: SensorType)
    ensures t.name == name && t.topic == topic
    ensures t.unitOfMeasurement == unit && t.deviceClass == deviceClass
    ensures t.commandTopic == commandTopic && t.options == options
    ensures t.min == min && t.max == max
    ensures step.Some? ==> t.step == step.value
    ensures step.None? ==> t.step == Some(1)
  {
    SensorType(name, topic, unit, deviceClass, commandTopic, options, min, max,
               if step.None? then Some(1) else step.value)
  }

  predicate StrTruthy(o: Option<string>) { o.Some? && o.value != "" }
  predicate ListTruthy(o: Option<seq<string>>) { o.Some? && o.value != [] }
  predicate IntTruthy(o: Option<int>) { o.Some? && o.value != 0 }

  /** func.py:180 and func.py:224: a command topic and nothing else. */
  predicate SwitchCondition(t: SensorType)
  {
    StrTruthy(t.commandTopic) && !ListTruthy(t.options) && !IntTruthy(t.min) && !IntTruthy(t.max)
  }

  /** func.py:188: options and no minimum. */
  predicate DiscoverySelectCondition(t: SensorType)
  {
    ListTruthy(t.options) && !IntTruthy(t.min)
  }

  /** func.py:226: options, whatever the minimum. */
  predicate StateSelectCondition(t: SensorType)
  {
    ListTruthy(t.options)
  }

  /** func.py:193 and func.py:228: minimum, maximum and step. */
  predicate NumberCondition(t: SensorType)
  {
    IntTruthy(t.min) && IntTruthy(t.max) && IntTruthy(t.step)
  }

  /** The three discovery conditions never hold two at a time. */
  lemma DiscoveryConditionsExclusive(t: SensorType)
    ensures !(SwitchCondition(t) && DiscoverySelectCondition(t))
    ensures !(SwitchCondition(t) && NumberCondition(t))
    ensures !(DiscoverySelectCondition(t) && NumberCondition(t))
  {
  }

  /**
   * The kind `configure_sensor` publishes under: start from "sensor" and
   * let each later test that holds override the earlier choice. Because
   * the tests are exclusive, each kind holds exactly when its own test does.
   */
  function DiscoveryKind(t: SensorType): (k: Kind)
    ensures k == Switch <==> SwitchCondition(t)
    ensures k == Select <==> DiscoverySelectCondition(t)
    ensures k == Number <==> NumberCondition(t)
    ensures k == PlainSensor <==>
      !SwitchCondition(t) && !DiscoverySelectCondition(t) && !NumberCondition(t)
  {
    var k0 := PlainSensor;
    var k1 := if SwitchCondition(t) then Switch else k0;
    var k2 := if DiscoverySelectCondition(t) then Select else k1;
    if NumberCondition(t) then Number else k2
  }

  /**
   * The kind `update_sensor` publishes state under, with the same
   * override order. It agrees with the discovery kind except when the type
   * has options and a minimum but no maximum or no step: discovery then
   * says "sensor" and the state publish says "select".
   */
  function StateKind(t: SensorType): (k: Kind)
    ensures k == DiscoveryKind(t) <==>
      !(ListTruthy(t.options) && IntTruthy(t.min) && !(IntTruthy(t.max) && IntTruthy(t.step)))
    ensures k != DiscoveryKind(t) ==> DiscoveryKind(t) == PlainSensor && k == Select
    ensures ListTruthy(t.options) ==> k == Select || k == Number
  {
    var k0 := PlainSensor;
    var k1 := if SwitchCondition(t) then Switch else k0;
    var k2 := if StateSelectCondition(t) then Select else k1;
    if NumberCondition(t) then Number else k2
  }

  /**
   * The hub's name for a kind, as it appears in topics. All four names
   * have the same length, so the kind can be read back from a fixed slice
   * of a topic (see `Topics.EntityTopicDeterminesKind`).
   */
  function KindName(k: Kind): (s: string)
    ensures |s| == 6
  {
    match k
    case PlainSensor => "sensor"
    case Switch => "switch"
    case Select => "select"
    case Number => "number"
  }

  /** Distinct kinds have distinct names. */
  lemma KindNameInjective(k1: Kind, k2: Kind)
    requires KindName(k1) == KindName(k2)
    ensures k1 == k2
  {
  }

  /**
   * A type configured with a truthy minimum and maximum and no `step` key
   * is a number, both for discovery and for the state publish, because
   * the default step of 1 is truthy.
   */
  lemma DefaultStepGivesNumber(name: string, topic: string, unit: string, deviceClass: string,
                               commandTopic: Option<string>, options: Option<seq<string>>,
                               min: Option<int>, max: Option<int>)
    requires IntTruthy(min) && IntTruthy(max)
    ensures var t := FromConfig(name, topic, unit, deviceClass, commandTopic, options, min, max, None);
      DiscoveryKind(t) == Number && StateKind(t) == Number
  {
  }

  /**
   * With an explicit `"step": None` the same type is never a number: it is
   * a plain sensor for discovery, and for the state publish too unless it
   * has options.
   */
  lemma ExplicitNoStepIsNotNumber(name: string, topic: string, unit: string, deviceClass: string,
                                  commandTopic: Option<string>, options: Option<seq<string>>,
                                  min: Option<int>, max: Option<int>)
    requires IntTruthy(min) && IntTruthy(max)
    ensures var t := FromConfig(name, topic, unit, deviceClass, commandTopic, options, min, max, Some(None));
      && DiscoveryKind(t) == PlainSensor
      && StateKind(t) == (if ListTruthy(options) then Select else PlainSensor)
  {
  }

  /**
   * Where the type lookup of `on_message` (func.py:123-129) stops: the
   * first type whose topic is the message topic, or else the last type,
   * because the loop variable keeps the last element it was bound to.
   */
  function TypeIndex(types: seq<SensorType>, topic: string): (k: nat)
    requires |types| > 0
    ensures k < |types|
    ensures forall j :: 0 <= j < k ==> types[j].topic != topic
    ensures types[k].topic == topic || (k == |types| - 1 && forall j :: 0 <= j < |types| ==> types[j].topic != topic)
  {
    if |types| == 1 || types[0].topic == topic then 0 else 1 + TypeIndex(types[1..], topic)
  }

  /** The sensor type a reading on `topic` is given. */
  function ResolveType(types: seq<SensorType>, topic: string): (t: SensorType)
    requires |types| > 0
    ensures t in types
    ensures (exists j :: 0 <= j < |types| && types[j].topic == topic) ==> t.topic == topic
    ensures (forall j :: 0 <= j < |types| ==> types[j].topic != topic) ==> t == types[|types| - 1]
  {
    types[TypeIndex(types, topic)]
  }
}
