/**
 * The hub side of the bridge: topic strings, the messages published to
 * the transport, the discovery payload (func.py:162-199) and the topics
 * subscribed to on connect (func.py:233-242).
 *
 * Payloads that the source serialises with `json.dumps` are kept as
 * structured maps; the string payloads ("online", "offline", relayed
 * commands) are kept as text.
 */
module Topics {
  import opened Kinds

  const Root: string := "homeassistant/"

  /** `homeassistant/{kind}/{deviceFlat}/{sensorFlat}/{leaf}` */
  function EntityTopic(k: Kind, deviceFlat: string, sensorFlat: string, leaf: string): string
  {
    Root + KindName(k) + "/" + deviceFlat + "/" + sensorFlat + "/" + leaf
  }

  /** `homeassistant/{deviceFlat}_{sensorFlat}/availability` */
  function AvailabilityTopic(deviceFlat: string, sensorFlat: string): string
  {
    Root + deviceFlat + "_" + sensorFlat + "/availability"
  }

  /** An entity topic names its kind: two equal entity topics have one kind. */
  lemma EntityTopicDeterminesKind(k1: Kind, d1: string, s1: string, l1: string,
                                  k2: Kind, d2: string, s2: string, l2: string)
    requires EntityTopic(k1, d1, s1, l1) == EntityTopic(k2, d2, s2, l2)
    ensures k1 == k2
  {
    var t1, t2 := EntityTopic(k1, d1, s1, l1), EntityTopic(k2, d2, s2, l2);
    assert t1[14..20] == KindName(k1);
    assert t2[14..20] == KindName(k2);
    KindNameInjective(k1, k2);
  }

  /** The JSON values that occur in the bridge's payloads. */
  datatype Json = JStr(s: string) | JInt(i: int) | JStrList(items: seq<string>) | JObject(fields: map<string, Json>)

  /**
   * The keys of a discovery payload (func.py:162-199). They form a fixed
   * vocabulary, so they are an enumeration here; `FieldName` is the JSON
   * key each one is written as.
   */
  datatype Field =
    | DeviceClassKey | NameKey | StateTopicKey | UnitOfMeasurementKey | ValueTemplateKey
    | UniqueIdKey | PlatformKey | AvailabilityTopicKey | PayloadAvailableKey
    | PayloadNotAvailableKey | DeviceKey
    | CommandTopicKey | StateOnKey | StateOffKey | PayloadOnKey | PayloadOffKey
    | OptionsKey | MinKey | MaxKey | StepKey

  function FieldName(f: Field): string
  {
    match f
    case DeviceClassKey => "device_class"
    case NameKey => "name"
    case StateTopicKey => "state_topic"
    case UnitOfMeasurementKey => "unit_of_measurement"
    case ValueTemplateKey => "value_template"
    case UniqueIdKey => "unique_id"
    case PlatformKey => "platform"
    case AvailabilityTopicKey => "availability_topic"
    case PayloadAvailableKey => "payload_available"
    case PayloadNotAvailableKey => "payload_not_available"
    case DeviceKey => "device"
    case CommandTopicKey => "command_topic"
    case StateOnKey => "state_on"
    case StateOffKey => "state_off"
    case PayloadOnKey => "payload_on"
    case PayloadOffKey => "payload_off"
    case OptionsKey => "options"
    case MinKey => "min"
    case MaxKey => "max"
    case StepKey => "step"
  }

  /**
   * Distinct fields are written as distinct JSON keys, so a discovery
   * payload kept as a map of fields serialises to an object in which no
   * key is written twice.
   */
  lemma FieldNameInjective(f: Field, g: Field)
    ensures FieldName(f) == FieldName(g) ==> f == g
  {
  }

  /**
   * A message payload: plain text, a JSON object with string keys (the
   * state message, keyed by the sensor's flat name), or a discovery payload.
   */
  datatype Payload = Text(text: string) | Object(fields: map<string, Json>) | Discovery(config: map<Field, Json>)

  /** One call of the transport's `publish(topic, payload)`. */
  datatype Message = Message(topic: string, payload: Payload)

  /** The keys every discovery payload has (func.py:162-179). */
  predicate BaseKey(f: Field)
  {
    match f
    case CommandTopicKey | StateOnKey | StateOffKey | PayloadOnKey | PayloadOffKey
       | OptionsKey | MinKey | MaxKey | StepKey => false
    case _ => true
  }

  /** The keys a kind adds to the discovery payload (func.py:181-199). */
  predicate KindKey(k: Kind, f: Field)
  {
    match k
    case PlainSensor => false
    case Switch => f.CommandTopicKey? || f.StateOnKey? || f.StateOffKey? || f.PayloadOnKey? || f.PayloadOffKey?
    case Select => f.CommandTopicKey? || f.OptionsKey?
    case Number => f.CommandTopicKey? || f.MinKey? || f.MaxKey? || f.StepKey?
  }

  /** The discovery payload before any kind-specific change (func.py:162-179). */
  function BasePayload(t: SensorType, deviceId: string, sensorName: string,
                       deviceFlat: string, sensorFlat: string): map<Field, Json>
  {
    map[
      DeviceClassKey := JStr(t.deviceClass),
      NameKey := JStr(sensorName),
      StateTopicKey := JStr(EntityTopic(PlainSensor, deviceFlat, sensorFlat, "state")),
      UnitOfMeasurementKey := JStr(t.unitOfMeasurement),
      ValueTemplateKey := JStr("{{ value_json." + sensorFlat + " }}"),
      UniqueIdKey := JStr(deviceFlat + "_" + sensorFlat),
      PlatformKey := JStr("mqtt"),
      AvailabilityTopicKey := JStr(AvailabilityTopic(deviceFlat, sensorFlat)),
      PayloadAvailableKey := JStr("online"),
      PayloadNotAvailableKey := JStr("offline"),
      DeviceKey := JObject(map[
        "identifiers" := JStrList([deviceFlat]),
        "name" := JStr(deviceId),
        "model" := JStr(t.name),
        "manufacturer" := JStr("Fontana Software")])
    ]
  }

  /** The fields a switch adds (func.py:181-187). */
  function SwitchFields(m: map<Field, Json>, deviceFlat: string, sensorFlat: string): map<Field, Json>
  {
    m[StateTopicKey := JStr(EntityTopic(Switch, deviceFlat, sensorFlat, "state"))]
     [CommandTopicKey := JStr(EntityTopic(Switch, deviceFlat, sensorFlat, "set"))]
     [StateOnKey := JStr("on")][StateOffKey := JStr("off")]
     [PayloadOnKey := JStr("on")][PayloadOffKey := JStr("off")]
  }

  /** The fields a select adds (func.py:189-192). */
  function SelectFields(m: map<Field, Json>, options: seq<string>, deviceFlat: string, sensorFlat: string): map<Field, Json>
  {
    m[OptionsKey := JStrList(options)]
     [StateTopicKey := JStr(EntityTopic(Select, deviceFlat, sensorFlat, "state"))]
     [CommandTopicKey := JStr(EntityTopic(Select, deviceFlat, sensorFlat, "set"))]
  }

  /** The fields a number adds (func.py:194-199). */
  function NumberFields(m: map<Field, Json>, min: int, max: int, step: int, deviceFlat: string, sensorFlat: string): map<Field, Json>
  {
    m[StateTopicKey := JStr(EntityTopic(Number, deviceFlat, sensorFlat, "state"))]
     [CommandTopicKey := JStr(EntityTopic(Number, deviceFlat, sensorFlat, "set"))]
     [MinKey := JInt(min)][MaxKey := JInt(max)][StepKey := JInt(step)]
  }

  /**
   * The discovery payload of `configure_sensor`: the base payload, then
   * each kind test that holds, in source order, adds its fields on top.
   */
  function DiscoveryPayload(t: SensorType, deviceId: string, sensorName: string,
                            deviceFlat: string, sensorFlat: string): map<Field, Json>
  {
    var m0 := BasePayload(t, deviceId, sensorName, deviceFlat, sensorFlat);
    var m1 := if SwitchCondition(t) then SwitchFields(m0, deviceFlat, sensorFlat) else m0;
    var m2 := if DiscoverySelectCondition(t) then SelectFields(m1, t.options.value, deviceFlat, sensorFlat) else m1;
    if NumberCondition(t) then NumberFields(m2, t.min.value, t.max.value, t.step.value, deviceFlat, sensorFlat) else m2
  }

  /** The base payload has exactly the base keys. */
  lemma BasePayloadKeys(t: SensorType, deviceId: string, sensorName: string,
                        deviceFlat: string, sensorFlat: string)
    ensures forall f :: f in BasePayload(t, deviceId, sensorName, deviceFlat, sensorFlat) <==> BaseKey(f)
  {
  }

  /**
   * The payload shape a kind produces from a base payload `m`: the keys of
   * the base and of the kind, the state topic of the kind, a `.../set`
   * command topic of the kind unless it is "sensor", and the other base
   * fields as in `m`.
   */
  ghost predicate Shaped(p: map<Field, Json>, m: map<Field, Json>, k: Kind, deviceFlat: string, sensorFlat: string)
  {
    && (forall f :: f in p <==> BaseKey(f) || KindKey(k, f))
    && p[StateTopicKey] == JStr(EntityTopic(k, deviceFlat, sensorFlat, "state"))
    && (CommandTopicKey in p <==> k != PlainSensor)
    && (CommandTopicKey in p ==> p[CommandTopicKey] == JStr(EntityTopic(k, deviceFlat, sensorFlat, "set")))
    && (forall f :: BaseKey(f) && f != StateTopicKey ==> f in m && p[f] == m[f])
  }

  lemma SwitchFieldsShape(m: map<Field, Json>, deviceFlat: string, sensorFlat: string)
    requires forall f :: f in m <==> BaseKey(f)
    ensures var p := SwitchFields(m, deviceFlat, sensorFlat);
      Shaped(p, m, Switch, deviceFlat, sensorFlat) &&
      p[StateOnKey] == p[PayloadOnKey] == JStr("on") && p[StateOffKey] == p[PayloadOffKey] == JStr("off")
  {
  }

  lemma SelectFieldsShape(m: map<Field, Json>, options: seq<string>, deviceFlat: string, sensorFlat: string)
    requires forall f :: f in m <==> BaseKey(f)
    ensures var p := SelectFields(m, options, deviceFlat, sensorFlat);
      Shaped(p, m, Select, deviceFlat, sensorFlat) && p[OptionsKey] == JStrList(options)
  {
  }

  lemma NumberFieldsShape(m: map<Field, Json>, min: int, max: int, step: int, deviceFlat: string, sensorFlat: string)
    requires forall f :: f in m <==> BaseKey(f)
    ensures var p := NumberFields(m, min, max, step, deviceFlat, sensorFlat);
      Shaped(p, m, Number, deviceFlat, sensorFlat) &&
      p[MinKey] == JInt(min) && p[MaxKey] == JInt(max) && p[StepKey] == JInt(step)
  {
  }

  /**
   * What the discovery payload holds: exactly the base keys and the keys
   * of the discovery kind; the state topic of that kind; a command topic
   * `.../set` of that kind for every kind but "sensor"; the kind's own
   * fields; and every other base field as the base payload has it.
   */
  lemma DiscoveryPayloadShape(t: SensorType, deviceId: string, sensorName: string,
                              deviceFlat: string, sensorFlat: string)
    ensures var p := DiscoveryPayload(t, deviceId, sensorName, deviceFlat, sensorFlat);
      var k := DiscoveryKind(t);
      && Shaped(p, BasePayload(t, deviceId, sensorName, deviceFlat, sensorFlat), k, deviceFlat, sensorFlat)
      && (k == Switch ==>
            p[StateOnKey] == p[PayloadOnKey] == JStr("on") && p[StateOffKey] == p[PayloadOffKey] == JStr("off"))
      && (k == Select ==> t.options.Some? && p[OptionsKey] == JStrList(t.options.value))
      && (k == Number ==>
            t.min.Some? && t.max.Some? && t.step.Some? &&
            p[MinKey] == JInt(t.min.value) && p[MaxKey] == JInt(t.max.value) && p[StepKey] == JInt(t.step.value))
  {
    var m0 := BasePayload(t, deviceId, sensorName, deviceFlat, sensorFlat);
    BasePayloadKeys(t, deviceId, sensorName, deviceFlat, sensorFlat);
    match DiscoveryKind(t)
    case PlainSensor =>
    case Switch =>
      SwitchFieldsShape(m0, deviceFlat, sensorFlat);
    case Select =>
      SelectFieldsShape(m0, t.options.value, deviceFlat, sensorFlat);
    case Number =>
      NumberFieldsShape(m0, t.min.value, t.max.value, t.step.value, deviceFlat, sensorFlat);
  }

  /** The wildcard subscription for the command topics of a kind. */
  function Wildcard(k: Kind): string
  {
    Root + KindName(k) + "/#"
  }

  /**
   * Topic-filter matching for the filters the bridge subscribes to: a
   * filter equals the topic, or ends in `#` and the rest is a prefix of it.
   */
  predicate FilterMatches(filter: string, topic: string)
  {
    filter == topic || (|filter| > 0 && filter[|filter| - 1] == '#' && filter[..|filter| - 1] <= topic)
  }

  /** The subscriptions one sensor type asks for (func.py:236-242). */
  function TypeSubscriptions(t: SensorType): seq<string>
  {
    [t.topic]
    + (if StrTruthy(t.commandTopic) && !ListTruthy(t.options) then [Wildcard(Switch)] else [])
    + (if ListTruthy(t.options) then [Wildcard(Select)] else [])
    + (if IntTruthy(t.min) && IntTruthy(t.max) then [Wildcard(Number)] else [])
  }

  /** Every subscription of `subscribe`, type by type, in order (func.py:233-242). */
  function SubscriptionTopics(types: seq<SensorType>): seq<string>
  {
    if types == [] then []
    else SubscriptionTopics(types[..|types| - 1]) + TypeSubscriptions(types[|types| - 1])
  }

  /** The wildcard of a kind matches every entity topic of that kind. */
  lemma WildcardMatchesEntityTopic(k: Kind, deviceFlat: string, sensorFlat: string, leaf: string)
    ensures FilterMatches(Wildcard(k), EntityTopic(k, deviceFlat, sensorFlat, leaf))
  {
    var w := Wildcard(k);
    assert w[..|w| - 1] == Root + KindName(k) + "/";
  }

  /**
   * Subscribing covers every configured type: its reading topic is
   * subscribed to, and when discovery gives it a command topic, the
   * wildcard of its discovery kind is subscribed to as well.
   */
  lemma {:induction false} SubscriptionsCoverTypes(types: seq<SensorType>, t: SensorType)
    requires t in types
    ensures t.topic in SubscriptionTopics(types)
    ensures DiscoveryKind(t) != PlainSensor ==> Wildcard(DiscoveryKind(t)) in SubscriptionTopics(types)
  {
    var init, last := types[..|types| - 1], types[|types| - 1];
    if t != last {
      assert types == init + [last];
      SubscriptionsCoverTypes(init, t);
    }
  }

  /**
   * So the hub's command for any discovered switch, select or number
   * reaches the bridge through one of its subscriptions.
   */
  lemma CommandTopicsSubscribed(types: seq<SensorType>, t: SensorType, deviceFlat: string, sensorFlat: string)
    requires t in types
    requires DiscoveryKind(t) != PlainSensor
    ensures exists f :: f in SubscriptionTopics(types) &&
                        FilterMatches(f, EntityTopic(DiscoveryKind(t), deviceFlat, sensorFlat, "set"))
  {
    SubscriptionsCoverTypes(types, t);
    WildcardMatchesEntityTopic(DiscoveryKind(t), deviceFlat, sensorFlat, "set");
  }
}
