/** The humidifier domain: `HumidifierControl.get_llm_schema` and `HumidifierService`. */
module HumidifierService {
  import opened Wrappers
  import opened JsonValues
  import opened Strings
  import opened Entity
  import opened DomainStates
  import opened Schemas
  import opened Base

  const Domain := EntityDomain.Humidifier

  /** The methods the service class defines for its tools. */
  const MethodNames: set<string> := {"turn_on", "turn_off", "set_humidity", "get_state"}

  const EntityIdDescription := "The ID of the humidifier entity to control"

  /** The `humidity` parameter: an optional percentage, declared with the non-standard JSON type `int`. */
  function HumidityParameter(): (p: Parameter)
    ensures p.jsonType == "int" && p.optional == Some(true)
    ensures p.minimum.None? && p.maximum.None?
  {
    Parameter("int", Some("The target percentage humidity"), None, None, None, None, None, None, Some(true))
  }

  /** The humidifier feature table: only `humidity`. */
  function Features(): FeatureTable {
    map["humidity" := map["humidity" := HumidityParameter()]]
  }

  lemma FeaturesWellFormed()
    ensures Disjoint(Features()) && KeepsEntityId(Features())
    ensures DefinesWithin(Features(), {"humidity"})
  {
  }

  /** `HumidifierControl.get_llm_schema(features)`. */
  function ControlSchema(features: Option<seq<string>> := None): (r: Schema)
    ensures r.kind == "object" && r.required == ["entity_id"]
    ensures forall k :: k in r.parameters ==> k == "entity_id" || k == "humidity"
  {
    FeaturesWellFormed();
    BuildSchemaWithin(EntityIdDescription, Features(), features, {"humidity"});
    BuildSchema(EntityIdDescription, Features(), features)
  }

  /** The `entity_id` definition is always present and never overwritten. */
  lemma ControlSchemaEntityId(features: Option<seq<string>>)
    ensures "entity_id" in ControlSchema(features).parameters
    ensures ControlSchema(features).parameters["entity_id"] == EntityIdParameter(EntityIdDescription)
  {
    FeaturesWellFormed();
    BuildSchemaEntityId(EntityIdDescription, Features(), features);
  }

  /** `humidity` is present exactly when it is requested, with its definition. */
  lemma ControlSchemaHumidity(features: Option<seq<string>>)
    ensures var p := ControlSchema(features).parameters;
      && ("humidity" in p <==> features.Some? && "humidity" in features.value)
      && ("humidity" in p ==> p["humidity"] == HumidityParameter())
  {
    FeaturesWellFormed();
    if features.Some? {
      ProvidesOwner(Features(), features.value, "humidity", "humidity");
    }
    if "humidity" in ControlSchema(features).parameters {
      BuildSchemaValue(EntityIdDescription, Features(), features, "humidity", "humidity");
    }
  }

  /** The wire names of the `tools` table, in declaration order. */
  const ToolNames: seq<string> := ["humidifier-turn_on", "humidifier-turn_off", "humidifier-set_temperature"]

  /**
   * The `tools` table, in declaration order. The `set_humidity` tool is published under the
   * name `humidifier-set_temperature`.
   */
  function Tools(): (r: seq<Tool>)
    ensures |r| == 3
    ensures r[0].key == "turn_on" && r[0].name == ToolNames[0]
    ensures r[1].key == "turn_off" && r[1].name == ToolNames[1]
    ensures r[2].key == "set_humidity" && r[2].name == ToolNames[2]
    ensures r[0].schema == ControlSchema() && r[1].schema == ControlSchema()
    ensures r[2].schema == ControlSchema(Some(["humidity"]))
  {
    [ Tool("turn_on", "humidifier-turn_on", "Turn on a humidifier entity", ControlSchema()),
      Tool("turn_off", "humidifier-turn_off", "Turn off a humidifier entity", ControlSchema()),
      Tool("set_humidity", "humidifier-set_temperature", "Set the temperature of a humidifier entity",
           ControlSchema(Some(["humidity"]))) ]
  }

  /** The entity reference the commands build, with the prefix spelled `humdifier.`. */
  function WrittenTarget(entityId: string): string {
    "humdifier." + entityId
  }

  /** `turn_on(entity_id)`, as written. */
  function TurnOn(entityId: string): (req: Request)
    ensures req.ServiceCall? && req.domain == Domain && req.service == "turn_on"
    ensures req.data == map["entity_id" := JString(WrittenTarget(entityId))]
  {
    CallDomainService(Domain, "turn_on", map["entity_id" := JString("humdifier." + entityId)])
  }

  /** `turn_off(entity_id)`, as written. */
  function TurnOff(entityId: string): (req: Request)
    ensures req.ServiceCall? && req.domain == Domain && req.service == "turn_off"
    ensures req.data == map["entity_id" := JString(WrittenTarget(entityId))]
  {
    CallDomainService(Domain, "turn_off", map["entity_id" := JString("humdifier." + entityId)])
  }

  /** `set_humidity(entity_id, humidity)`, as written: the humidity is forwarded unchecked. */
  function SetHumidity(entityId: string, humidity: int): (req: Request)
    ensures req.ServiceCall? && req.domain == Domain && req.service == "set_humidity"
    ensures req.data.Keys == {"entity_id", "humidity"}
    ensures req.data["entity_id"] == JString(WrittenTarget(entityId)) && req.data["humidity"] == JInt(humidity)
  {
    CallDomainService(Domain, "set_humidity",
      map["entity_id" := JString("humdifier." + entityId), "humidity" := JInt(humidity)])
  }

  /** `get_state(entity_id)`: goes through the base class, so it uses the domain's real prefix. */
  function GetState(entityId: string): (req: Request)
    ensures req == StateQuery("humidifier." + entityId)
  {
    EntityRefPrefix(Domain, "humidifier.", entityId);
    GetEntityState(Domain, entityId)
  }

  /** No domain value is `humdifier`, so the written reference names no entity of any domain. */
  lemma WrittenTargetNamesNoEntity(entityId: string, d: EntityDomain, other: string)
    ensures WrittenTarget(entityId) != EntityRef(d, other)
  {
    SplitJoin("humdifier", '.', entityId);
    assert "humdifier." + entityId == "humdifier" + "." + entityId;
  }

  /** The commands address an entity other than the one `get_state` reads. */
  lemma CommandsMisaddressed(entityId: string, humidity: int)
    ensures TurnOn(entityId).data["entity_id"] != JString(GetState(entityId).entityId)
    ensures TurnOff(entityId).data["entity_id"] != JString(GetState(entityId).entityId)
    ensures SetHumidity(entityId, humidity).data["entity_id"] != JString(GetState(entityId).entityId)
  {
    WrittenTargetNamesNoEntity(entityId, Domain, entityId);
    EntityRefPrefix(Domain, "humidifier.", entityId);
  }

  /** `turn_on` with the domain's own prefix. */
  function CorrectedTurnOn(entityId: string): (req: Request)
    ensures req.ServiceCall? && req.domain == Domain && req.service == "turn_on"
    ensures req.data == map["entity_id" := JString(EntityRef(Domain, entityId))]
  {
    CallDomainService(Domain, "turn_on", map["entity_id" := JString(EntityRef(Domain, entityId))])
  }

  /** `turn_off` with the domain's own prefix. */
  function CorrectedTurnOff(entityId: string): (req: Request)
    ensures req.ServiceCall? && req.domain == Domain && req.service == "turn_off"
    ensures req.data == map["entity_id" := JString(EntityRef(Domain, entityId))]
  {
    CallDomainService(Domain, "turn_off", map["entity_id" := JString(EntityRef(Domain, entityId))])
  }

  /** `set_humidity` with the domain's own prefix. */
  function CorrectedSetHumidity(entityId: string, humidity: int): (req: Request)
    ensures req.ServiceCall? && req.domain == Domain && req.service == "set_humidity"
    ensures req.data.Keys == {"entity_id", "humidity"}
    ensures req.data["entity_id"] == JString(EntityRef(Domain, entityId)) && req.data["humidity"] == JInt(humidity)
  {
    CallDomainService(Domain, "set_humidity",
      map["entity_id" := JString(EntityRef(Domain, entityId)), "humidity" := JInt(humidity)])
  }

  /** With the prefix corrected, the commands address the entity `get_state` reads. */
  lemma CorrectedCommandsTargetQueriedEntity(entityId: string, humidity: int)
    ensures CorrectedTurnOn(entityId).data["entity_id"] == JString(GetState(entityId).entityId)
    ensures CorrectedTurnOff(entityId).data["entity_id"] == JString(GetState(entityId).entityId)
    ensures CorrectedSetHumidity(entityId, humidity).data["entity_id"] == JString(GetState(entityId).entityId)
  {
  }

  /** The correction changes the entity reference and nothing else. */
  lemma CorrectionChangesOnlyTarget(entityId: string, humidity: int)
    ensures var t := JString(WrittenTarget(entityId));
      && TurnOn(entityId) == CorrectedTurnOn(entityId).(data := CorrectedTurnOn(entityId).data["entity_id" := t])
      && TurnOff(entityId) == CorrectedTurnOff(entityId).(data := CorrectedTurnOff(entityId).data["entity_id" := t])
      && SetHumidity(entityId, humidity)
         == CorrectedSetHumidity(entityId, humidity).(data := CorrectedSetHumidity(entityId, humidity).data["entity_id" := t])
  {
  }

  /** `get_available_entities()`: the one sample entity. */
  function AvailableEntities(): (r: map<string, EntityDescription<HumidifierState>>)
    ensures r.Keys == {"humidifier"}
    ensures forall k :: k in r ==> r[k].domain == Domain && r[k].attributes == HumidifierAttributesType
    ensures forall k, t :: k in r && t in r[k].availableTools ==> t in MethodNames
    ensures r["humidifier"].supportedStates == [HumidifierState.Off, HumidifierState.On]
  {
    map["humidifier" := EntityDescription(
      Domain, "dehumidifier", "Main dehumidifier entity",
      [HumidifierState.Off, HumidifierState.On], HumidifierAttributesType,
      ["turn_on", "turn_off", "get_state", "set_humidity"])]
  }

  /** Each command sends exactly the parameters its tool's schema advertises. */
  lemma CommandsMatchSchemas(entityId: string, humidity: int)
    ensures TurnOn(entityId).data.Keys == Tools()[0].schema.parameters.Keys
    ensures TurnOff(entityId).data.Keys == Tools()[1].schema.parameters.Keys
    ensures SetHumidity(entityId, humidity).data.Keys == Tools()[2].schema.parameters.Keys
  {
    ControlSchemaEntityId(None);
    ControlSchemaEntityId(Some(["humidity"]));
    ControlSchemaHumidity(None);
    ControlSchemaHumidity(Some(["humidity"]));
  }

  /** Every tool's schema requires `entity_id` and defines it. */
  lemma ToolsRequireEntityId()
    ensures forall t :: t in Tools() ==> t.schema.required == ["entity_id"] && "entity_id" in t.schema.parameters
  {
    ControlSchemaEntityId(None);
    ControlSchemaEntityId(Some(["humidity"]));
  }

  /** Every tool key names a method the service defines. */
  lemma ToolKeysAreMethods()
    ensures forall t :: t in Tools() ==> t.key in MethodNames
  {
  }

  /** `get_state` is listed as available for the entity although no tool advertises it. */
  lemma GetStateListedButNotAdvertised()
    ensures "get_state" in AvailableEntities()["humidifier"].availableTools
    ensures forall t :: t in Tools() ==> t.key != "get_state"
  {
  }
}
