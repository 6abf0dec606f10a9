/** The climate domain: `ClimateControl.get_llm_schema` and `ClimateService`. */
module ClimateService {
  import opened Wrappers
  import opened JsonValues
  import opened Entity
  import opened DomainStates
  import opened Schemas
  import opened Base

  const Domain := EntityDomain.Climate

  /** The methods the service class defines for its tools. */
  const MethodNames: set<string> := {"turn_off", "set_temperature", "get_state"}

  const EntityIdDescription := "The ID of the climate entity to control"

  /** The `temperature` parameter: an optional integer in degrees Fahrenheit, without bounds. */
  function TemperatureParameter(): (p: Parameter)
    ensures p.jsonType == "integer" && p.optional == Some(true)
    ensures p.minimum.None? && p.maximum.None?
  {
    Parameter("integer", Some("The target temperature in degrees Fahrenheit"), None, None, None, None, None, None, Some(true))
  }

  /** The climate feature table: only `temperature`. */
  function Features(): FeatureTable {
    map["temperature" := map["temperature" := TemperatureParameter()]]
  }

  lemma FeaturesWellFormed()
    ensures Disjoint(Features()) && KeepsEntityId(Features())
    ensures DefinesWithin(Features(), {"temperature"})
  {
  }

  /** `ClimateControl.get_llm_schema(features)`. */
  function ControlSchema(features: Option<seq<string>> := None): (r: Schema)
    ensures r.kind == "object" && r.required == ["entity_id"]
    ensures forall k :: k in r.parameters ==> k == "entity_id" || k == "temperature"
  {
    FeaturesWellFormed();
    BuildSchemaWithin(EntityIdDescription, Features(), features, {"temperature"});
    BuildSchema(EntityIdDescription, Features(), features)
  }

  /** The `entity_id` definition is always present and never overwritten. */
  lemma ControlSchemaEntityId(features: Option<seq<string>>)
    ensures "entity_id" in ControlSchema(features).parameters
    ensures ControlSchema(features).parameters["entity_id"] == EntityIdParameter(EntityIdDescription)
  {
    FeaturesWellFormed();
    BuildSchemaEntityId(EntityIdDescription, Features(), features);
  }

  /** `temperature` is present exactly when it is requested, with its definition. */
  lemma ControlSchemaTemperature(features: Option<seq<string>>)
    ensures var p := ControlSchema(features).parameters;
      && ("temperature" in p <==> features.Some? && "temperature" in features.value)
      && ("temperature" in p ==> p["temperature"] == TemperatureParameter())
  {
    FeaturesWellFormed();
    if features.Some? {
      ProvidesOwner(Features(), features.value, "temperature", "temperature");
    }
    if "temperature" in ControlSchema(features).parameters {
      BuildSchemaValue(EntityIdDescription, Features(), features, "temperature", "temperature");
    }
  }

  /** The wire names of the `tools` table, in declaration order. */
  const ToolNames: seq<string> := ["climate.turn_off", "climate.set_temperature"]

  /** The `tools` table, in declaration order. */
  function Tools(): (r: seq<Tool>)
    ensures |r| == 2
    ensures r[0].key == "turn_off" && r[0].name == ToolNames[0]
    ensures r[1].key == "set_temperature" && r[1].name == ToolNames[1]
    ensures r[0].schema == ControlSchema() && r[1].schema == ControlSchema(Some(["temperature"]))
  {
    [ Tool("turn_off", "climate.turn_off", "Turn off a climate entity", ControlSchema()),
      Tool("set_temperature", "climate.set_temperature", "Set the temperature of a climate entity",
           ControlSchema(Some(["temperature"]))) ]
  }

  /** `turn_off(entity_id)`. */
  function TurnOff(entityId: string): (req: Request)
    ensures req.ServiceCall? && req.domain == Domain && req.service == "turn_off"
    ensures req.data == map["entity_id" := JString(EntityRef(Domain, entityId))]
  {
    EntityRefPrefix(Domain, "climate.", entityId);
    CallDomainService(Domain, "turn_off", map["entity_id" := JString("climate." + entityId)])
  }

  /** `set_temperature(entity_id, temperature)`: the temperature is forwarded as given, unchecked. */
  function SetTemperature(entityId: string, temperature: int): (req: Request)
    ensures req.ServiceCall? && req.domain == Domain && req.service == "set_temperature"
    ensures req.data.Keys == {"entity_id", "temperature"}
    ensures req.data["entity_id"] == JString(EntityRef(Domain, entityId))
    ensures req.data["temperature"] == JInt(temperature)
  {
    EntityRefPrefix(Domain, "climate.", entityId);
    CallDomainService(Domain, "set_temperature",
      map["entity_id" := JString("climate." + entityId), "temperature" := JInt(temperature)])
  }

  /** `get_state(entity_id)`. */
  function GetState(entityId: string): (req: Request)
    ensures req == StateQuery("climate." + entityId)
  {
    EntityRefPrefix(Domain, "climate.", entityId);
    GetEntityState(Domain, entityId)
  }

  /** `get_available_entities()`: the one sample entity. */
  function AvailableEntities(): (r: map<string, EntityDescription<ClimateState>>)
    ensures r.Keys == {"climate"}
    ensures forall k :: k in r ==> r[k].domain == Domain && r[k].attributes == ClimateAttributesType
    ensures forall k, t :: k in r && t in r[k].availableTools ==> t in MethodNames
    ensures r["climate"].supportedStates == [ClimateState.Off, ClimateState.Auto]
  {
    map["climate" := EntityDescription(
      Domain, "hvac", "Main climate hvac",
      [ClimateState.Off, ClimateState.Auto], ClimateAttributesType,
      ["turn_off", "get_state", "set_temperature"])]
  }

  /** The commands and the state query address the same hub entity. */
  lemma CommandsTargetQueriedEntity(entityId: string, temperature: int)
    ensures TurnOff(entityId).data["entity_id"] == JString(GetState(entityId).entityId)
    ensures SetTemperature(entityId, temperature).data["entity_id"] == JString(GetState(entityId).entityId)
  {
  }

  /** Each command sends exactly the parameters its tool's schema advertises. */
  lemma CommandsMatchSchemas(entityId: string, temperature: int)
    ensures TurnOff(entityId).data.Keys == Tools()[0].schema.parameters.Keys
    ensures SetTemperature(entityId, temperature).data.Keys == Tools()[1].schema.parameters.Keys
  {
    ControlSchemaEntityId(None);
    ControlSchemaEntityId(Some(["temperature"]));
    ControlSchemaTemperature(None);
    ControlSchemaTemperature(Some(["temperature"]));
  }

  /** Every tool's schema requires `entity_id` and defines it. */
  lemma ToolsRequireEntityId()
    ensures forall t :: t in Tools() ==> t.schema.required == ["entity_id"] && "entity_id" in t.schema.parameters
  {
    ControlSchemaEntityId(None);
    ControlSchemaEntityId(Some(["temperature"]));
  }

  /** Every tool key names a method the service defines. */
  lemma ToolKeysAreMethods()
    ensures forall t :: t in Tools() ==> t.key in MethodNames
  {
  }

  /** `get_state` is listed as available for the entity although no tool advertises it. */
  lemma GetStateListedButNotAdvertised()
    ensures "get_state" in AvailableEntities()["climate"].availableTools
    ensures forall t :: t in Tools() ==> t.key != "get_state"
  {
  }
}
