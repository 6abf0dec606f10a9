/** The light domain: `LightControl.get_llm_schema` and `LightService`. */
module LightService {
  import opened Wrappers
  import opened JsonValues
  import opened Entity
  import opened DomainStates
  import opened Schemas
  import opened Base

  const Domain := EntityDomain.Light

  /** The methods the service class defines for its tools. */
  const MethodNames: set<string> := {"turn_on", "turn_off", "get_state"}

  const EntityIdDescription := "The ID of the light to control"

  /** The `brightness_pct` parameter: an optional integer percentage. */
  function BrightnessParameter(): (p: Parameter)
    ensures IntegerRange(p, 0, 100) && p.optional == Some(true)
  {
    Parameter("integer", Some("Brightness level (0-100)"), Some(0), Some(100), None, None, None, None, Some(true))
  }

  /** The `rgb_color` parameter: an optional array of exactly three integers in 0..255. */
  function RgbColorParameter(): (p: Parameter)
    ensures p.jsonType == "array" && p.optional == Some(true)
    ensures p.minItems == Some(3) && p.maxItems == Some(3)
    ensures p.items.Some? && IntegerRange(p.items.value, 0, 255)
  {
    Parameter("array", Some("RGB color values [red, green, blue]"), None, None,
      Some(Parameter("integer", None, Some(0), Some(255), None, None, None, None, None)),
      Some(3), Some(3), None, Some(true))
  }

  /** The `color_temp` parameter: an optional temperature in Kelvin, 2000..6500. */
  function ColorTempParameter(): (p: Parameter)
    ensures IntegerRange(p, 2000, 6500) && p.optional == Some(true)
  {
    Parameter("integer", Some("Color temperature in Kelvin"), Some(2000), Some(6500), None, None, None, None, Some(true))
  }

  /** The light feature table: brightness, color and color temperature. */
  function Features(): FeatureTable {
    map[
      "brightness" := map["brightness_pct" := BrightnessParameter()],
      "color" := map["rgb_color" := RgbColorParameter()],
      "color_temp" := map["color_temp" := ColorTempParameter()]
    ]
  }

  /** Each feature defines its own parameter, none of them `entity_id`. */
  lemma FeaturesWellFormed()
    ensures Disjoint(Features()) && KeepsEntityId(Features())
    ensures DefinesWithin(Features(), FeatureParameters)
  {
  }

  /** The three light parameters a schema can carry besides `entity_id`. */
  const FeatureParameters: set<string> := {"brightness_pct", "rgb_color", "color_temp"}

  /** `LightControl.get_llm_schema(features)`: the base schema plus one parameter per known requested feature. */
  function ControlSchema(features: Option<seq<string>> := None): (r: Schema)
    ensures r.kind == "object" && r.required == ["entity_id"]
    ensures forall k :: k in r.parameters ==> k == "entity_id" || k in FeatureParameters
  {
    FeaturesWellFormed();
    BuildSchemaWithin(EntityIdDescription, Features(), features, FeatureParameters);
    BuildSchema(EntityIdDescription, Features(), features)
  }

  /** The `entity_id` definition is always present and never overwritten by a feature. */
  lemma ControlSchemaEntityId(features: Option<seq<string>>)
    ensures "entity_id" in ControlSchema(features).parameters
    ensures ControlSchema(features).parameters["entity_id"] == EntityIdParameter(EntityIdDescription)
  {
    FeaturesWellFormed();
    BuildSchemaEntityId(EntityIdDescription, Features(), features);
  }

  /** `brightness_pct` is present exactly when `brightness` is requested, with its 0..100 definition. */
  lemma ControlSchemaBrightness(features: Option<seq<string>>)
    ensures var p := ControlSchema(features).parameters;
      && ("brightness_pct" in p <==> features.Some? && "brightness" in features.value)
      && ("brightness_pct" in p ==> p["brightness_pct"] == BrightnessParameter())
  {
    FeaturesWellFormed();
    if features.Some? {
      ProvidesOwner(Features(), features.value, "brightness", "brightness_pct");
    }
    if "brightness_pct" in ControlSchema(features).parameters {
      BuildSchemaValue(EntityIdDescription, Features(), features, "brightness", "brightness_pct");
    }
  }

  /** `rgb_color` is present exactly when `color` is requested, with its three-integer definition. */
  lemma ControlSchemaColor(features: Option<seq<string>>)
    ensures var p := ControlSchema(features).parameters;
      && ("rgb_color" in p <==> features.Some? && "color" in features.value)
      && ("rgb_color" in p ==> p["rgb_color"] == RgbColorParameter())
  {
    FeaturesWellFormed();
    if features.Some? {
      ProvidesOwner(Features(), features.value, "color", "rgb_color");
    }
    if "rgb_color" in ControlSchema(features).parameters {
      BuildSchemaValue(EntityIdDescription, Features(), features, "color", "rgb_color");
    }
  }

  /** `color_temp` is present exactly when `color_temp` is requested, with its Kelvin definition. */
  lemma ControlSchemaColorTemp(features: Option<seq<string>>)
    ensures var p := ControlSchema(features).parameters;
      && ("color_temp" in p <==> features.Some? && "color_temp" in features.value)
      && ("color_temp" in p ==> p["color_temp"] == ColorTempParameter())
  {
    FeaturesWellFormed();
    if features.Some? {
      ProvidesOwner(Features(), features.value, "color_temp", "color_temp");
    }
    if "color_temp" in ControlSchema(features).parameters {
      BuildSchemaValue(EntityIdDescription, Features(), features, "color_temp", "color_temp");
    }
  }

  /** Without features, or with none the table knows, the schema holds `entity_id` alone. */
  lemma ControlSchemaBase(features: Option<seq<string>>)
    requires features.None? || forall f :: f in features.value ==> f !in Features()
    ensures ControlSchema(features).parameters.Keys == {"entity_id"}
  {
    FeaturesWellFormed();
  }

  /** The order in which features are requested does not change the schema. */
  lemma ControlSchemaOrderIndependent(fs1: seq<string>, fs2: seq<string>)
    requires forall f :: f in fs1 <==> f in fs2
    ensures ControlSchema(Some(fs1)) == ControlSchema(Some(fs2))
  {
    FeaturesWellFormed();
    BuildSchemaOrderIndependent(EntityIdDescription, Features(), fs1, fs2);
  }

  /** The features the `turn_on` tool requests. */
  const TurnOnFeatures: seq<string> := ["brightness", "color", "color_temp"]

  /** The wire names of the `tools` table, in declaration order. */
  const ToolNames: seq<string> := ["light_turn_on", "light_turn_off"]

  /** The `tools` table, in declaration order. */
  function Tools(): (r: seq<Tool>)
    ensures |r| == 2
    ensures r[0].key == "turn_on" && r[0].name == ToolNames[0]
    ensures r[1].key == "turn_off" && r[1].name == ToolNames[1]
    ensures r[0].schema == ControlSchema(Some(TurnOnFeatures)) && r[1].schema == ControlSchema()
  {
    [ Tool("turn_on", "light_turn_on", "Turn on a light with optional brightness and color settings",
           ControlSchema(Some(TurnOnFeatures))),
      Tool("turn_off", "light_turn_off", "Turn off a light", ControlSchema()) ]
  }

  /** Whether a brightness percentage is forwarded; anything else is dropped without an error. */
  predicate BrightnessInRange(brightnessPct: int) {
    0 <= brightnessPct <= 100
  }

  /** `turn_on(entity_id, brightness_pct=-1)`. */
  function TurnOn(entityId: string, brightnessPct: int := -1): (req: Request)
    ensures req.ServiceCall? && req.domain == Domain && req.service == "turn_on"
    ensures req.data.Keys == if BrightnessInRange(brightnessPct) then {"entity_id", "brightness_pct"} else {"entity_id"}
    ensures req.data["entity_id"] == JString(EntityRef(Domain, entityId))
    ensures "brightness_pct" in req.data ==> req.data["brightness_pct"] == JInt(brightnessPct)
  {
    EntityRefPrefix(Domain, "light.", entityId);
    var data := map["entity_id" := JString("light." + entityId)];
    CallDomainService(Domain, "turn_on", if 0 <= brightnessPct <= 100 then data["brightness_pct" := JInt(brightnessPct)] else data)
  }

  /** `turn_off(entity_id)`. */
  function TurnOff(entityId: string): (req: Request)
    ensures req.ServiceCall? && req.domain == Domain && req.service == "turn_off"
    ensures req.data == map["entity_id" := JString(EntityRef(Domain, entityId))]
  {
    EntityRefPrefix(Domain, "light.", entityId);
    CallDomainService(Domain, "turn_off", map["entity_id" := JString("light." + entityId)])
  }

  /** `get_state(entity_id)`. */
  function GetState(entityId: string): (req: Request)
    ensures req == StateQuery("light." + entityId)
  {
    GetEntityState(Domain, entityId)
  }

  /** `get_available_entities()`: the one sample entity. */
  function AvailableEntities(): (r: map<string, EntityDescription<LightState>>)
    ensures r.Keys == {"ceiling_lights"}
    ensures forall k :: k in r ==> r[k].domain == Domain && r[k].attributes == LightAttributesType
    ensures forall k, t :: k in r && t in r[k].availableTools ==> t in MethodNames
    ensures r["ceiling_lights"].supportedStates == [LightState.On, LightState.Off]
  {
    map["ceiling_lights" := EntityDescription(
      Domain, "Ceiling Lights", "Main Ceiling lights",
      [LightState.On, LightState.Off], LightAttributesType,
      ["turn_on", "turn_off", "get_state"])]
  }

  /** The commands and the state query address the same hub entity. */
  lemma CommandsTargetQueriedEntity(entityId: string, brightnessPct: int)
    ensures TurnOn(entityId, brightnessPct).data["entity_id"] == JString(GetState(entityId).entityId)
    ensures TurnOff(entityId).data["entity_id"] == JString(GetState(entityId).entityId)
  {
  }

  /** Two brightness arguments give the same request exactly when they are equal or both out of range. */
  lemma TurnOnBrightnessDistinguished(entityId: string, b1: int, b2: int)
    ensures TurnOn(entityId, b1) == TurnOn(entityId, b2) <==>
      b1 == b2 || (!BrightnessInRange(b1) && !BrightnessInRange(b2))
  {
    if TurnOn(entityId, b1) == TurnOn(entityId, b2) && BrightnessInRange(b1) {
      assert TurnOn(entityId, b1).data["brightness_pct"] == JInt(b1);
    }
  }

  /** A `turn_on` payload holds at most the entity and the brightness. */
  lemma TurnOnCarriesNoColor(entityId: string, brightnessPct: int)
    ensures "rgb_color" !in TurnOn(entityId, brightnessPct).data && "color_temp" !in TurnOn(entityId, brightnessPct).data
  {
    assert TurnOn(entityId, brightnessPct).data.Keys <= {"entity_id", "brightness_pct"};
  }

  /** `turn_on` advertises color parameters in its schema but never forwards them. */
  lemma TurnOnDropsColor(entityId: string, brightnessPct: int)
    ensures "rgb_color" in Tools()[0].schema.parameters && "color_temp" in Tools()[0].schema.parameters
    ensures "rgb_color" !in TurnOn(entityId, brightnessPct).data && "color_temp" !in TurnOn(entityId, brightnessPct).data
  {
    assert TurnOnFeatures[1] == "color" && TurnOnFeatures[2] == "color_temp";
    ControlSchemaColor(Some(TurnOnFeatures));
    ControlSchemaColorTemp(Some(TurnOnFeatures));
    TurnOnCarriesNoColor(entityId, brightnessPct);
  }

  /** `turn_off` sends exactly the entity, which is all its tool's schema advertises. */
  lemma TurnOffMatchesSchema(entityId: string)
    ensures Tools()[1].schema.parameters.Keys == {"entity_id"}
    ensures TurnOff(entityId).data.Keys == Tools()[1].schema.parameters.Keys
  {
    ControlSchemaBase(None);
  }

  /** Everything `turn_on` sends is a parameter its tool's schema advertises. */
  lemma TurnOnWithinSchema(entityId: string, brightnessPct: int)
    ensures TurnOn(entityId, brightnessPct).data.Keys <= Tools()[0].schema.parameters.Keys
  {
    assert "brightness" in TurnOnFeatures;
    ControlSchemaEntityId(Some(TurnOnFeatures));
    ControlSchemaBrightness(Some(TurnOnFeatures));
  }

  /** `get_state` is listed as available for the entity although no tool advertises it. */
  lemma GetStateListedButNotAdvertised()
    ensures "get_state" in AvailableEntities()["ceiling_lights"].availableTools
    ensures forall t :: t in Tools() ==> t.key != "get_state"
  {
  }

  /** Every tool's schema requires `entity_id` and defines it. */
  lemma ToolsRequireEntityId()
    ensures forall t :: t in Tools() ==> t.schema.required == ["entity_id"] && "entity_id" in t.schema.parameters
  {
    ControlSchemaEntityId(Some(TurnOnFeatures));
    ControlSchemaEntityId(None);
  }

  /** Every tool key names a method the service defines. */
  lemma ToolKeysAreMethods()
    ensures forall t :: t in Tools() ==> t.key in MethodNames
  {
  }
}
