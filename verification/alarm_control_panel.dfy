/** The alarm control panel domain: `AlarmControlPanelControl.get_llm_schema` and its service. */
module AlarmControlPanelService {
  import opened Wrappers
  import opened JsonValues
  import opened Entity
  import opened AlarmModel
  import opened Schemas
  import opened Base

  const Domain := EntityDomain.AlarmControlPanel

  /** The methods the service class defines for its tools; it defines no `get_state`. */
  const MethodNames: set<string> := {"disarm", "arm"}

  /** The `entity_id` description, copied unchanged from the light domain. */
  const EntityIdDescription := "The ID of the light to control"

  /** The `alarm_mode` parameter: a string restricted to the mode values, flagged as not optional. */
  function AlarmModeParameter(): (p: Parameter)
    ensures p.jsonType == "string" && p.optional == Some(false)
    ensures p.enumValues == Some(ModeValues())
  {
    Parameter("string", Some("The mode of the alarm control panel"), None, None, None, None, None,
      Some(ModeValues()), Some(false))
  }

  /** The `code` parameter: an optional string. */
  function CodeParameter(): (p: Parameter)
    ensures p.jsonType == "string" && p.optional == Some(true) && p.enumValues.None?
  {
    Parameter("string", Some("The code to arm the alarm control panel"), None, None, None, None, None, None, Some(true))
  }

  /** The alarm feature table: `alarm_mode` and `code`. */
  function Features(): FeatureTable {
    map[
      "alarm_mode" := map["alarm_mode" := AlarmModeParameter()],
      "code" := map["code" := CodeParameter()]
    ]
  }

  lemma FeaturesWellFormed()
    ensures Disjoint(Features()) && KeepsEntityId(Features())
    ensures DefinesWithin(Features(), {"alarm_mode", "code"})
  {
  }

  /** `AlarmControlPanelControl.get_llm_schema(features)`. */
  function ControlSchema(features: Option<seq<string>> := None): (r: Schema)
    ensures r.kind == "object" && r.required == ["entity_id"]
    ensures forall k :: k in r.parameters ==> k in {"entity_id", "alarm_mode", "code"}
  {
    FeaturesWellFormed();
    BuildSchemaWithin(EntityIdDescription, Features(), features, {"alarm_mode", "code"});
    BuildSchema(EntityIdDescription, Features(), features)
  }

  /** The `entity_id` definition is always present and never overwritten. */
  lemma ControlSchemaEntityId(features: Option<seq<string>>)
    ensures "entity_id" in ControlSchema(features).parameters
    ensures ControlSchema(features).parameters["entity_id"] == EntityIdParameter(EntityIdDescription)
  {
    FeaturesWellFormed();
    BuildSchemaEntityId(EntityIdDescription, Features(), features);
  }

  /** `alarm_mode` is present exactly when it is requested, with its definition. */
  lemma ControlSchemaAlarmMode(features: Option<seq<string>>)
    ensures var p := ControlSchema(features).parameters;
      && ("alarm_mode" in p <==> features.Some? && "alarm_mode" in features.value)
      && ("alarm_mode" in p ==> p["alarm_mode"] == AlarmModeParameter())
  {
    FeaturesWellFormed();
    if features.Some? {
      ProvidesOwner(Features(), features.value, "alarm_mode", "alarm_mode");
    }
    if "alarm_mode" in ControlSchema(features).parameters {
      BuildSchemaValue(EntityIdDescription, Features(), features, "alarm_mode", "alarm_mode");
    }
  }

  /** `code` is present exactly when it is requested, with its definition. */
  lemma ControlSchemaCode(features: Option<seq<string>>)
    ensures var p := ControlSchema(features).parameters;
      && ("code" in p <==> features.Some? && "code" in features.value)
      && ("code" in p ==> p["code"] == CodeParameter())
  {
    FeaturesWellFormed();
    if features.Some? {
      ProvidesOwner(Features(), features.value, "code", "code");
    }
    if "code" in ControlSchema(features).parameters {
      BuildSchemaValue(EntityIdDescription, Features(), features, "code", "code");
    }
  }

  /** The features the `arm` tool requests. */
  const ArmFeatures: seq<string> := ["code", "alarm_mode"]

  /** The wire names of the `tools` table, in declaration order. */
  const ToolNames: seq<string> := ["alarm_control_panel.disarm", "alarm_control_panel.arm"]

  /** The `tools` table, in declaration order. */
  function Tools(): (r: seq<Tool>)
    ensures |r| == 2
    ensures r[0].key == "disarm" && r[0].name == ToolNames[0]
    ensures r[1].key == "arm" && r[1].name == ToolNames[1]
    ensures r[0].schema == ControlSchema(Some(["code"])) && r[1].schema == ControlSchema(Some(ArmFeatures))
  {
    [ Tool("disarm", "alarm_control_panel.disarm", "Disarm an alarm control panel entity",
           ControlSchema(Some(["code"]))),
      Tool("arm", "alarm_control_panel.arm", "Arm the alarm control panel entity",
           ControlSchema(Some(ArmFeatures))) ]
  }

  /** The payload both commands send: the entity and the code, `null` when none is given. */
  function CommandData(entityId: string, code: Option<string>): (data: JsonObject)
    ensures data.Keys == {"entity_id", "code"}
    ensures data["entity_id"] == JString(EntityRef(Domain, entityId))
    ensures data["code"] == JNull <==> code.None?
    ensures code.Some? ==> data["code"] == JString(code.value)
  {
    EntityRefPrefix(Domain, "alarm_control_panel.", entityId);
    map["entity_id" := JString("alarm_control_panel." + entityId), "code" := OptionalString(code)]
  }

  /** `disarm(entity_id, code=None)`: the hub verb is `alarm_disarm`. */
  function Disarm(entityId: string, code: Option<string> := None): (req: Request)
    ensures req.ServiceCall? && req.domain == Domain && req.service == "alarm_disarm"
    ensures req.data == CommandData(entityId, code)
  {
    CallDomainService(Domain, "alarm_disarm", CommandData(entityId, code))
  }

  /** How `f"{alarm_mode}"` renders the mode argument: `None` prints as `None`. */
  function ModeText(alarmMode: Option<string>): (t: string)
    ensures alarmMode.Some? ==> t == alarmMode.value
    ensures alarmMode.None? ==> t == "None"
  {
    alarmMode.GetOr("None")
  }

  /**
   * `arm(entity_id, code=None, alarm_mode=None)`: the hub verb is `alarm_` followed by the mode;
   * the mode itself is not part of the payload.
   */
  function Arm(entityId: string, code: Option<string> := None, alarmMode: Option<string> := None): (req: Request)
    ensures req.ServiceCall? && req.domain == Domain
    ensures |req.service| == 6 + |ModeText(alarmMode)|
    ensures req.service[..6] == "alarm_" && req.service[6..] == ModeText(alarmMode)
    ensures req.data == CommandData(entityId, code)
  {
    CallDomainService(Domain, "alarm_" + ModeText(alarmMode), CommandData(entityId, code))
  }

  /** Different modes reach different hub verbs; a missing mode is the same as the string `None`. */
  lemma ArmModeDistinguished(entityId: string, code: Option<string>, m1: Option<string>, m2: Option<string>)
    ensures Arm(entityId, code, m1) == Arm(entityId, code, m2) <==> ModeText(m1) == ModeText(m2)
    ensures Arm(entityId, code, None) == Arm(entityId, code, Some("None"))
  {
    var s1 := Arm(entityId, code, m1).service;
    var s2 := Arm(entityId, code, m2).service;
    if s1 == s2 {
      assert ModeText(m1) == s1[6..] == s2[6..] == ModeText(m2);
    }
  }

  /** Arming without a mode calls `alarm_None`, which is the verb of no mode. */
  lemma ArmWithoutModeNamesNoMode(entityId: string, code: Option<string>, m: AlarmControlPanelMode)
    ensures Arm(entityId, code).service == "alarm_None"
    ensures Arm(entityId, code).service != Arm(entityId, code, Some(m.Value())).service
  {
    ArmModeDistinguished(entityId, code, None, Some(m.Value()));
  }

  /** Arming with the `disarm` mode is exactly `disarm`. */
  lemma ArmDisarmModeIsDisarm(entityId: string, code: Option<string>)
    ensures Arm(entityId, code, Some(AlarmControlPanelMode.Disarm.Value())) == Disarm(entityId, code)
  {
    assert "alarm_" + "disarm" == "alarm_disarm";
  }

  /** The `arm` tool flags `alarm_mode` as not optional, yet the schema still requires only `entity_id`. */
  lemma ArmModeAdvertisedNotRequired()
    ensures "alarm_mode" in Tools()[1].schema.parameters
    ensures Tools()[1].schema.parameters["alarm_mode"].optional == Some(false)
    ensures Tools()[1].schema.parameters["alarm_mode"].enumValues == Some(ModeValues())
    ensures "alarm_mode" !in Tools()[1].schema.required
  {
    assert "alarm_mode" in ArmFeatures;
    ControlSchemaAlarmMode(Some(ArmFeatures));
  }

  /** The `disarm` tool asks for the entity and the code. */
  lemma DisarmSchemaKeys()
    ensures ControlSchema(Some(["code"])).parameters.Keys == {"entity_id", "code"}
  {
    ControlSchemaEntityId(Some(["code"]));
    ControlSchemaCode(Some(["code"]));
    ControlSchemaAlarmMode(Some(["code"]));
  }

  /** The `arm` tool asks for the entity, the code and the mode. */
  lemma ArmSchemaKeys()
    ensures ControlSchema(Some(ArmFeatures)).parameters.Keys == {"entity_id", "code", "alarm_mode"}
  {
    assert "code" in ArmFeatures && "alarm_mode" in ArmFeatures;
    ControlSchemaEntityId(Some(ArmFeatures));
    ControlSchemaCode(Some(ArmFeatures));
    ControlSchemaAlarmMode(Some(ArmFeatures));
    var p := ControlSchema(Some(ArmFeatures)).parameters;
    assert "entity_id" in p && "code" in p && "alarm_mode" in p;
    assert p.Keys == {"entity_id", "code", "alarm_mode"};
  }

  /** `disarm` sends exactly the parameters its schema advertises. */
  lemma DisarmMatchesSchema(entityId: string, code: Option<string>)
    ensures Disarm(entityId, code).data.Keys == Tools()[0].schema.parameters.Keys
  {
    DisarmSchemaKeys();
  }

  /** `arm` sends every parameter its schema advertises except the mode. */
  lemma ArmOmitsMode(entityId: string, code: Option<string>, alarmMode: Option<string>)
    ensures Arm(entityId, code, alarmMode).data.Keys == Tools()[1].schema.parameters.Keys - {"alarm_mode"}
  {
    ArmSchemaKeys();
    ArmDataKeys(entityId, code, alarmMode);
  }

  /** `arm` sends the entity and the code, whatever the mode. */
  lemma ArmDataKeys(entityId: string, code: Option<string>, alarmMode: Option<string>)
    ensures Arm(entityId, code, alarmMode).data.Keys == {"entity_id", "code"}
  {
  }

  /** `get_available_entities()`: the one sample panel, supporting every alarm state. */
  function AvailableEntities(): (r: map<string, EntityDescription<AlarmControlPanelState>>)
    ensures r.Keys == {"alarm_control_panel"}
    ensures forall k :: k in r ==> r[k].domain == Domain && r[k].attributes == AlarmControlPanelAttributesType
    ensures forall k, t :: k in r && t in r[k].availableTools ==> t in MethodNames
    ensures forall st :: st in r["alarm_control_panel"].supportedStates
  {
    forall st: AlarmControlPanelState ensures st in AllStates() {
      AllStatesComplete(st);
    }
    map["alarm_control_panel" := EntityDescription(
      Domain, "security", "Main alarm control panel",
      AllStates(), AlarmControlPanelAttributesType,
      ["disarm", "arm"])]
  }

  /** Every tool's schema requires `entity_id` and defines it. */
  lemma ToolsRequireEntityId()
    ensures forall t :: t in Tools() ==> t.schema.required == ["entity_id"] && "entity_id" in t.schema.parameters
  {
    ControlSchemaEntityId(Some(["code"]));
    ControlSchemaEntityId(Some(ArmFeatures));
  }

  /** Every tool key names a method the service defines. */
  lemma ToolKeysAreMethods()
    ensures forall t :: t in Tools() ==> t.key in MethodNames
  {
  }

  /** The panel's available tools are exactly the two tool keys, in table order. */
  lemma AvailableToolsAreToolKeys()
    ensures AvailableEntities()["alarm_control_panel"].availableTools == [Tools()[0].key, Tools()[1].key]
  {
  }
}
