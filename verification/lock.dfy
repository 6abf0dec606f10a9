/** The lock domain: `LockControl.get_llm_schema` and `LockService`. */
module LockService {
  import opened Wrappers
  import opened JsonValues
  import opened Entity
  import opened DomainStates
  import opened Schemas
  import opened Base

  const Domain := EntityDomain.Lock

  /** The methods the service class defines for its tools. */
  const MethodNames: set<string> := {"lock", "unlock", "get_state"}

  const EntityIdDescription := "The ID of the lock to control"

  /** The lock feature table is empty. */
  function Features(): FeatureTable {
    map[]
  }

  /** `LockControl.get_llm_schema(features)`: no feature adds anything, so every schema is the base one. */
  function ControlSchema(features: Option<seq<string>> := None): (r: Schema)
    ensures r.kind == "object" && r.required == ["entity_id"]
    ensures r.parameters == map["entity_id" := EntityIdParameter(EntityIdDescription)]
  {
    BuildSchemaEntityId(EntityIdDescription, Features(), features);
    var r := BuildSchema(EntityIdDescription, Features(), features);
    assert r.parameters.Keys == {"entity_id"};
    r
  }

  /** The wire names of the `tools` table, in declaration order. */
  const ToolNames: seq<string> := ["lock-lock", "lock-unlock"]

  /** The `tools` table, in declaration order; both tools ask for the entity alone. */
  function Tools(): (r: seq<Tool>)
    ensures |r| == 2
    ensures r[0].key == "lock" && r[0].name == ToolNames[0]
    ensures r[1].key == "unlock" && r[1].name == ToolNames[1]
    ensures forall t :: t in r ==> t.schema.parameters.Keys == {"entity_id"}
    ensures forall t :: t in r ==> t.schema.required == ["entity_id"]
  {
    [ Tool("lock", "lock-lock", "Lock (enable) a lock entity", ControlSchema()),
      Tool("unlock", "lock-unlock", "Unlock (disable) a lock entity", ControlSchema()) ]
  }

  /** `lock(entity_id)`. */
  function Lock(entityId: string): (req: Request)
    ensures req.ServiceCall? && req.domain == Domain && req.service == "lock"
    ensures req.data == map["entity_id" := JString(EntityRef(Domain, entityId))]
  {
    EntityRefPrefix(Domain, "lock.", entityId);
    CallDomainService(Domain, "lock", map["entity_id" := JString("lock." + entityId)])
  }

  /** `unlock(entity_id)`. */
  function Unlock(entityId: string): (req: Request)
    ensures req.ServiceCall? && req.domain == Domain && req.service == "unlock"
    ensures req.data == map["entity_id" := JString(EntityRef(Domain, entityId))]
  {
    EntityRefPrefix(Domain, "lock.", entityId);
    CallDomainService(Domain, "unlock", map["entity_id" := JString("lock." + entityId)])
  }

  /** `get_state(entity_id)`. */
  function GetState(entityId: string): (req: Request)
    ensures req == StateQuery("lock." + entityId)
  {
    EntityRefPrefix(Domain, "lock.", entityId);
    GetEntityState(Domain, entityId)
  }

  /** `get_available_entities()`: the one sample lock. */
  function AvailableEntities(): (r: map<string, EntityDescription<LockState>>)
    ensures r.Keys == {"front_door"}
    ensures forall k :: k in r ==> r[k].domain == Domain && r[k].attributes == LockAttributesType
    ensures forall k, t :: k in r && t in r[k].availableTools ==> t in MethodNames
    ensures forall st: LockState :: st in r["front_door"].supportedStates
  {
    var states := [LockState.Unlocked, LockState.Unlocking, LockState.Locked, LockState.Locking];
    forall st: LockState ensures st in states {
      assert st.Unlocked? ==> st == states[0];
      assert st.Unlocking? ==> st == states[1];
      assert st.Locked? ==> st == states[2];
      assert st.Locking? ==> st == states[3];
    }
    map["front_door" := EntityDescription(
      Domain, "Front door lock", "Main house lock", states, LockAttributesType,
      ["unlock", "lock", "get_state"])]
  }

  /** Locking and unlocking address the entity `get_state` reads, and differ only in the verb. */
  lemma CommandsTargetQueriedEntity(entityId: string)
    ensures Lock(entityId).data["entity_id"] == JString(GetState(entityId).entityId)
    ensures Lock(entityId).data == Unlock(entityId).data && Lock(entityId) != Unlock(entityId)
  {
  }

  /** Each command sends exactly the parameters its tool's schema advertises. */
  lemma CommandsMatchSchemas(entityId: string)
    ensures Lock(entityId).data.Keys == Tools()[0].schema.parameters.Keys
    ensures Unlock(entityId).data.Keys == Tools()[1].schema.parameters.Keys
  {
  }

  /** Every tool key names a method the service defines. */
  lemma ToolKeysAreMethods()
    ensures forall t :: t in Tools() ==> t.key in MethodNames
  {
  }

  /** `get_state` is listed as available for the entity although no tool advertises it. */
  lemma GetStateListedButNotAdvertised()
    ensures "get_state" in AvailableEntities()["front_door"].availableTools
    ensures forall t :: t in Tools() ==> t.key != "get_state"
  {
  }
}
