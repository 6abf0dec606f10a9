/** The vocabulary every domain service shares: domains, the universal states, attributes and descriptions. */
module Entity {
  import opened Wrappers

  /** The two states the hub may report for any entity. */
  datatype BaseEntityState = Unavailable | Unknown {
    function Value(): string {
      match this
      case Unavailable => "unavailable"
      case Unknown => "unknown"
    }
  }

  /** Every universal state, in declaration order. */
  function AllBaseEntityStates(): (r: seq<BaseEntityState>)
    ensures |r| == 2 && r[0].Value() != r[1].Value()
    ensures (set st | st in r :: st.Value()) == {"unavailable", "unknown"}
  {
    [Unavailable, Unknown]
  }

  /**
   * The entity domains. The first five are the members the source declares; the services also
   * refer to `lock`, `humidifier` and `alarm_control_panel`, which the declaration lacks, so the
   * model adds them.
   */
  datatype EntityDomain = Light | Climate | Switch | Sensor | Security | Lock | Humidifier | AlarmControlPanel {

    /** The string value, used as REST path segment and as entity-id prefix. */
    function Value(): (r: string)
      ensures '.' !in r && |r| > 0
    {
      match this
      case Light => "light"
      case Climate => "climate"
      case Switch => "switch"
      case Sensor => "sensor"
      case Security => "security"
      case Lock => "lock"
      case Humidifier => "humidifier"
      case AlarmControlPanel => "alarm_control_panel"
    }
  }

  /** Distinct domains have distinct string values, so a value names one domain. */
  lemma DomainValueInjective(d1: EntityDomain, d2: EntityDomain)
    ensures d1.Value() == d2.Value() <==> d1 == d2
  {
  }

  /** The attribute fields every entity carries. */
  datatype EntityAttributes = EntityAttributes(friendlyName: string, supportedFeatures: seq<string>, deviceClass: Option<string>)

  /** Builds the attributes record; only `friendly_name` has no default. */
  function NewEntityAttributes(friendlyName: string, supportedFeatures: seq<string> := [], deviceClass: Option<string> := None): (a: EntityAttributes)
    ensures a.friendlyName == friendlyName
    ensures a.supportedFeatures == supportedFeatures && a.deviceClass == deviceClass
  {
    EntityAttributes(friendlyName, supportedFeatures, deviceClass)
  }

  /** Omitting the optional fields gives an empty feature list and no device class. */
  lemma EntityAttributesDefaults(friendlyName: string)
    ensures NewEntityAttributes(friendlyName) == EntityAttributes(friendlyName, [], None)
  {
  }

  /** The attribute record class a description points to (Python stores the class itself). */
  datatype AttributesType =
    | EntityAttributesType
    | LightAttributesType
    | ClimateAttributesType
    | HumidifierAttributesType
    | LockAttributesType
    | AlarmControlPanelAttributesType

  /** Static catalog metadata for one physical entity; every field is required. */
  datatype EntityDescription<S> = EntityDescription(
    domain: EntityDomain,
    name: string,
    description: string,
    supportedStates: seq<S>,
    attributes: AttributesType,
    availableTools: seq<string>)
}
