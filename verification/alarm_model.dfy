/** States, arming modes, code formats and attributes of alarm control panels. */
module AlarmModel {
  import opened Wrappers
  import opened Entity

  datatype AlarmControlPanelState =
    | Disarmed | ArmedHome | ArmedAway | ArmedNight | ArmedVacation | ArmedCustomBypass
    | Pending | Arming | Disarming | Triggered
  {
    function Value(): string {
      match this
      case Disarmed => "disarmed"
      case ArmedHome => "armed_home"
      case ArmedAway => "armed_away"
      case ArmedNight => "armed_night"
      case ArmedVacation => "armed_vacation"
      case ArmedCustomBypass => "armed_custom_bypass"
      case Pending => "pending"
      case Arming => "arming"
      case Disarming => "disarming"
      case Triggered => "triggered"
    }
  }

  /** Every panel state in declaration order (Python's `list(AlarmControlPanelState)`). */
  function AllStates(): (r: seq<AlarmControlPanelState>)
    ensures |r| == 10
    ensures forall i, j :: 0 <= i < j < |r| ==> r[i].Value() != r[j].Value()
    ensures r[0] == Disarmed && r[9] == Triggered
  {
    [Disarmed, ArmedHome, ArmedAway, ArmedNight, ArmedVacation, ArmedCustomBypass,
     Pending, Arming, Disarming, Triggered]
  }

  /** The modes a panel can be put in; each value is also the suffix of a hub service verb. */
  datatype AlarmControlPanelMode =
    | ArmAway | ArmHome | ArmNight | ArmVacation | ArmCustomBypass | Trigger | Disarm
  {
    function Value(): string {
      match this
      case ArmAway => "arm_away"
      case ArmHome => "arm_home"
      case ArmNight => "arm_night"
      case ArmVacation => "arm_vacation"
      case ArmCustomBypass => "arm_custom_bypass"
      case Trigger => "trigger"
      case Disarm => "disarm"
    }
  }

  /** Every mode in declaration order (Python's iteration over `AlarmControlPanelMode`). */
  function AllModes(): (r: seq<AlarmControlPanelMode>)
    ensures |r| == 7
    ensures forall i, j :: 0 <= i < j < |r| ==> r[i].Value() != r[j].Value()
    ensures r[5].Value() == "trigger" && r[6].Value() == "disarm"
  {
    [ArmAway, ArmHome, ArmNight, ArmVacation, ArmCustomBypass, Trigger, Disarm]
  }

  /** Every mode is listed by `AllModes`. */
  lemma AllModesComplete(m: AlarmControlPanelMode)
    ensures m in AllModes()
  {
  }

  /** Every state is listed by `AllStates`. */
  lemma AllStatesComplete(st: AlarmControlPanelState)
    ensures st in AllStates()
  {
  }

  /** The mode values in declaration order (`[mode.value for mode in AlarmControlPanelMode]`). */
  function ModeValues(): (r: seq<string>)
    ensures |r| == |AllModes()|
    ensures forall i :: 0 <= i < |r| ==> r[i] == AllModes()[i].Value()
  {
    seq(|AllModes()|, i requires 0 <= i < |AllModes()| => AllModes()[i].Value())
  }

  /**
   * Code formats. `NoCodeFormat` is the member declared with value `None`; because the enum
   * mixes in `str`, its value is the string `"None"`, not Python's `None`.
   */
  datatype AlarmControlPanelCodeFormat = NoCodeFormat | Number | Text {
    function Value(): (r: string)
      ensures r == "None" <==> this == NoCodeFormat
      ensures r in {"None", "number", "text"}
    {
      match this
      case NoCodeFormat => "None"
      case Number => "number"
      case Text => "text"
    }
  }

  /** Distinct code formats have distinct values. */
  lemma CodeFormatValueInjective(f1: AlarmControlPanelCodeFormat, f2: AlarmControlPanelCodeFormat)
    ensures f1.Value() == f2.Value() <==> f1 == f2
  {
  }

  /** Attributes of a panel: the common ones plus the alarm-specific fields. */
  datatype AlarmControlPanelAttributes = AlarmControlPanelAttributes(
    common: EntityAttributes,
    alarmState: AlarmControlPanelState,
    codeArmRequired: bool,
    codeFormat: Option<AlarmControlPanelCodeFormat>)

  /** Builds the attributes record; `friendly_name` and `alarm_state` have no default. */
  function NewAlarmControlPanelAttributes(
    friendlyName: string,
    alarmState: AlarmControlPanelState,
    codeArmRequired: bool := false,
    codeFormat: Option<AlarmControlPanelCodeFormat> := None,
    supportedFeatures: seq<string> := [],
    deviceClass: Option<string> := None): (a: AlarmControlPanelAttributes)
    ensures a.common.friendlyName == friendlyName && a.alarmState == alarmState
    ensures a.codeArmRequired == codeArmRequired && a.codeFormat == codeFormat
    ensures a.common.supportedFeatures == supportedFeatures && a.common.deviceClass == deviceClass
  {
    AlarmControlPanelAttributes(NewEntityAttributes(friendlyName, supportedFeatures, deviceClass), alarmState, codeArmRequired, codeFormat)
  }

  /** Omitted fields default to: no code required, no code format, no supported features, no device class. */
  lemma AlarmAttributesDefaults(friendlyName: string, alarmState: AlarmControlPanelState)
    ensures var a := NewAlarmControlPanelAttributes(friendlyName, alarmState);
      !a.codeArmRequired && a.codeFormat == None && a.common.supportedFeatures == [] && a.common.deviceClass == None
  {
  }
}
