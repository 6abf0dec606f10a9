/** The five service tool tables taken together, as an MCP client would see them listed. */
module Catalog {
  import LightService
  import ClimateService
  import HumidifierService
  import AlarmControlPanelService
  import LockService

  /** The wire names of all domain tools. */
  const WireNames: seq<string> := [
    "light_turn_on", "light_turn_off", "climate.turn_off", "climate.set_temperature",
    "humidifier-turn_on", "humidifier-turn_off", "humidifier-set_temperature",
    "alarm_control_panel.disarm", "alarm_control_panel.arm", "lock-lock", "lock-unlock"]

  /** `WireNames` is the five `tools` tables' names, table by table in declaration order. */
  lemma WireNamesCollectTables()
    ensures WireNames == LightService.ToolNames + ClimateService.ToolNames + HumidifierService.ToolNames
      + AlarmControlPanelService.ToolNames + LockService.ToolNames
  {
    var a := LightService.ToolNames + ClimateService.ToolNames;
    assert a == WireNames[..4];
    var b := a + HumidifierService.ToolNames;
    assert b == WireNames[..7];
    var c := b + AlarmControlPanelService.ToolNames;
    assert c == WireNames[..9];
  }

  /** The eleven wire names are pairwise distinct, so a name identifies one tool of one domain. */
  lemma WireNamesDistinct()
    ensures |WireNames| == 11
    ensures forall i, j :: 0 <= i < j < |WireNames| ==> WireNames[i] != WireNames[j]
  {
  }
}
