# Home Assistant MCP domain services, modelled in Dafny

This project models the pure core of a Model Context Protocol server for Home Assistant.
That core has three layers.

- **Schema builders.** Each domain's `get_llm_schema(features)` starts from a schema with only
  an `entity_id` parameter. It then merges in the parameter fragment of every requested feature
  the domain's table knows, and skips unknown feature names.
- **Request builders.** The `LightService`, `ClimateService`, `HumidifierService`,
  `AlarmControlPanelService` and `LockService` methods each map their arguments to exactly one
  request for Home Assistant: a service call `(domain, verb, payload)` or a state query for
  `"<domain>.<id>"`. `BaseService` forwards that request to the injected callables and returns
  their result unchanged.
- **The legacy light handler in `server.py`.**
  - `turn_light_on` builds the payload and reduces the hub's JSON reply to `{state, brightness?}`.
    Any exception becomes `{"state": "error", "message": …}`.
  - `handle_list_tools` publishes one tool.
  - `handle_call_tool` routes that one name and rejects every other.

Entities, states, modes and attribute records are datatypes. JSON values are a small `Json`
datatype, and objects are `map<string, Json>`. Parameter fragments are typed `Parameter`
records. The two injected callables of a service are an abstract `Gateway`. The hub POST of the
legacy handler is an abstract `Hub` function. The 0–255 to percent rescaling of brightness is an
abstract `Rescale` function. Python's `len`, `[0]`, `[key]` and `in` on each kind of JSON value
are modelled with the exceptions CPython raises (`PyOps`), so that the legacy handler's error
paths are the source's own.

Files: `wrappers.dfy` (Option/Result), `json.dfy`, `strings.dfy`, `entity.dfy`,
`domain_states.dfy`, `alarm_model.dfy`, `schemas.dfy` (the shared `get_llm_schema` algorithm),
`base.dfy`, one file per domain service, `catalog.dfy` (the tool wire names across domains),
`python_ops.dfy` and `server.dfy`.

## Model

| member | source | states |
|---|---|---|
| JsonValues.OptionalString | src/home_assistant_server/services/alarm_control_panel.py:78 | An optional string argument is `null` in the payload exactly when it was not given, and otherwise the string itself |
| Strings.SplitAtFirst | src/home_assistant_server/services/_base.py:21 | Splitting at the first separator succeeds exactly when the separator occurs; the parts rejoin to the input and the head holds no separator |
| Strings.SplitJoin | src/home_assistant_server/services/_base.py:21 | Joining a separator-free head, the separator and any tail, then splitting at the first separator, gives back head and tail |
| Strings.IsSubstring | src/home_assistant_server/server.py:111 | Python's `in` on strings: true exactly when the needle starts at some position of the haystack |
| Entity.AllBaseEntityStates | src/home_assistant_server/models/entity.py:5-7 | The base entity states are exactly the two distinct values `unavailable` and `unknown` |
| Entity.EntityDomain.Value | src/home_assistant_server/models/entity.py:9-14 | Every domain value is a non-empty string without a dot, so `domain.id` references can be split back |
| Entity.DomainValueInjective | src/home_assistant_server/models/entity.py:9-14 | Two domains have the same string value exactly when they are the same domain |
| Entity.NewEntityAttributes | src/home_assistant_server/models/entity.py:16-20 | The attribute record keeps the given friendly name, supported features and device class |
| Entity.EntityAttributesDefaults | src/home_assistant_server/models/entity.py:16-20 | Given only a friendly name, supported features default to `[]` and device class to `None` |
| AlarmModel.AllStates | src/home_assistant_mcp/models/alarm_control_panel.py:4-15 | There are ten alarm states with pairwise-distinct values, the first `disarmed` and the last `triggered`; the list literal follows the declaration |
| AlarmModel.AllStatesComplete | src/home_assistant_mcp/models/alarm_control_panel.py:4-15 | Every alarm state appears in the declaration-order list |
| AlarmModel.AllModes | src/home_assistant_mcp/models/alarm_control_panel.py:18-26 | There are seven alarm modes with pairwise-distinct values, ending in `trigger` and `disarm`; the list literal follows the declaration |
| AlarmModel.AllModesComplete | src/home_assistant_mcp/models/alarm_control_panel.py:18-26 | Every alarm mode appears in the declaration-order list |
| AlarmModel.ModeValues | src/home_assistant_server/services/alarm_control_panel.py:38 | The list of mode values has one entry per listed mode, each the value of the mode at the same position |
| AlarmModel.AlarmControlPanelCodeFormat.Value | src/home_assistant_mcp/models/alarm_control_panel.py:28-32 | The value of a code format is `"None"` exactly for NONE; the others are `number` and `text` |
| AlarmModel.CodeFormatValueInjective | src/home_assistant_mcp/models/alarm_control_panel.py:28-32 | Two code formats have the same value exactly when they are the same format |
| AlarmModel.NewAlarmControlPanelAttributes | src/home_assistant_mcp/models/alarm_control_panel.py:34-39 | The alarm attribute record keeps every field it is given, including the device class it inherits from the common attributes |
| AlarmModel.AlarmAttributesDefaults | src/home_assistant_mcp/models/alarm_control_panel.py:36-39 | The defaults are `code_arm_required = False`, `code_format = None`, `supported_features = []` and the inherited `device_class = None` |
| Schemas.Merge | src/home_assistant_server/services/light.py:69-72 | After the merge loop, a key is present exactly when it was in the base or some requested known feature provides it; a base key no feature provides keeps its value |
| Schemas.MergeValue | src/home_assistant_server/services/light.py:69-72 | With fragments that share no key, a key of a requested feature carries that feature's definition after the merge |
| Schemas.MergeValues | src/home_assistant_server/services/light.py:69-72 | The same, for every requested feature and every key it defines at once |
| Schemas.ProvidesOwner | src/home_assistant_server/services/light.py:71 | With fragments that share no key, a feature's key is provided exactly when that feature is requested |
| Schemas.BuildSchema | src/home_assistant_server/services/light.py:21-74 | The schema is an object requiring only `entity_id`; its parameters are `entity_id` plus exactly the keys of the requested features the table knows |
| Schemas.BuildSchemaEntityId | src/home_assistant_server/services/light.py:21-30 | When no fragment redefines `entity_id`, the schema's `entity_id` is the string parameter with the domain's description |
| Schemas.BuildSchemaValues | src/home_assistant_server/services/light.py:69-72 | With fragments that share no key, every key a requested feature defines carries that feature's definition in the schema |
| Schemas.BuildSchemaWithin | src/home_assistant_server/services/light.py:33-72 | If the fragments only define names from a set, the schema's parameters are `entity_id` and names from that set |
| Schemas.BuildSchemaValue | src/home_assistant_server/services/light.py:69-72 | With fragments that share no key and none redefining `entity_id`, a key present in the schema that a known feature defines carries that feature's definition |
| Schemas.BuildSchemaOrderIndependent | src/home_assistant_server/services/light.py:69-72 | With fragments that share no key, two feature lists holding the same names, in any order and with any duplicates, build the same schema |
| Base.Send | src/home_assistant_server/services/_base.py:11-21 | A service call goes to the injected `call_service` with its domain, verb and payload, a state query to the injected `get_state` with its reference; the callable's answer comes back unchanged |
| Base.EntityRef | src/home_assistant_server/services/_base.py:21 | A `domain.id` reference splits at its first dot back into the domain value and the id |
| Base.EntityRefPrefix | src/home_assistant_server/services/light.py:111 | A reference equals the literal prefix `"<domain>."` followed by the id, as the services spell it |
| Base.EntityRefInjective | src/home_assistant_server/services/_base.py:21 | Two references are equal exactly when their domains and ids are |
| Base.CallDomainService | src/home_assistant_server/services/_base.py:15-17 | The request carries exactly the service's own domain, the verb and the payload, unmodified |
| Base.CallDomainServicePassesThrough | src/home_assistant_server/services/_base.py:15-17 | Sending it returns what the injected `call_service` returns for `(domain, service, data)` |
| Base.GetEntityState | src/home_assistant_server/services/_base.py:19-21 | The state query names exactly the reference `domain.id` |
| Base.GetEntityStatePassesThrough | src/home_assistant_server/services/_base.py:19-21 | Sending it returns what the injected `get_state` returns for `domain.value + "." + entity_id` |
| Base.GetAvailableEntities | src/home_assistant_server/services/_base.py:23-26 | The base catalog always fails with NotImplementedError |
| LightService.BrightnessParameter | src/home_assistant_server/services/light.py:34-42 | `brightness_pct` is an optional integer in 0..100 |
| LightService.RgbColorParameter | src/home_assistant_server/services/light.py:43-56 | `rgb_color` is an optional array of exactly 3 integers, each in 0..255 |
| LightService.ColorTempParameter | src/home_assistant_server/services/light.py:57-65 | `color_temp` is an optional integer in 2000..6500 |
| LightService.FeaturesWellFormed | src/home_assistant_server/services/light.py:33-66 | The light fragments share no key, never redefine `entity_id`, and define only brightness_pct, rgb_color and color_temp |
| LightService.ControlSchema | src/home_assistant_server/services/light.py:14-74 | Every light schema is an object requiring only `entity_id`, with no parameter outside entity_id, brightness_pct, rgb_color and color_temp |
| LightService.ControlSchemaEntityId | src/home_assistant_server/services/light.py:21-30 | Every light schema holds the `entity_id` string parameter described as the light to control |
| LightService.ControlSchemaBrightness | src/home_assistant_server/services/light.py:34-42 | `brightness_pct` is in the schema exactly when "brightness" is requested, and then it is the 0..100 fragment |
| LightService.ControlSchemaColor | src/home_assistant_server/services/light.py:43-56 | `rgb_color` is in the schema exactly when "color" is requested, and then it is the 3×0..255 fragment |
| LightService.ControlSchemaColorTemp | src/home_assistant_server/services/light.py:57-65 | `color_temp` is in the schema exactly when "color_temp" is requested, and then it is the 2000..6500 fragment |
| LightService.ControlSchemaBase | src/home_assistant_server/services/light.py:69-74 | With no features, an empty list or only unknown names, the parameters are exactly `{entity_id}` |
| LightService.ControlSchemaOrderIndependent | src/home_assistant_server/services/light.py:69-72 | The light schema depends only on the set of requested names |
| LightService.Tools | src/home_assistant_server/services/light.py:81-91 | The light tools are `turn_on` (wire name light_turn_on, all three features) and `turn_off` (light_turn_off, no features) |
| LightService.TurnOn | src/home_assistant_server/services/light.py:109-114 | `turn_on` calls verb turn_on with `entity_id = light.<id>`; `brightness_pct` is present, unchanged, exactly when it lies in 0..100 |
| LightService.TurnOff | src/home_assistant_server/services/light.py:116-119 | `turn_off` calls verb turn_off with the payload `{entity_id: light.<id>}` and nothing else |
| LightService.GetState | src/home_assistant_server/services/light.py:121-123 | `get_state` queries `light.<id>` |
| LightService.AvailableEntities | src/home_assistant_server/services/light.py:125-138 | The catalog is the one light `ceiling_lights`, supporting on and off, whose listed tools are all methods of the service |
| LightService.CommandsTargetQueriedEntity | src/home_assistant_server/services/light.py:109-123 | `turn_on` and `turn_off` address the same entity that `get_state` queries |
| LightService.TurnOnBrightnessDistinguished | src/home_assistant_server/services/light.py:112-113 | Two brightness values give the same request exactly when they are equal or both lie outside 0..100 |
| LightService.TurnOnDropsColor | src/home_assistant_server/services/light.py:85 | The turn_on tool advertises rgb_color and color_temp, yet its payload never carries them |
| LightService.TurnOnCarriesNoColor | src/home_assistant_server/services/light.py:111-113 | A turn_on payload carries neither rgb_color nor color_temp, whatever the brightness |
| LightService.TurnOnWithinSchema | src/home_assistant_server/services/light.py:109-114 | The keys of a turn_on payload are parameters of the turn_on tool's schema |
| LightService.TurnOffMatchesSchema | src/home_assistant_server/services/light.py:116-119 | The turn_off payload has exactly the keys of the turn_off tool's schema, `{entity_id}` |
| LightService.GetStateListedButNotAdvertised | src/home_assistant_server/services/light.py:135 | `get_state` is listed as an available tool of the entity, yet no light tool has that key |
| LightService.ToolsRequireEntityId | src/home_assistant_server/services/light.py:29 | Every light tool's schema requires `entity_id` and defines it |
| LightService.ToolKeysAreMethods | src/home_assistant_server/services/light.py:81-91 | Every light tool key names a method of the service |
| ClimateService.TemperatureParameter | src/home_assistant_server/services/climate.py:34-40 | `temperature` is an optional integer with no bounds |
| ClimateService.FeaturesWellFormed | src/home_assistant_server/services/climate.py:33-41 | The climate table defines only `temperature` and never redefines `entity_id` |
| ClimateService.ControlSchema | src/home_assistant_server/services/climate.py:14-49 | Every climate schema is an object requiring only `entity_id`, with no parameter other than entity_id and temperature |
| ClimateService.ControlSchemaEntityId | src/home_assistant_server/services/climate.py:21-30 | Every climate schema holds the climate `entity_id` parameter |
| ClimateService.ControlSchemaTemperature | src/home_assistant_server/services/climate.py:33-47 | `temperature` is in the schema exactly when "temperature" is requested; every other name is ignored |
| ClimateService.Tools | src/home_assistant_server/services/climate.py:55-65 | The climate tools are `turn_off` (climate.turn_off, no features) and `set_temperature` (climate.set_temperature, with temperature) |
| ClimateService.TurnOff | src/home_assistant_server/services/climate.py:83-86 | `turn_off` calls verb turn_off with exactly `{entity_id: climate.<id>}` |
| ClimateService.SetTemperature | src/home_assistant_server/services/climate.py:88-91 | `set_temperature` calls verb set_temperature with the entity and the temperature unchanged, with no range check |
| ClimateService.GetState | src/home_assistant_server/services/climate.py:93-95 | `get_state` queries `climate.<id>` |
| ClimateService.AvailableEntities | src/home_assistant_server/services/climate.py:97-110 | The catalog is the one entity `climate`, supporting off and auto, whose listed tools are all methods |
| ClimateService.CommandsTargetQueriedEntity | src/home_assistant_server/services/climate.py:83-95 | The commands address the entity that `get_state` queries |
| ClimateService.CommandsMatchSchemas | src/home_assistant_server/services/climate.py:55-65 | Each command's payload has exactly the keys of its tool's schema |
| ClimateService.ToolsRequireEntityId | src/home_assistant_server/services/climate.py:29 | Every climate tool's schema requires and defines `entity_id` |
| ClimateService.ToolKeysAreMethods | src/home_assistant_server/services/climate.py:55-65 | Every climate tool key names a method |
| ClimateService.GetStateListedButNotAdvertised | src/home_assistant_server/services/climate.py:107 | `get_state` is listed for the entity but is not a climate tool key |
| HumidifierService.HumidityParameter | src/home_assistant_server/services/humidifier.py:34-40 | `humidity` is optional, typed with the literal `int`, and has no bounds |
| HumidifierService.FeaturesWellFormed | src/home_assistant_server/services/humidifier.py:33-41 | The humidifier table defines only `humidity` and never redefines `entity_id` |
| HumidifierService.ControlSchema | src/home_assistant_server/services/humidifier.py:14-49 | Every humidifier schema is an object requiring only `entity_id`, with no parameter other than entity_id and humidity |
| HumidifierService.ControlSchemaEntityId | src/home_assistant_server/services/humidifier.py:21-30 | Every humidifier schema holds the humidifier `entity_id` parameter |
| HumidifierService.ControlSchemaHumidity | src/home_assistant_server/services/humidifier.py:33-47 | `humidity` is in the schema exactly when "humidity" is requested |
| HumidifierService.Tools | src/home_assistant_server/services/humidifier.py:55-76 | The humidifier tools are turn_on and turn_off with entity-only schemas, and `set_humidity` under the wire name humidifier-set_temperature with humidity |
| HumidifierService.TurnOn | src/home_assistant_server/services/humidifier.py:78-81 | `turn_on` calls verb turn_on with only the misspelt target `humdifier.<id>` |
| HumidifierService.TurnOff | src/home_assistant_server/services/humidifier.py:83-86 | `turn_off` calls verb turn_off with only the misspelt target `humdifier.<id>` |
| HumidifierService.SetHumidity | src/home_assistant_server/services/humidifier.py:88-92 | `set_humidity` calls verb set_humidity with the misspelt target and the humidity, always present |
| HumidifierService.GetState | src/home_assistant_server/services/humidifier.py:94-96 | `get_state` queries `humidifier.<id>`, spelt through the domain value |
| HumidifierService.WrittenTargetNamesNoEntity | src/home_assistant_server/services/humidifier.py:80 | The misspelt target is not the reference of any entity in any domain |
| HumidifierService.CommandsMisaddressed | src/home_assistant_server/services/humidifier.py:78-96 | None of the three commands addresses the entity that `get_state` queries |
| HumidifierService.CorrectedTurnOn | src/home_assistant_server/services/humidifier.py:78-81 | The corrected `turn_on` addresses `humidifier.<id>` |
| HumidifierService.CorrectedTurnOff | src/home_assistant_server/services/humidifier.py:83-86 | The corrected `turn_off` addresses `humidifier.<id>` |
| HumidifierService.CorrectedSetHumidity | src/home_assistant_server/services/humidifier.py:88-92 | The corrected `set_humidity` addresses `humidifier.<id>` and still carries the humidity |
| HumidifierService.CorrectedCommandsTargetQueriedEntity | src/home_assistant_server/services/humidifier.py:78-96 | The corrected commands address exactly the entity `get_state` queries |
| HumidifierService.CorrectionChangesOnlyTarget | src/home_assistant_server/services/humidifier.py:78-92 | The correction changes the target and nothing else: the verbs and the other payload fields are the same |
| HumidifierService.AvailableEntities | src/home_assistant_server/services/humidifier.py:98-111 | The catalog is the one entity `humidifier`, supporting off and on, whose listed tools are all methods |
| HumidifierService.CommandsMatchSchemas | src/home_assistant_server/services/humidifier.py:55-70 | Each command's payload has exactly the keys of its tool's schema |
| HumidifierService.ToolsRequireEntityId | src/home_assistant_server/services/humidifier.py:29 | Every humidifier tool's schema requires and defines `entity_id` |
| HumidifierService.ToolKeysAreMethods | src/home_assistant_server/services/humidifier.py:55-76 | Every humidifier tool key names a method |
| HumidifierService.GetStateListedButNotAdvertised | src/home_assistant_server/services/humidifier.py:108 | `get_state` is listed for the entity but is not a humidifier tool key |
| AlarmControlPanelService.AlarmModeParameter | src/home_assistant_server/services/alarm_control_panel.py:34-41 | `alarm_mode` is a string marked not optional, whose enum is the mode values in declaration order |
| AlarmControlPanelService.CodeParameter | src/home_assistant_server/services/alarm_control_panel.py:42-48 | `code` is an optional string with no enum |
| AlarmControlPanelService.FeaturesWellFormed | src/home_assistant_server/services/alarm_control_panel.py:33-49 | The alarm table defines only alarm_mode and code and never redefines `entity_id` |
| AlarmControlPanelService.ControlSchema | src/home_assistant_server/services/alarm_control_panel.py:14-57 | Every alarm schema is an object requiring only `entity_id`, with parameters among entity_id, alarm_mode and code |
| AlarmControlPanelService.ControlSchemaEntityId | src/home_assistant_server/services/alarm_control_panel.py:21-30 | Every alarm schema holds the `entity_id` parameter, whose description names a light as written |
| AlarmControlPanelService.ControlSchemaAlarmMode | src/home_assistant_server/services/alarm_control_panel.py:34-41 | `alarm_mode` is in the schema exactly when requested, and then it is the enum fragment |
| AlarmControlPanelService.ControlSchemaCode | src/home_assistant_server/services/alarm_control_panel.py:42-48 | `code` is in the schema exactly when requested, and then it is the optional string fragment |
| AlarmControlPanelService.Tools | src/home_assistant_server/services/alarm_control_panel.py:63-74 | The alarm tools are `disarm` (code) and `arm` (code and alarm_mode) under their dotted wire names |
| AlarmControlPanelService.CommandData | src/home_assistant_server/services/alarm_control_panel.py:78 | The payload has exactly entity_id and code; code is `null` exactly when not given |
| AlarmControlPanelService.Disarm | src/home_assistant_server/services/alarm_control_panel.py:76-79 | `disarm` calls verb alarm_disarm with the `{entity_id, code}` payload |
| AlarmControlPanelService.ModeText | src/home_assistant_server/services/alarm_control_panel.py:84 | A given mode formats as itself, a missing one as `None` |
| AlarmControlPanelService.Arm | src/home_assistant_server/services/alarm_control_panel.py:81-84 | `arm` calls the verb `alarm_` followed by the mode text, with the same payload shape as disarm |
| AlarmControlPanelService.ArmModeDistinguished | src/home_assistant_server/services/alarm_control_panel.py:84 | Two modes give the same arm request exactly when their texts agree, so no mode and the string "None" collide |
| AlarmControlPanelService.ArmWithoutModeNamesNoMode | src/home_assistant_server/services/alarm_control_panel.py:81-84 | Without a mode the verb is `alarm_None`, which no declared mode produces |
| AlarmControlPanelService.ArmDisarmModeIsDisarm | src/home_assistant_server/services/alarm_control_panel.py:76-84 | Arming with mode `disarm` issues exactly the disarm request |
| AlarmControlPanelService.ArmModeAdvertisedNotRequired | src/home_assistant_server/services/alarm_control_panel.py:29-55 | The arm schema marks alarm_mode not optional with the mode enum, yet it is not in `required` |
| AlarmControlPanelService.DisarmSchemaKeys | src/home_assistant_server/services/alarm_control_panel.py:67 | The disarm schema's parameters are exactly entity_id and code |
| AlarmControlPanelService.ArmSchemaKeys | src/home_assistant_server/services/alarm_control_panel.py:72 | The arm schema's parameters are exactly entity_id, code and alarm_mode |
| AlarmControlPanelService.DisarmMatchesSchema | src/home_assistant_server/services/alarm_control_panel.py:63-79 | The disarm payload has exactly the keys of the disarm schema |
| AlarmControlPanelService.ArmDataKeys | src/home_assistant_server/services/alarm_control_panel.py:83 | The arm payload carries entity_id and code and never alarm_mode |
| AlarmControlPanelService.ArmOmitsMode | src/home_assistant_server/services/alarm_control_panel.py:69-84 | The arm payload has the arm schema's keys except alarm_mode, which goes into the verb instead |
| AlarmControlPanelService.AvailableEntities | src/home_assistant_server/services/alarm_control_panel.py:86-99 | The catalog is the one panel `alarm_control_panel`, supporting every alarm state, with tools disarm and arm |
| AlarmControlPanelService.ToolsRequireEntityId | src/home_assistant_server/services/alarm_control_panel.py:29 | Every alarm tool's schema requires and defines `entity_id` |
| AlarmControlPanelService.ToolKeysAreMethods | src/home_assistant_server/services/alarm_control_panel.py:63-84 | Every alarm tool key names a method |
| AlarmControlPanelService.AvailableToolsAreToolKeys | src/home_assistant_server/services/alarm_control_panel.py:96 | The entity's listed tools are exactly the two tool keys, in table order |
| LockService.ControlSchema | src/home_assistant_server/services/lock.py:10-39 | With the empty feature table every lock schema has exactly the `entity_id` parameter |
| LockService.Tools | src/home_assistant_server/services/lock.py:46-56 | The lock tools are `lock` (lock-lock) and `unlock` (lock-unlock), both with entity-only schemas |
| LockService.Lock | src/home_assistant_server/services/lock.py:74-77 | `lock` calls verb lock with exactly `{entity_id: lock.<id>}` |
| LockService.Unlock | src/home_assistant_server/services/lock.py:79-82 | `unlock` calls verb unlock with exactly `{entity_id: lock.<id>}` |
| LockService.GetState | src/home_assistant_server/services/lock.py:84-86 | `get_state` queries `lock.<id>` |
| LockService.AvailableEntities | src/home_assistant_server/services/lock.py:88-101 | The catalog is the one lock `front_door`, supporting all four lock states, whose listed tools are all methods |
| LockService.CommandsTargetQueriedEntity | src/home_assistant_server/services/lock.py:74-86 | lock and unlock address the queried entity with the same payload, and differ only in the verb |
| LockService.CommandsMatchSchemas | src/home_assistant_server/services/lock.py:46-82 | Each lock command's payload has exactly the keys of its tool's schema |
| LockService.ToolKeysAreMethods | src/home_assistant_server/services/lock.py:46-56 | Every lock tool key names a method |
| LockService.GetStateListedButNotAdvertised | src/home_assistant_server/services/lock.py:98 | `get_state` is listed for the entity but is not a lock tool key |
| Catalog.WireNamesCollectTables | src/home_assistant_server/services/light.py:81-91 | The eleven wire names are those of the light, climate (climate.py:55-65), humidifier (humidifier.py:55-70), alarm (alarm_control_panel.py:63-74) and lock (lock.py:46-56) tables, in that order; the cited span is the first of the five |
| Catalog.WireNamesDistinct | src/home_assistant_server/services/lock.py:46-56 | The eleven wire names across the five tables (light.py:81-91, climate.py:55-65, humidifier.py:55-70, alarm_control_panel.py:63-74 and the cited lock.py span) are pairwise distinct |
| PyOps.Len | src/home_assistant_server/server.py:106 | `len` succeeds exactly on strings, lists and dicts, with their sizes; otherwise TypeError "has no len()" |
| PyOps.Index0 | src/home_assistant_server/server.py:107 | `[0]` on a non-empty list is its first item, on a string its first character, on a dict a KeyError |
| PyOps.Subscript | src/home_assistant_server/server.py:107 | `[key]` succeeds exactly on a dict holding the key; a dict without it raises KeyError, anything else TypeError |
| PyOps.Contains | src/home_assistant_server/server.py:111 | `key in x` tests dict keys, list items and substrings, and raises TypeError "is not iterable" otherwise |
| LegacyServer.Payload | src/home_assistant_server/server.py:89-98 | The payload holds `entity_id = light.<id>`, plus `brightness_pct` exactly when it lies in 0..100 |
| LegacyServer.ErrorResult | src/home_assistant_server/server.py:123-125 | An exception becomes `{state: error, message: str(e)}` |
| LegacyServer.ShapeReply | src/home_assistant_server/server.py:106-121 | Every reply the shaping accepts becomes a `state` with at most a string `brightness`, which appears only when the state is `on` |
| LegacyServer.PostedRequest | src/home_assistant_server/server.py:82-103 | The handler posts the light turn_on service call with that payload |
| LegacyServer.PostedRequestMatchesService | src/home_assistant_server/server.py:89-98 | For an integer brightness, the legacy payload is the request `LightService.turn_on` builds |
| LegacyServer.TurnLightOn | src/home_assistant_server/server.py:67-125 | The handler raises exactly when the id is not a string or the brightness not an int, with TypeError; otherwise it returns a shaped reply or an error result |
| LegacyServer.TurnLightOnNeverRaises | src/home_assistant_server/server.py:102-125 | Called with a string and an int, `turn_light_on` never raises |
| LegacyServer.FaultsBecomeErrorResults | src/home_assistant_server/server.py:123-125 | A failed POST or a fault while reading the reply returns the error result for that exception |
| LegacyServer.ShapedReplyReturned | src/home_assistant_server/server.py:102-121 | A successful POST whose reply shapes without fault returns exactly the shaped reply |
| LegacyServer.EmptyReplyNotUpdated | src/home_assistant_server/server.py:120-121 | An empty reply list yields exactly `{state: not updated}` |
| LegacyServer.OtherStateReported | src/home_assistant_server/server.py:118-119 | A first state other than `on` yields exactly `{state}` |
| LegacyServer.OnWithoutBrightness | src/home_assistant_server/server.py:109-117 | State `on` without a brightness attribute yields exactly `{state: on}` |
| LegacyServer.OnWithBrightness | src/home_assistant_server/server.py:109-116 | State `on` with a brightness attribute yields `{state: on, brightness: text}`, the text being the rescaled value |
| LegacyServer.ObjectReplyFails | src/home_assistant_server/server.py:107 | A non-empty object reply fails on `[0]`, so the result is the error result for `KeyError(0)` |
| LegacyServer.ListTools | src/home_assistant_server/server.py:165-171 | The tool list is exactly one tool, named light_turn_on |
| LegacyServer.BrightnessArgument | src/home_assistant_server/server.py:182 | The brightness argument is the given `brightness_pct`, or -1 when absent |
| LegacyServer.HandleCallTool | src/home_assistant_server/server.py:179-190 | Any name other than light_turn_on fails with ValueError "Unknown tool"; light_turn_on without entity_id fails with KeyError; otherwise the call returns the handler's result for the given entity_id and brightness_pct (or -1), and a raise of the handler propagates |
| LegacyServer.RoutedExactlyTheListedTool | src/home_assistant_server/server.py:165-190 | A call is rejected as unknown exactly when its name is not that of a listed tool |
| LegacyServer.CallForwardsArguments | src/home_assistant_server/server.py:179-187 | A call without brightness_pct returns the handler's result for brightness -1, whose payload holds only entity_id |

## Left out

- HTTP itself: URLs, the bearer header, `requests.post` and `raise_for_status` become the abstract `Hub`. A failing status is one of the failures the hub may return.
- Brightness rescaling: `round(b/255*100)` is float arithmetic with banker's rounding. It is the abstract `Rescale` parameter, and its failure stands for any exception it would raise.
- JSON floats: the `Json` datatype has no number other than integers, so a float brightness or reply value is not modelled.
- Dict order and text rendering: objects are maps. `handle_call_tool`'s text `f"Light control result: {result}"` is modelled as the result dict it formats, `CallReply`, not as its repr.
- Exception texts are those of CPython 3.11; other Python versions word some of them differently.
- The MCP stdio transport, the decorators, `serve()`, the environment and token checks at import, and all logging.
- Pydantic: model validation and `model_json_schema` (the published input schema of the legacy tool) are library behaviour.
- The `if not arguments` check at server.py:192-193 is unreachable, since both branches before it return or raise. It has no member.
- async/await: every call is a sequential function. A service's only state is its two injected callables, so equal arguments give equal requests by construction; no lemma states it.
- `alarm_mode` is taken as the plain string it arrives as, or none. Python's formatting of a `str` Enum member in an f-string is not modelled.
- The per-domain state and attribute model files are transcribed only as far as the catalogs need them: state enums and one attribute type tag each.
- `EntityDomain` lacks lock, humidifier and alarm_control_panel, which the services use. The model adds them after the five declared members (light, climate, switch, sensor, security).
- The alarm service imports its models from the server package's `models/alarm_control_panel.py`, which is not part of this model. The `home_assistant_mcp` copy of that file is used in its place.
- The code format NONE is declared `None` in a `str` Enum, so its value is the string "None". The model follows that, not a valueless member.
- An entity's `available_tools` is not a subset of the tool keys: light, climate, humidifier and lock list `get_state`. The `GetStateListedButNotAdvertised` lemmas state this, and no subset invariant is claimed.
- No generic tool dispatcher exists in the code: `handle_call_tool` routes the one name light_turn_on, and so does the model.
- LegacyServer.ShapeReply: the contract bounds the shape of every accepted reply. The exact result for each reply form is stated by the `EmptyReplyNotUpdated`, `OtherStateReported`, `OnWithoutBrightness`, `OnWithBrightness` and `ObjectReplyFails` lemmas for the forms the hub returns.

## Findings

| source | as written | input that shows it | evidently intended | confidence | as-written member | corrected member |
|---|---|---|---|---|---|---|
| src/home_assistant_server/services/humidifier.py:80 | turn_on, turn_off and set_humidity address `humdifier.<id>` | `turn_on("humidifier")` sends `humdifier.humidifier`, while `get_state("humidifier")` queries `humidifier.humidifier` | the commands address `humidifier.<id>`, the entity `get_state` reads | high; not executed | HumidifierService.CommandsMisaddressed | HumidifierService.CorrectedCommandsTargetQueriedEntity |
