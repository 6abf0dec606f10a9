/**
 * The legacy light handler of the MCP server: `turn_light_on`, which posts a turn-on command
 * to the hub and reduces the reply to a small result object, and the `list_tools` /
 * `call_tool` handlers, which publish and route that one tool.
 */
module LegacyServer {
  import opened Wrappers
  import opened JsonValues
  import opened Entity
  import opened Base
  import opened PyOps
  import LightService

  /** The `LightTools` enumeration of tool names; only `TurnOn` is published and routed. */
  datatype LightTools = TurnOn | TurnOff | GetState {
    function Value(): string {
      match this
      case TurnOn => "light_turn_on"
      case TurnOff => "light_turn_off"
      case GetState => "light_get_state"
    }
  }

  /**
   * The hub: the POST of a service call, answering with the decoded JSON reply or the exception
   * the HTTP client, `raise_for_status` or the JSON decoder raised.
   */
  type Hub = Request -> Py<Json>

  /**
   * `str(round(b / 255 * 100))` for the reported 0..255 brightness `b`: floating point with
   * banker's rounding, left abstract; it fails when `b` is not a number.
   */
  type Rescale = Json -> Py<string>

  /** The payload `turn_light_on` serializes; the brightness is kept only when it lies in 0..100. */
  function Payload(entityId: string, brightnessPct: int, brightnessValue: Json): (data: JsonObject)
    ensures data.Keys == if 0 <= brightnessPct <= 100 then {"entity_id", "brightness_pct"} else {"entity_id"}
    ensures data["entity_id"] == JString("light." + entityId)
    ensures "brightness_pct" in data ==> data["brightness_pct"] == brightnessValue
  {
    if 0 <= brightnessPct <= 100 then
      map["entity_id" := JString("light." + entityId), "brightness_pct" := brightnessValue]
    else
      map["entity_id" := JString("light." + entityId)]
  }

  /** The object returned in place of any exception raised inside the `try`. */
  function ErrorResult(e: PyError): (r: JsonObject)
    ensures r.Keys == {"state", "message"}
    ensures r["state"] == JString("error") && r["message"] == JString(e.message)
  {
    map["state" := JString("error"), "message" := JString(e.message)]
  }

  /** Whether a result object has the shape `turn_light_on` promises on the success path. */
  predicate ReplyShaped(r: JsonObject) {
    && "state" in r
    && r.Keys <= {"state", "brightness"}
    && ("brightness" in r ==> r["state"] == JString("on") && r["brightness"].JString?)
  }

  /**
   * The part of the `try` after the POST: read the first state object of the reply and keep its
   * state, plus the rescaled brightness when the light is on and reports one.
   */
  function ShapeReply(reply: Json, rescale: Rescale): (r: Py<JsonObject>)
    ensures r.Success? ==> ReplyShaped(r.value)
  {
    var n :- Len(reply);
    if n == 0 then Success(map["state" := JString("not updated")])
    else
      var first :- Index0(reply);
      var state :- Subscript(first, "state");
      if state != JString("on") then Success(map["state" := state])
      else
        var attributes :- Subscript(first, "attributes");
        var hasBrightness :- Contains(attributes, "brightness");
        if !hasBrightness then Success(map["state" := state])
        else
          var brightness :- Subscript(attributes, "brightness");
          var text :- rescale(brightness);
          Success(map["state" := state, "brightness" := JString(text)])
  }

  /** Whether a value can stand for the `int` brightness: Python's `bool` is an `int`. */
  predicate IntLike(j: Json) {
    j.JInt? || j.JBool?
  }

  /** The integer a brightness value compares as. */
  function IntValue(j: Json): int
    requires IntLike(j)
  {
    if j.JInt? then j.i else if j.b then 1 else 0
  }

  /** The service call `turn_light_on` posts to `/api/services/light/turn_on`. */
  function PostedRequest(entityId: string, brightnessPct: Json): (req: Request)
    requires IntLike(brightnessPct)
    ensures req.ServiceCall? && req.domain == EntityDomain.Light && req.service == "turn_on"
    ensures req.data == Payload(entityId, IntValue(brightnessPct), brightnessPct)
  {
    ServiceCall(EntityDomain.Light, "turn_on", Payload(entityId, IntValue(brightnessPct), brightnessPct))
  }

  /**
   * `turn_light_on(entity_id, brightness_pct)` on whatever values the caller passes. The payload
   * is built before the `try`, so a non-string entity or a brightness that cannot be compared
   * with 0 raises out of the function; everything after it is caught and turned into an error
   * result.
   */
  function TurnLightOn(entityId: Json, brightnessPct: Json, hub: Hub, rescale: Rescale): (r: Py<JsonObject>)
    ensures r.Failure? <==> !entityId.JString? || !IntLike(brightnessPct)
    ensures r.Failure? ==> r.error.kind == "TypeError"
    ensures r.Success? ==> ReplyShaped(r.value) || (r.value.Keys == {"state", "message"} && r.value["state"] == JString("error"))
  {
    if !entityId.JString? then
      Failure(TypeError("can only concatenate str (not \"" + PyTypeName(entityId) + "\") to str"))
    else if !IntLike(brightnessPct) then
      Failure(TypeError("'>=' not supported between instances of '" + PyTypeName(brightnessPct) + "' and 'int'"))
    else
      match hub(PostedRequest(entityId.s, brightnessPct))
      case Failure(e) => Success(ErrorResult(e))
      case Success(reply) =>
        match ShapeReply(reply, rescale)
        case Failure(e) => Success(ErrorResult(e))
        case Success(result) => Success(result)
  }

  /** For an integer brightness the legacy handler posts exactly what `LightService.turn_on` sends. */
  lemma PostedRequestMatchesService(entityId: string, brightnessPct: int)
    ensures PostedRequest(entityId, JInt(brightnessPct)) == LightService.TurnOn(entityId, brightnessPct)
  {
    EntityRefPrefix(EntityDomain.Light, "light.", entityId);
  }

  /** Called as its signature says, with a string and an integer, `turn_light_on` never raises. */
  lemma TurnLightOnNeverRaises(entityId: string, brightnessPct: int, hub: Hub, rescale: Rescale)
    ensures TurnLightOn(JString(entityId), JInt(brightnessPct), hub, rescale).Success?
  {
  }

  /** A failed POST, or a fault while reading the reply, becomes an error result carrying `str(e)`. */
  lemma FaultsBecomeErrorResults(entityId: string, brightnessPct: Json, hub: Hub, rescale: Rescale, e: PyError)
    requires IntLike(brightnessPct)
    requires hub(PostedRequest(entityId, brightnessPct)) == Failure(e)
      || (hub(PostedRequest(entityId, brightnessPct)).Success?
          && ShapeReply(hub(PostedRequest(entityId, brightnessPct)).value, rescale) == Failure(e))
    ensures TurnLightOn(JString(entityId), brightnessPct, hub, rescale) == Success(ErrorResult(e))
  {
  }

  /** A successful POST whose reply is read without fault returns exactly the shaped reply. */
  lemma ShapedReplyReturned(entityId: string, brightnessPct: Json, hub: Hub, rescale: Rescale, result: JsonObject)
    requires IntLike(brightnessPct)
    requires hub(PostedRequest(entityId, brightnessPct)).Success?
    requires ShapeReply(hub(PostedRequest(entityId, brightnessPct)).value, rescale) == Success(result)
    ensures TurnLightOn(JString(entityId), brightnessPct, hub, rescale) == Success(result)
  {
  }

  /** An empty reply list means the hub changed nothing. */
  lemma EmptyReplyNotUpdated(entityId: string, brightnessPct: Json, hub: Hub, rescale: Rescale)
    requires IntLike(brightnessPct)
    requires hub(PostedRequest(entityId, brightnessPct)) == Success(JArray([]))
    ensures TurnLightOn(JString(entityId), brightnessPct, hub, rescale) == Success(map["state" := JString("not updated")])
  {
  }

  /** A first state object that is not `on` is reported by its state alone. */
  lemma OtherStateReported(entityId: string, brightnessPct: Json, hub: Hub, rescale: Rescale,
                           first: map<string, Json>, rest: seq<Json>)
    requires IntLike(brightnessPct)
    requires hub(PostedRequest(entityId, brightnessPct)) == Success(JArray([JObject(first)] + rest))
    requires "state" in first && first["state"] != JString("on")
    ensures TurnLightOn(JString(entityId), brightnessPct, hub, rescale) == Success(map["state" := first["state"]])
  {
    assert ([JObject(first)] + rest)[0] == JObject(first);
  }

  /** A light that is on but reports no brightness attribute is reported by its state alone. */
  lemma OnWithoutBrightness(entityId: string, brightnessPct: Json, hub: Hub, rescale: Rescale,
                            first: map<string, Json>, rest: seq<Json>)
    requires IntLike(brightnessPct)
    requires hub(PostedRequest(entityId, brightnessPct)) == Success(JArray([JObject(first)] + rest))
    requires "state" in first && first["state"] == JString("on")
    requires "attributes" in first && first["attributes"].JObject? && "brightness" !in first["attributes"].fields
    ensures TurnLightOn(JString(entityId), brightnessPct, hub, rescale) == Success(map["state" := JString("on")])
  {
    assert ([JObject(first)] + rest)[0] == JObject(first);
  }

  /** A light that is on and reports a brightness gets the rescaled brightness as a string. */
  lemma OnWithBrightness(entityId: string, brightnessPct: Json, hub: Hub, rescale: Rescale,
                         first: map<string, Json>, rest: seq<Json>, text: string)
    requires IntLike(brightnessPct)
    requires hub(PostedRequest(entityId, brightnessPct)) == Success(JArray([JObject(first)] + rest))
    requires "state" in first && first["state"] == JString("on")
    requires "attributes" in first && first["attributes"].JObject? && "brightness" in first["attributes"].fields
    requires rescale(first["attributes"].fields["brightness"]) == Success(text)
    ensures TurnLightOn(JString(entityId), brightnessPct, hub, rescale)
      == Success(map["state" := JString("on"), "brightness" := JString(text)])
  {
    assert ([JObject(first)] + rest)[0] == JObject(first);
  }

  /** A reply that is a non-empty object, not a list, fails on `[0]` with `KeyError(0)`. */
  lemma ObjectReplyFails(entityId: string, brightnessPct: Json, hub: Hub, rescale: Rescale, fields: map<string, Json>)
    requires IntLike(brightnessPct)
    requires hub(PostedRequest(entityId, brightnessPct)) == Success(JObject(fields)) && |fields| > 0
    ensures TurnLightOn(JString(entityId), brightnessPct, hub, rescale) == Success(ErrorResult(PyError("KeyError", "0")))
  {
  }

  /** One published tool of the legacy server: its name and description. */
  datatype LegacyTool = LegacyTool(name: string, description: string)

  /** `handle_list_tools()`: only the turn-on tool is published. */
  function ListTools(): (r: seq<LegacyTool>)
    ensures |r| == 1 && r[0].name == LightTools.TurnOn.Value()
  {
    [LegacyTool(LightTools.TurnOn.Value(), "Turn on a light with optional brightness")]
  }

  /** The one text content `handle_call_tool` returns: `f"Light control result: {result}"`. */
  datatype CallReply = LightControlResult(result: JsonObject)

  /** `arguments.get("brightness_pct", -1)`. */
  function BrightnessArgument(arguments: JsonObject): (b: Json)
    ensures "brightness_pct" in arguments ==> b == arguments["brightness_pct"]
    ensures "brightness_pct" !in arguments ==> b == JInt(-1)
  {
    if "brightness_pct" in arguments then arguments["brightness_pct"] else JInt(-1)
  }

  /** `handle_call_tool(name, arguments)`: routes `light_turn_on`, rejects every other name. */
  function HandleCallTool(name: string, arguments: JsonObject, hub: Hub, rescale: Rescale): (r: Py<CallReply>)
    ensures name != LightTools.TurnOn.Value() ==> r == Failure(PyError("ValueError", "Unknown tool: " + name))
    ensures name == LightTools.TurnOn.Value() && "entity_id" !in arguments ==> r == Failure(KeyError("entity_id"))
    ensures name == LightTools.TurnOn.Value() && "entity_id" in arguments ==>
      var t := TurnLightOn(arguments["entity_id"], BrightnessArgument(arguments), hub, rescale);
      r == (if t.Success? then Success(LightControlResult(t.value)) else Failure(t.error))
    ensures r.Failure? ==> r.error.kind in {"ValueError", "KeyError", "TypeError"}
  {
    if name == LightTools.TurnOn.Value() then
      if "entity_id" !in arguments then Failure(KeyError("entity_id"))
      else
        var result :- TurnLightOn(arguments["entity_id"], BrightnessArgument(arguments), hub, rescale);
        Success(LightControlResult(result))
    else
      Failure(PyError("ValueError", "Unknown tool: " + name))
  }

  /** A name is rejected as unknown exactly when it is not the name of a listed tool. */
  lemma RoutedExactlyTheListedTool(name: string, arguments: JsonObject, hub: Hub, rescale: Rescale)
    ensures HandleCallTool(name, arguments, hub, rescale) == Failure(PyError("ValueError", "Unknown tool: " + name))
      <==> forall t :: t in ListTools() ==> t.name != name
  {
    var r := HandleCallTool(name, arguments, hub, rescale);
    if name == LightTools.TurnOn.Value() {
      assert ListTools()[0].name == name;
      assert r.Failure? ==> r.error.kind != "ValueError";
    }
  }

  /** A well-typed call returns the turn-on result, with brightness defaulting to -1 (omitted). */
  lemma CallForwardsArguments(entityId: string, arguments: JsonObject, hub: Hub, rescale: Rescale)
    requires "entity_id" in arguments && arguments["entity_id"] == JString(entityId)
    requires "brightness_pct" !in arguments
    ensures HandleCallTool(LightTools.TurnOn.Value(), arguments, hub, rescale)
      == Success(LightControlResult(TurnLightOn(JString(entityId), JInt(-1), hub, rescale).value))
    ensures PostedRequest(entityId, BrightnessArgument(arguments)).data.Keys == {"entity_id"}
  {
  }
}
