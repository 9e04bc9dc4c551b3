/** The example lights plugin (examples/example_plugin.py): three actions
    and one webhook signal that keep `lights.<room>.state` in the store and
    announce each change as `lights.changed`. Every handler checks its
    payload before it reads, writes or emits anything. */
module LightsPlugin {
  import opened Base
  import opened Json
  import opened Events
  import opened State

  /** The metadata `register` gives the three actions and the signal. */
  const TurnOnDescription := "Turn on lights in a room with optional brightness control"
  const TurnOnSchema: Object :=
    map["room" := JObj(map["type" := JStr("string"), "required" := JBool(true), "description" := JStr("Room name")]),
        "brightness" := JObj(map["type" := JStr("integer"), "required" := JBool(false), "default" := JInt(100),
                                 "description" := JStr("Brightness level 0-100")])]
  const TurnOffDescription := "Turn off lights in a room"
  const TurnOffSchema: Object :=
    map["room" := JObj(map["type" := JStr("string"), "required" := JBool(true), "description" := JStr("Room name")])]
  const SetBrightnessDescription := "Set brightness level for lights in a room"
  const SetBrightnessSchema: Object :=
    map["room" := JObj(map["type" := JStr("string"), "required" := JBool(true)]),
        "brightness" := JObj(map["type" := JStr("integer"), "required" := JBool(true),
                                 "minimum" := JInt(0), "maximum" := JInt(100)])]
  const WebhookDescription := "Handle webhook from lights system reporting status changes"
  const WebhookSchema: Object :=
    map["room" := JObj(map["type" := JStr("string"), "required" := JBool(true)]),
        "on" := JObj(map["type" := JStr("boolean"), "required" := JBool(true)]),
        "brightness" := JObj(map["type" := JStr("integer"), "required" := JBool(false)])]

  /** The state key for a room's lights. */
  function StateKey(room: string): string
  {
    "lights." + room + ".state"
  }

  /** Different rooms never share a state key, so a handler for one room
      leaves every other room's entry alone. */
  lemma StateKeyInjective(a: string, b: string)
    requires StateKey(a) == StateKey(b)
    ensures a == b
  {
    var ka, kb := StateKey(a), StateKey(b);
    assert |a| == |b|;
    forall i | 0 <= i < |a|
      ensures a[i] == b[i]
    {
      assert ka[7 + i] == a[i];
      assert kb[7 + i] == b[i];
    }
  }

  /** `max(0, min(100, n))`. */
  function Clamp(n: int): (r: int)
    ensures 0 <= r <= 100
    ensures 0 <= n <= 100 ==> r == n
    ensures n < 0 ==> r == 0
    ensures n > 100 ==> r == 100
  {
    if n < 0 then 0 else if n > 100 then 100 else n
  }

  /** The room every handler requires: its text, or "room is required" when
      missing or falsy. */
  function RoomOf(payload: Object): (r: Result<string, Error>)
    ensures r.Err? <==> !Truthy(Get(payload, "room"))
    ensures r.Err? ==> r.error == Invalid("room is required")
    ensures r.Ok? ==> "room" in payload && r.value == Str(payload["room"])
  {
    var room := Get(payload, "room");
    if !Truthy(room) then Err(Invalid("room is required")) else Ok(Str(room))
  }

  /** The stored value: `{"on": ..., "brightness": ...}`. */
  function LightsValue(on: Json, brightness: Json): (v: Json)
    ensures v.JObj? && v.fields.Keys == {"on", "brightness"}
    ensures v.fields["on"] == on && v.fields["brightness"] == brightness
  {
    JObj(map["on" := on, "brightness" := brightness])
  }

  /** The `lights.changed` envelope a handler emits. */
  function LightsChanged(source: Source, payload: Object, now: int): (e: Envelope)
    ensures e.eventType == "lights.changed" && e.source == source && e.payload == payload
  {
    BuildEvent("lights.changed", source, now, Some(payload))
  }

  /** The bus after a handler's two emissions: `state.changed` for the
      room's entry, attributed to the handler, then `lights.changed` with
      the handler's own payload. */
  function Announced(bus: BusView, room: string, value: Json, source: Source, event: Object, ctx: Ctx): BusView
  {
    var changed := ChangedEvent(NewEntry(StateKey(room), value, ctx.now, None), Some(source), ctx.now);
    Deliver(Deliver(bus, changed.ToObject(), ctx.failing), LightsChanged(source, event, ctx.now).ToObject(), ctx.failing)
  }

  /** The handler's common tail: store the value under the room's key, then
      announce the change. */
  function Apply(b: Backend, room: string, value: Json, source: Source, event: Object, ctx: Ctx): (h: Handled)
    ensures b.store.Valid() ==> h.backend.store.Valid()
    ensures h.outcome == Pass
    ensures h.backend.store.entries == b.store.entries[StateKey(room) := NewEntry(StateKey(room), value, ctx.now, None)]
    ensures h.backend.store.queued == b.store.queued
    ensures h.backend.bus == Announced(b.bus, room, value, source, event, ctx)
  {
    var b1 := SetStateT(b, StateKey(room), value, None, Some(source), ctx);
    Handled(EmitT(b1, LightsChanged(source, event, ctx.now), ctx), Pass)
  }

  const TurnOnSource := Source("action", "lights.turn_on")
  const TurnOffSource := Source("action", "lights.turn_off")
  const SetBrightnessSource := Source("action", "lights.set_brightness")
  const WebhookSource := Source("signal", "lights.status_webhook")

  /** `turn_on_lights`'s brightness: 100 when missing or not a number, and
      the number clamped to 0..100 otherwise (a boolean counts as 0 or 1). */
  function TurnOnBrightness(payload: Object): (r: int)
    ensures 0 <= r <= 100
    ensures "brightness" !in payload ==> r == 100
    ensures "brightness" in payload && !IsNumber(payload["brightness"]) ==> r == 100
    ensures "brightness" in payload && IsNumber(payload["brightness"]) ==> r == Clamp(NumberValue(payload["brightness"]))
  {
    var raw := GetOr(payload, "brightness", JInt(100));
    if IsNumber(raw) then Clamp(NumberValue(raw)) else 100
  }

  /** The effect of `lights.turn_on`. */
  function TurnOnT(payload: Object, b: Backend, ctx: Ctx): (h: Handled)
    ensures b.store.Valid() ==> h.backend.store.Valid()
    ensures !Truthy(Get(payload, "room")) ==> h == Handled(b, Fail(Invalid("room is required")))
    ensures Truthy(Get(payload, "room")) ==>
              var key := StateKey(Str(payload["room"]));
              && h.outcome == Pass
              && key in h.backend.store.entries
              && h.backend.store.entries[key].value == LightsValue(JBool(true), JInt(TurnOnBrightness(payload)))
    ensures Truthy(Get(payload, "room")) ==>
              var key := StateKey(Str(payload["room"]));
              var value := LightsValue(JBool(true), JInt(TurnOnBrightness(payload)));
              && h.backend.store.entries == b.store.entries[key := NewEntry(key, value, ctx.now, None)]
              && h.backend.store.queued == b.store.queued
    ensures Truthy(Get(payload, "room")) ==>
              var room := Str(payload["room"]);
              var brightness := JInt(TurnOnBrightness(payload));
              h.backend.bus == Announced(b.bus, room, LightsValue(JBool(true), brightness), TurnOnSource,
                                         map["room" := JStr(room), "state" := JStr("on"), "brightness" := brightness], ctx)
  {
    match RoomOf(payload)
    case Err(e) => Handled(b, Fail(e))
    case Ok(room) =>
      var brightness := TurnOnBrightness(payload);
      Apply(b, room, LightsValue(JBool(true), JInt(brightness)), TurnOnSource,
            map["room" := JStr(room), "state" := JStr("on"), "brightness" := JInt(brightness)], ctx)
  }

  /** The effect of `lights.turn_off`. */
  function TurnOffT(payload: Object, b: Backend, ctx: Ctx): (h: Handled)
    ensures b.store.Valid() ==> h.backend.store.Valid()
    ensures !Truthy(Get(payload, "room")) ==> h == Handled(b, Fail(Invalid("room is required")))
    ensures Truthy(Get(payload, "room")) ==>
              var key := StateKey(Str(payload["room"]));
              && h.outcome == Pass
              && key in h.backend.store.entries
              && h.backend.store.entries[key].value == LightsValue(JBool(false), JInt(0))
    ensures Truthy(Get(payload, "room")) ==>
              var key := StateKey(Str(payload["room"]));
              && h.backend.store.entries == b.store.entries[key := NewEntry(key, LightsValue(JBool(false), JInt(0)), ctx.now, None)]
              && h.backend.store.queued == b.store.queued
    ensures Truthy(Get(payload, "room")) ==>
              var room := Str(payload["room"]);
              h.backend.bus == Announced(b.bus, room, LightsValue(JBool(false), JInt(0)), TurnOffSource,
                                         map["room" := JStr(room), "state" := JStr("off")], ctx)
  {
    match RoomOf(payload)
    case Err(e) => Handled(b, Fail(e))
    case Ok(room) =>
      Apply(b, room, LightsValue(JBool(false), JInt(0)), TurnOffSource,
            map["room" := JStr(room), "state" := JStr("off")], ctx)
  }

  /** `set_brightness`'s reading of `current_state["value"]["on"]`: true
      when there is no current entry, the stored flag when the value is a
      mapping holding "on", a KeyError when the mapping lacks it, and a
      TypeError when the value is not a mapping at all. */
  function OnFlag(current: Option<Entry>): (r: Result<Json, Error>)
    ensures current.None? ==> r == Ok(JBool(true))
    ensures current.Some? && current.value.value.JObj? && "on" in current.value.value.fields ==>
              r == Ok(current.value.value.fields["on"])
    ensures current.Some? && current.value.value.JObj? && "on" !in current.value.value.fields ==>
              r == Err(NotFound("on"))
    ensures current.Some? && !current.value.value.JObj? ==> r.Err? && r.error.WrongType?
  {
    match current
    case None => Ok(JBool(true))
    case Some(e) =>
      match e.value
      case JObj(fields) => if "on" in fields then Ok(fields["on"]) else Err(NotFound("on"))
      case _ => Err(WrongType("the stored value is not a mapping"))
  }

  /** The effect of `lights.set_brightness`: room, then brightness presence,
      then its conversion are checked with no effect; then the read purges
      the store, and the stored `on` flag decides the new value. */
  function SetBrightnessT(payload: Object, b: Backend, ctx: Ctx): (h: Handled)
    ensures b.store.Valid() ==> h.backend.store.Valid()
    ensures !Truthy(Get(payload, "room")) ==> h == Handled(b, Fail(Invalid("room is required")))
    ensures Truthy(Get(payload, "room")) && Get(payload, "brightness") == JNull ==>
              h == Handled(b, Fail(Invalid("brightness is required")))
    ensures Truthy(Get(payload, "room")) && Get(payload, "brightness") != JNull && ToInt(payload["brightness"]).Err? ==>
              h == Handled(b, Fail(ToInt(payload["brightness"]).error))
    ensures h.outcome.Fail? ==> h.backend.bus == b.bus
    ensures Truthy(Get(payload, "room")) && Get(payload, "brightness") != JNull && ToInt(payload["brightness"]).Ok? ==>
              var room := Str(payload["room"]);
              var brightness := JInt(Clamp(ToInt(payload["brightness"]).value));
              var flag := OnFlag(Read(b.store, StateKey(room), ctx.now));
              && (h.outcome.Fail? <==> flag.Err?)
              && (flag.Err? ==> h == Handled(b.(store := Purge(b.store, ctx)), Fail(flag.error)))
              && (flag.Ok? ==>
                    && h.backend.store.entries
                       == Purge(b.store, ctx).entries[StateKey(room) := NewEntry(StateKey(room), LightsValue(flag.value, brightness), ctx.now, None)]
                    && h.backend.store.queued == Purge(b.store, ctx).queued
                    && h.backend.bus == Announced(b.bus, room, LightsValue(flag.value, brightness), SetBrightnessSource,
                                                  map["room" := JStr(room), "brightness" := brightness], ctx))
  {
    match RoomOf(payload)
    case Err(e) => Handled(b, Fail(e))
    case Ok(room) =>
      var raw := Get(payload, "brightness");
      if raw == JNull then Handled(b, Fail(Invalid("brightness is required")))
      else match ToInt(raw)
        case Err(e) => Handled(b, Fail(e))
        case Ok(n) =>
          var brightness := Clamp(n);
          var current := Read(b.store, StateKey(room), ctx.now);
          var purged := b.(store := Purge(b.store, ctx));
          match OnFlag(current)
          case Err(e) => Handled(purged, Fail(e))
          case Ok(on) =>
            Apply(purged, room, LightsValue(on, JInt(brightness)), SetBrightnessSource,
                  map["room" := JStr(room), "brightness" := JInt(brightness)], ctx)
  }

  /** `set_brightness` keeps the on flag: after it, the room's entry holds
      the flag of the live entry it replaced (true when there was none) and
      the requested brightness clamped to 0..100. */
  lemma SetBrightnessKeepsOn(payload: Object, b: Backend, ctx: Ctx)
    requires Truthy(Get(payload, "room")) && Get(payload, "brightness") != JNull
    requires ToInt(payload["brightness"]).Ok?
    ensures var key := StateKey(Str(payload["room"]));
            var before := Read(b.store, key, ctx.now);
            var h := SetBrightnessT(payload, b, ctx);
            && (before.None? ==> h.outcome == Pass)
            && (h.outcome.Pass? ==>
                  && key in h.backend.store.entries
                  && var after := h.backend.store.entries[key].value;
                  && after.JObj?
                  && after.fields["brightness"] == JInt(Clamp(ToInt(payload["brightness"]).value))
                  && after.fields["on"] == (if before.None? then JBool(true) else before.value.value.fields["on"]))
  {
  }

  /** The effect of the `lights.status_webhook` signal: room, then `on`
      presence are checked with no effect; the brightness defaults to 100
      when on and 0 when off, and a given one is stored as it came. */
  function WebhookT(payload: Object, b: Backend, ctx: Ctx): (h: Handled)
    ensures b.store.Valid() ==> h.backend.store.Valid()
    ensures !Truthy(Get(payload, "room")) ==> h == Handled(b, Fail(Invalid("room is required")))
    ensures Truthy(Get(payload, "room")) && Get(payload, "on") == JNull ==>
              h == Handled(b, Fail(Invalid("on is required")))
    ensures Truthy(Get(payload, "room")) && Get(payload, "on") != JNull ==>
              var key := StateKey(Str(payload["room"]));
              var on := Truthy(payload["on"]);
              && h.outcome == Pass
              && key in h.backend.store.entries
              && h.backend.store.entries[key].value
                 == LightsValue(JBool(on), if "brightness" in payload then payload["brightness"] else JInt(if on then 100 else 0))
    ensures Truthy(Get(payload, "room")) && Get(payload, "on") != JNull ==>
              var key := StateKey(Str(payload["room"]));
              var on := Truthy(payload["on"]);
              var value := LightsValue(JBool(on), if "brightness" in payload then payload["brightness"] else JInt(if on then 100 else 0));
              && h.backend.store.entries == b.store.entries[key := NewEntry(key, value, ctx.now, None)]
              && h.backend.store.queued == b.store.queued
    ensures Truthy(Get(payload, "room")) && Get(payload, "on") != JNull ==>
              var room := Str(payload["room"]);
              var on := Truthy(payload["on"]);
              var brightness := if "brightness" in payload then payload["brightness"] else JInt(if on then 100 else 0);
              h.backend.bus == Announced(b.bus, room, LightsValue(JBool(on), brightness), WebhookSource,
                                         map["room" := JStr(room), "state" := JStr(if on then "on" else "off"),
                                             "brightness" := brightness], ctx)
  {
    match RoomOf(payload)
    case Err(e) => Handled(b, Fail(e))
    case Ok(room) =>
      var raw := Get(payload, "on");
      if raw == JNull then Handled(b, Fail(Invalid("on is required")))
      else
        var on := Truthy(raw);
        var brightness := GetOr(payload, "brightness", JInt(if on then 100 else 0));
        Apply(b, room, LightsValue(JBool(on), brightness), WebhookSource,
              map["room" := JStr(room), "state" := JStr(if on then "on" else "off"), "brightness" := brightness], ctx)
  }

  /** A handler for one room leaves every other room's entry as it was. */
  lemma OtherRoomsUntouched(payload: Object, b: Backend, ctx: Ctx, other: string)
    requires Truthy(Get(payload, "room")) && other != Str(payload["room"])
    ensures var key := StateKey(other);
            && (key in TurnOnT(payload, b, ctx).backend.store.entries <==> key in b.store.entries)
            && (key in b.store.entries ==> TurnOnT(payload, b, ctx).backend.store.entries[key] == b.store.entries[key])
            && (key in TurnOffT(payload, b, ctx).backend.store.entries <==> key in b.store.entries)
            && (key in b.store.entries ==> TurnOffT(payload, b, ctx).backend.store.entries[key] == b.store.entries[key])
  {
    if StateKey(other) == StateKey(Str(payload["room"])) {
      StateKeyInjective(other, Str(payload["room"]));
    }
  }

  /** The handler tail, on the store. */
  method Store(store: StateStore, room: string, value: Json, source: Source, event: Object, ctx: Ctx)
    requires store.Valid()
    modifies store, store.bus
    ensures store.Valid()
    ensures Handled(store.BackendOf(), Pass) == Apply(old(store.BackendOf()), room, value, source, event, ctx)
  {
    store.SetState(StateKey(room), value, None, Some(source), ctx);
    var _ := store.bus.Emit(LightsChanged(source, event, ctx.now).ToObject(), ctx.failing);
  }

  /** `turn_on_lights`. */
  method TurnOn(store: StateStore, payload: Object, ctx: Ctx) returns (r: Outcome<Error>)
    requires store.Valid()
    modifies store, store.bus
    ensures store.Valid()
    ensures Handled(store.BackendOf(), r) == TurnOnT(payload, old(store.BackendOf()), ctx)
  {
    var room := RoomOf(payload);
    if room.Err? {
      return Fail(room.error);
    }
    var brightness := TurnOnBrightness(payload);
    Store(store, room.value, LightsValue(JBool(true), JInt(brightness)), TurnOnSource,
          map["room" := JStr(room.value), "state" := JStr("on"), "brightness" := JInt(brightness)], ctx);
    r := Pass;
  }

  /** `turn_off_lights`. */
  method TurnOff(store: StateStore, payload: Object, ctx: Ctx) returns (r: Outcome<Error>)
    requires store.Valid()
    modifies store, store.bus
    ensures store.Valid()
    ensures Handled(store.BackendOf(), r) == TurnOffT(payload, old(store.BackendOf()), ctx)
  {
    var room := RoomOf(payload);
    if room.Err? {
      return Fail(room.error);
    }
    Store(store, room.value, LightsValue(JBool(false), JInt(0)), TurnOffSource,
          map["room" := JStr(room.value), "state" := JStr("off")], ctx);
    r := Pass;
  }

  /** `set_brightness`. */
  method SetBrightness(store: StateStore, payload: Object, ctx: Ctx) returns (r: Outcome<Error>)
    requires store.Valid()
    modifies store, store.bus
    ensures store.Valid()
    ensures Handled(store.BackendOf(), r) == SetBrightnessT(payload, old(store.BackendOf()), ctx)
  {
    var room := RoomOf(payload);
    if room.Err? {
      return Fail(room.error);
    }
    var raw := Get(payload, "brightness");
    if raw == JNull {
      return Fail(Invalid("brightness is required"));
    }
    var n := ToInt(raw);
    if n.Err? {
      return Fail(n.error);
    }
    var brightness := Clamp(n.value);
    var current := store.GetState(StateKey(room.value), ctx);
    var on := OnFlag(current);
    if on.Err? {
      return Fail(on.error);
    }
    Store(store, room.value, LightsValue(on.value, JInt(brightness)), SetBrightnessSource,
          map["room" := JStr(room.value), "brightness" := JInt(brightness)], ctx);
    r := Pass;
  }

  /** `lights_status_webhook`. */
  method Webhook(store: StateStore, payload: Object, ctx: Ctx) returns (r: Outcome<Error>)
    requires store.Valid()
    modifies store, store.bus
    ensures store.Valid()
    ensures Handled(store.BackendOf(), r) == WebhookT(payload, old(store.BackendOf()), ctx)
  {
    var room := RoomOf(payload);
    if room.Err? {
      return Fail(room.error);
    }
    var raw := Get(payload, "on");
    if raw == JNull {
      return Fail(Invalid("on is required"));
    }
    var on := Truthy(raw);
    var brightness := GetOr(payload, "brightness", JInt(if on then 100 else 0));
    Store(store, room.value, LightsValue(JBool(on), brightness), WebhookSource,
          map["room" := JStr(room.value), "state" := JStr(if on then "on" else "off"), "brightness" := brightness], ctx);
    r := Pass;
  }
}
