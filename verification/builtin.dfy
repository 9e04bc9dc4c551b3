/** The built-in plugin (src/deckhand/plugins/builtin.py): the `ui.open_url`
    action and the `camera.motion` signal. Each handler validates and
    normalises its payload before it touches the store or the bus. */
module BuiltinPlugin {
  import opened Base
  import opened Json
  import opened Events
  import opened State

  const OpenUrlSource := Source("action", "ui.open_url")
  const CameraMotionSource := Source("signal", "camera.motion")
  const DefaultMotionKey := "camera.front_door.motion"

  /** The metadata `register` gives the action and the signal. */
  const OpenUrlDescription := "Open a URL in the client's default browser"
  const OpenUrlSchema: Object := map["url" := JObj(map["type" := JStr("string"), "required" := JBool(true)])]
  const CameraMotionDescription := "Handle camera motion detection webhook"
  const CameraMotionSchema: Object :=
    map["key" := JObj(map["type" := JStr("string"), "required" := JBool(false), "default" := JStr(DefaultMotionKey)]),
        "active" := JObj(map["type" := JStr("boolean"), "required" := JBool(false), "default" := JBool(true)]),
        "ttl_seconds" := JObj(map["type" := JStr("number"), "required" := JBool(false)])]

  /** `open_url`'s payload check: the url, as text, or "url is required". */
  function OpenUrlRequest(payload: Object): (r: Result<string, Error>)
    ensures r.Err? <==> !Truthy(Get(payload, "url"))
    ensures r.Err? ==> r.error == Invalid("url is required")
    ensures r.Ok? ==> "url" in payload && r.value == Str(payload["url"])
  {
    var url := Get(payload, "url");
    if !Truthy(url) then Err(Invalid("url is required")) else Ok(Str(url))
  }

  /** The envelope a valid `open_url` emits. */
  function OpenUrlEvent(url: string, now: int): (e: Envelope)
    ensures e.eventType == "ui.open_url" && e.source == OpenUrlSource && e.ts == now
    ensures e.payload == map["url" := JStr(url)]
  {
    BuildEvent("ui.open_url", OpenUrlSource, now, Some(map["url" := JStr(url)]))
  }

  /** The effect of the `ui.open_url` action: one event on the bus, or the
      payload error and no effect at all. The store is never touched. */
  function OpenUrlT(payload: Object, b: Backend, ctx: Ctx): (h: Handled)
    ensures h.backend.store == b.store
    ensures h.outcome.Fail? <==> !Truthy(Get(payload, "url"))
    ensures h.outcome.Fail? ==> h.backend == b && h.outcome.error == Invalid("url is required")
    ensures h.outcome.Pass? ==> h.backend.bus.subscribers == b.bus.subscribers - ctx.failing
    ensures h.outcome.Pass? ==>
              h.backend.bus == Deliver(b.bus, OpenUrlEvent(Str(payload["url"]), ctx.now).ToObject(), ctx.failing)
  {
    match OpenUrlRequest(payload)
    case Err(e) => Handled(b, Fail(e))
    case Ok(url) => Handled(EmitT(b, OpenUrlEvent(url, ctx.now), ctx), Pass)
  }

  /** Every subscriber that does not fail receives exactly one envelope of
      type `ui.open_url` whose payload is the requested url. */
  lemma OpenUrlReachesSubscribers(payload: Object, b: Backend, ctx: Ctx, s: Sink)
    requires Truthy(Get(payload, "url"))
    requires s in b.bus.subscribers && s !in ctx.failing
    ensures var inbox := InboxOf(OpenUrlT(payload, b, ctx).backend.bus.log, s);
            && |inbox| == |InboxOf(b.bus.log, s)| + 1
            && inbox[|inbox| - 1]["type"] == JStr("ui.open_url")
            && inbox[|inbox| - 1]["payload"] == JObj(map["url" := JStr(Str(payload["url"]))])
  {
    var url := Str(payload["url"]);
    Delivered(b.bus, OpenUrlEvent(url, ctx.now).ToObject(), ctx.failing, s);
  }

  /** `camera_motion`'s normalised payload. */
  datatype MotionRequest = MotionRequest(key: string, active: bool, ttl: Option<int>)

  /** `camera_motion`'s payload handling: the key defaults when missing or
      falsy, `active` defaults to true only when missing, and a present,
      non-null `ttl_seconds` must convert to a number. */
  function CameraMotionRequest(payload: Object): (r: Result<MotionRequest, Error>)
    ensures r.Err? <==> Get(payload, "ttl_seconds") != JNull && ToInt(payload["ttl_seconds"]).Err?
    ensures r.Err? ==> r.error == ToInt(payload["ttl_seconds"]).error
    ensures r.Ok? ==> r.value.key == (if Truthy(Get(payload, "key")) then Str(payload["key"]) else DefaultMotionKey)
    ensures r.Ok? ==> (r.value.active <==> "active" !in payload || Truthy(payload["active"]))
    ensures r.Ok? ==> (r.value.ttl.None? <==> Get(payload, "ttl_seconds") == JNull)
  {
    var key := Str(OrElse(Get(payload, "key"), JStr(DefaultMotionKey)));
    var active := Truthy(GetOr(payload, "active", JBool(true)));
    var ttl := Get(payload, "ttl_seconds");
    if ttl == JNull then Ok(MotionRequest(key, active, None))
    else match ToInt(ttl)
      case Err(e) => Err(e)
      case Ok(n) => Ok(MotionRequest(key, active, Some(n)))
  }

  /** The value `camera_motion` stores. */
  function MotionValue(active: bool): Json
  {
    JObj(map["active" := JBool(active)])
  }

  /** The effect of the `camera.motion` signal: one `set_state`, or the
      conversion error and no effect. */
  function CameraMotionT(payload: Object, b: Backend, ctx: Ctx): (h: Handled)
    ensures b.store.Valid() ==> h.backend.store.Valid()
    ensures h.outcome.Fail? <==> CameraMotionRequest(payload).Err?
    ensures h.outcome.Fail? ==> h.backend == b
    ensures h.outcome.Pass? ==>
              var req := CameraMotionRequest(payload).value;
              h.backend.store.entries == b.store.entries[req.key := NewEntry(req.key, MotionValue(req.active), ctx.now, req.ttl)]
    ensures h.outcome.Pass? ==>
              var req := CameraMotionRequest(payload).value;
              var entry := NewEntry(req.key, MotionValue(req.active), ctx.now, req.ttl);
              && h.backend.store.queued == b.store.queued
              && h.backend.bus == Deliver(b.bus, ChangedEvent(entry, Some(Source("signal", "camera.motion")), ctx.now).ToObject(), ctx.failing)
  {
    match CameraMotionRequest(payload)
    case Err(e) => Handled(b, Fail(e))
    case Ok(req) => Handled(SetStateT(b, req.key, MotionValue(req.active), req.ttl, Some(CameraMotionSource), ctx), Pass)
  }

  /** After a motion signal without `ttl_seconds`, a read of its key at any
      later time finds `active` equal to the flag given (true by default). */
  lemma MotionIsReadBack(payload: Object, b: Backend, ctx: Ctx, later: int)
    requires Get(payload, "ttl_seconds") == JNull
    ensures var req := CameraMotionRequest(payload).value;
            var r := Read(CameraMotionT(payload, b, ctx).backend.store, req.key, later);
            && r.Some?
            && r.value.value == JObj(map["active" := JBool("active" !in payload || Truthy(payload["active"]))])
  {
    var req := CameraMotionRequest(payload).value;
    assert !NewEntry(req.key, MotionValue(req.active), ctx.now, req.ttl).ExpiredAt(later);
  }

  /** The `ui.open_url` handler. */
  method OpenUrl(store: StateStore, payload: Object, ctx: Ctx) returns (r: Outcome<Error>)
    requires store.Valid()
    modifies store.bus
    ensures Handled(store.BackendOf(), r) == OpenUrlT(payload, old(store.BackendOf()), ctx)
  {
    var url := OpenUrlRequest(payload);
    if url.Err? {
      return Fail(url.error);
    }
    var _ := store.bus.Emit(OpenUrlEvent(url.value, ctx.now).ToObject(), ctx.failing);
    r := Pass;
  }

  /** The `camera.motion` handler. */
  method CameraMotion(store: StateStore, payload: Object, ctx: Ctx) returns (r: Outcome<Error>)
    requires store.Valid()
    modifies store, store.bus
    ensures store.Valid()
    ensures Handled(store.BackendOf(), r) == CameraMotionT(payload, old(store.BackendOf()), ctx)
  {
    var req := CameraMotionRequest(payload);
    if req.Err? {
      return Fail(req.error);
    }
    store.SetState(req.value.key, MotionValue(req.value.active), req.value.ttl, Some(CameraMotionSource), ctx);
    r := Pass;
  }
}
