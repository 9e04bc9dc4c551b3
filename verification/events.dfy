/** Event envelopes and the in-memory publish/subscribe bus
    (src/deckhand/orchestrator/events.py, with the record shapes of schemas.py). */
module Events {
  import opened Base
  import opened Json

  /** The schema version every builder stamps by default. */
  const DefaultVersion: string := "1.0"

  /** The five top-level fields `emit` insists on. */
  const RequiredFields: set<string> := {"type", "source", "payload", "ts", "version"}

  /** Who raised an event: `{kind, id}`. */
  datatype Source = Source(kind: string, id: string)

  /** A built envelope. `ts` is an opaque integer stamp standing for `time.time()`. */
  datatype Envelope = Envelope(eventType: string, source: Source, payload: Object, ts: int, version: string)
  {
    /** The dictionary that is handed to `emit` and sent to subscribers. */
    function ToObject(): (r: Object)
      ensures r.Keys == RequiredFields
      ensures ShapeError(r) == None
      ensures r["type"] == JStr(eventType) && r["payload"] == JObj(payload)
    {
      map[
        "type" := JStr(eventType),
        "source" := JObj(map["kind" := JStr(source.kind), "id" := JStr(source.id)]),
        "payload" := JObj(payload),
        "ts" := JInt(ts),
        "version" := JStr(version)
      ]
    }
  }

  /** `build_event`: a missing or empty payload becomes `{}`, the version defaults to "1.0". */
  function BuildEvent(eventType: string, source: Source, ts: int, payload: Option<Object> := None,
                      version: string := DefaultVersion): (e: Envelope)
    ensures e.eventType == eventType && e.source == source && e.ts == ts && e.version == version
    ensures payload.None? ==> e.payload == map[]
    ensures payload.Some? ==> e.payload == payload.value
  {
    var body := if payload.Some? && payload.value != map[] then payload.value else map[];
    Envelope(eventType, source, body, ts, version)
  }

  /** `build_error_event`: an "error" envelope with payload {error_type, message, details}. */
  function BuildErrorEvent(errorType: string, message: string, source: Source, ts: int,
                           details: Option<Object> := None, version: string := DefaultVersion): (e: Envelope)
    ensures e.eventType == "error" && e.source == source && e.version == version
    ensures e.payload.Keys == {"error_type", "message", "details"}
    ensures e.payload["error_type"] == JStr(errorType) && e.payload["message"] == JStr(message)
    ensures e.payload["details"] == JObj(if details.Some? then details.value else map[])
  {
    var d := if details.Some? && details.value != map[] then details.value else map[];
    BuildEvent("error", source, ts,
               Some(map["error_type" := JStr(errorType), "message" := JStr(message), "details" := JObj(d)]),
               version)
  }

  /** Why `emit` refuses an envelope. */
  datatype EmitError =
    | MissingFields(fields: set<string>)
    | BadSource

  /** The shape check at the top of `emit`: first the five fields, then the
      source, which must be an object with "kind" and "id" present (their
      values are not checked). */
  function ShapeError(event: Object): (r: Option<EmitError>)
    ensures r == None <==>
              RequiredFields <= event.Keys && event["source"].JObj?
              && "kind" in event["source"].fields && "id" in event["source"].fields
    ensures !(RequiredFields <= event.Keys) ==> r == Some(MissingFields(RequiredFields - event.Keys))
  {
    if !(RequiredFields <= event.Keys) then Some(MissingFields(RequiredFields - event.Keys))
    else
      assert "source" in RequiredFields;
      var src := event["source"];
      if !src.JObj? || "kind" !in src.fields || "id" !in src.fields then Some(BadSource)
      else None
  }

  /** Every envelope the builders produce passes the shape check. */
  lemma BuiltEventsAreAccepted(eventType: string, source: Source, ts: int, payload: Option<Object>)
    ensures ShapeError(BuildEvent(eventType, source, ts, payload).ToObject()) == None
    ensures BuildEvent(eventType, source, ts, payload).ToObject()["version"] == JStr("1.0")
  {
  }

  /** A subscriber connection, identified by an id. Whether a send to it
      fails is decided per call by the caller's context. */
  datatype Sink = Sink(id: nat)

  /** The world one call runs in: the clock reading (integer ticks), the sinks
      whose send raises during this call, and whether an asyncio loop is running. */
  datatype Ctx = Ctx(now: int, failing: set<Sink>, loopRunning: bool)

  /** One accepted `emit`: the envelope and the subscribers whose send went through. */
  datatype Delivery = Delivery(to: set<Sink>, event: Object)

  /** The observable state of a bus: its live subscribers and the log of
      accepted emits, oldest first (the effect of `send_json` on the far side). */
  datatype BusView = BusView(subscribers: set<Sink>, log: seq<Delivery>)

  const EmptyBus: BusView := BusView({}, [])

  /** What sink `s` has received, in order. */
  function InboxOf(log: seq<Delivery>, s: Sink): (r: seq<Object>)
    ensures |r| <= |log|
    decreases |log|
  {
    if log == [] then []
    else InboxOf(log[..|log| - 1], s) + (if s in log[|log| - 1].to then [log[|log| - 1].event] else [])
  }

  /** Reading a log split in two is reading each part in turn. */
  lemma {:induction false} InboxAppend(a: seq<Delivery>, b: seq<Delivery>, s: Sink)
    ensures InboxOf(a + b, s) == InboxOf(a, s) + InboxOf(b, s)
    decreases |b|
  {
    if b == [] {
      assert a + b == a;
    } else {
      var b' := b[..|b| - 1];
      assert (a + b)[..|a + b| - 1] == a + b';
      assert (a + b)[|a + b| - 1] == b[|b| - 1];
      InboxAppend(a, b', s);
    }
  }

  /** One accepted `emit`: the envelope goes to every subscriber whose send
      does not fail, and exactly the failing ones are dropped. */
  function Deliver(v: BusView, event: Object, failing: set<Sink>): (w: BusView)
  {
    BusView(v.subscribers - failing, v.log + [Delivery(v.subscribers - failing, event)])
  }

  /** After one `emit`, each subscriber whose send succeeded has the envelope
      once more at the end of its inbox; every other sink has nothing new,
      and the subscriber set lost exactly the failing sinks. */
  lemma Delivered(v: BusView, event: Object, failing: set<Sink>, s: Sink)
    ensures Deliver(v, event, failing).subscribers == v.subscribers - failing
    ensures s in v.subscribers && s !in failing ==>
              InboxOf(Deliver(v, event, failing).log, s) == InboxOf(v.log, s) + [event]
    ensures s !in v.subscribers || s in failing ==>
              InboxOf(Deliver(v, event, failing).log, s) == InboxOf(v.log, s)
  {
    var w := Deliver(v, event, failing);
    assert w.log[..|w.log| - 1] == v.log;
  }

  /** The log entries for envelopes all delivered to `to`. */
  function Deliveries(to: set<Sink>, events: seq<Envelope>): (r: seq<Delivery>)
    ensures |r| == |events|
    decreases |events|
  {
    if events == [] then [] else [Delivery(to, events[0].ToObject())] + Deliveries(to, events[1..])
  }

  /** Several well-formed envelopes emitted one after the other in one
      context: after the first, the failing sinks are gone, so every one of
      them reaches the same subscribers. */
  function Publish(v: BusView, events: seq<Envelope>, failing: set<Sink>): (w: BusView)
    ensures events != [] ==> w.subscribers == v.subscribers - failing
    ensures events == [] ==> w == v
  {
    if events == [] then v else BusView(v.subscribers - failing, v.log + Deliveries(v.subscribers - failing, events))
  }

  /** Publishing is emitting the first envelope, then publishing the rest. */
  lemma PublishStep(v: BusView, events: seq<Envelope>, failing: set<Sink>)
    requires events != []
    ensures Publish(v, events, failing) == Publish(Deliver(v, events[0].ToObject(), failing), events[1..], failing)
  {
    var to := v.subscribers - failing;
    assert to - failing == to;
    if events[1..] != [] {
      assert v.log + Deliveries(to, events) == v.log + [Delivery(to, events[0].ToObject())] + Deliveries(to, events[1..]);
    }
  }

  /** Publishing one envelope is one `emit`. */
  lemma PublishOne(v: BusView, a: Envelope, failing: set<Sink>)
    ensures Publish(v, [a], failing) == Deliver(v, a.ToObject(), failing)
  {
    assert [a][1..] == [];
  }

  /** Publishing two envelopes is emitting one, then the other. */
  lemma PublishPair(v: BusView, a: Envelope, b: Envelope, failing: set<Sink>)
    ensures Publish(v, [a, b], failing) == Deliver(Deliver(v, a.ToObject(), failing), b.ToObject(), failing)
  {
    PublishStep(v, [a, b], failing);
    assert [a, b][1..] == [b];
    PublishOne(Deliver(v, a.ToObject(), failing), b, failing);
  }

  /** The dictionaries of several envelopes, in order. */
  function Objects(events: seq<Envelope>): (r: seq<Object>)
    ensures |r| == |events|
    decreases |events|
  {
    if events == [] then [] else [events[0].ToObject()] + Objects(events[1..])
  }

  /** A subscriber whose sends never fail receives the published envelopes
      in order, after what it already had; any other sink receives nothing. */
  lemma {:induction false} PublishInOrder(v: BusView, events: seq<Envelope>, failing: set<Sink>, s: Sink)
    ensures s in v.subscribers && s !in failing ==>
              InboxOf(Publish(v, events, failing).log, s) == InboxOf(v.log, s) + Objects(events)
    ensures s !in v.subscribers || s in failing ==>
              InboxOf(Publish(v, events, failing).log, s) == InboxOf(v.log, s)
    decreases |events|
  {
    if events != [] {
      var w := Deliver(v, events[0].ToObject(), failing);
      PublishStep(v, events, failing);
      Delivered(v, events[0].ToObject(), failing, s);
      PublishInOrder(w, events[1..], failing, s);
      if s in v.subscribers && s !in failing {
        assert InboxOf(w.log, s) + Objects(events[1..]) == InboxOf(v.log, s) + Objects(events);
      }
    }
  }

  /** `EventBus`: a set of subscriber sinks; `emit` validates and fans out. */
  class EventBus {
    var subscribers: set<Sink>
    var log: seq<Delivery>

    function View(): BusView
      reads this
    {
      BusView(subscribers, log)
    }

    constructor()
      ensures View() == EmptyBus
    {
      subscribers := {};
      log := [];
    }

    /** `subscribe`: add the sink (adding it again keeps one copy). The
        transport's `accept` handshake is not modelled. */
    method Subscribe(s: Sink)
      modifies this
      ensures subscribers == old(subscribers) + {s}
      ensures log == old(log)
    {
      subscribers := subscribers + {s};
    }

    /** `unsubscribe`: remove the sink; a no-op for an absent one. */
    method Unsubscribe(s: Sink)
      modifies this
      ensures subscribers == old(subscribers) - {s}
      ensures log == old(log)
    {
      subscribers := subscribers - {s};
    }

    /** `emit`: refuse a malformed envelope before any send; otherwise try
        every current subscriber once, collect the ones whose send failed and
        discard them afterwards. */
    method Emit(event: Object, failing: set<Sink>) returns (err: Option<EmitError>)
      modifies this
      ensures err == ShapeError(event)
      ensures err.Some? ==> View() == old(View())
      ensures err.None? ==> View() == Deliver(old(View()), event, failing)
    {
      err := ShapeError(event);
      if err.Some? {
        return;
      }
      var dead, got := SendToAll(event, failing);
      log := log + [Delivery(got, event)];
      ghost var live := subscribers;
      for i := 0 to |dead|
        invariant forall s :: s in subscribers <==> s in live && s !in dead[..i]
        invariant log == old(log) + [Delivery(live - failing, event)]
      {
        assert dead[..i + 1] == dead[..i] + [dead[i]];
        subscribers := subscribers - {dead[i]};
      }
      assert dead[..|dead|] == dead;
      assert subscribers == live - failing;
    }

    /** The first loop of `emit`: attempt the send to each current subscriber
        once, recording those whose send failed and those it reached. */
    method SendToAll(event: Object, failing: set<Sink>) returns (dead: seq<Sink>, got: set<Sink>)
      ensures got == subscribers - failing
      ensures forall s :: s in dead <==> s in subscribers && s in failing
    {
      var pending := subscribers;
      dead := [];
      got := {};
      while pending != {}
        invariant pending <= subscribers
        invariant forall s :: s in dead <==> s in subscribers && s in failing && s !in pending
        invariant got == (subscribers - pending) - failing
        decreases |pending|
      {
        var s :| s in pending;
        if s in failing {
          dead := dead + [s];
        } else {
          got := got + {s};
        }
        pending := pending - {s};
      }
    }
  }
}
