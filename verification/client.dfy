/** The Stream Deck client (src/deckhand/clients/streamdeck/client.py): the
    server address, the deck's bindings, which action a press runs, and the
    indicator map kept up to date by the event stream. */
module Client {
  import opened Base
  import opened Json
  import opened Strings
  import opened Bindings
  import opened Adapter

  /** The POST a press would make: the action's name and its payload. */
  datatype Post = Post(action: string, payload: Object)

  /** `_default_ws_url`: the event-stream address of a server, with http
      turned into ws and https into wss. */
  function DefaultWsUrl(baseUrl: string): (r: string)
    ensures !StartsWith(baseUrl, "https://") && !StartsWith(baseUrl, "http://") ==> r == baseUrl + "/events"
    ensures |r| >= 7 && r[|r| - 7..] == "/events"
  {
    var base :=
      if StartsWith(baseUrl, "https://") then "wss://" + baseUrl[|"https://"|..]
      else if StartsWith(baseUrl, "http://") then "ws://" + baseUrl[|"http://"|..]
      else baseUrl;
    base + "/events"
  }

  /** The scheme is swapped and the rest of the address kept as it is. */
  lemma WsUrlSchemes(rest: string)
    ensures DefaultWsUrl("https://" + rest) == "wss://" + rest + "/events"
    ensures DefaultWsUrl("http://" + rest) == "ws://" + rest + "/events"
  {
    assert ("https://" + rest)[..8] == "https://";
    assert ("https://" + rest)[8..] == rest;
    var u := "http://" + rest;
    assert u[..7] == "http://" && u[7..] == rest;
    assert !StartsWith(u, "https://") by {
      if |u| >= 8 { assert u[4] != "https://"[4]; }
    }
  }

  /** `binding.indicator_key == state_key`: only a string state key can
      equal an indicator key. */
  predicate Follows(b: ButtonBinding, stateKey: Json)
  {
    b.indicatorKey.Some? && stateKey == JStr(b.indicatorKey.value)
  }

  /** The indicators after `_apply_state(payload)`: with a truthy state key,
      every button whose binding follows it shows the payload's value, and
      no other entry changes; otherwise nothing changes. */
  ghost predicate StateApplied(before: map<string, Json>, after: map<string, Json>,
                               bindings: map<string, ButtonBinding>, payload: Object)
  {
    var stateKey := Get(payload, "key");
    if !Truthy(stateKey) then after == before
    else
      && (forall k :: k in after <==> k in before || (k in bindings && Follows(bindings[k], stateKey)))
      && (forall k :: k in after ==>
            after[k] == if k in bindings && Follows(bindings[k], stateKey) then Get(payload, "value") else before[k])
  }

  /** Because `state.cleared` names the indicator by the state key, a button
      lit by `state.changed` for that key keeps its value after the clear. */
  lemma ClearKeepsButtonLit(i0: map<string, Json>, i1: map<string, Json>, bindings: map<string, ButtonBinding>,
                            stateKey: string, value: Json, button: string)
    requires stateKey != "" && button != stateKey
    requires button in bindings && Follows(bindings[button], JStr(stateKey))
    requires StateApplied(i0, i1, bindings, map["key" := JStr(stateKey), "value" := value])
    ensures button in i1 && i1[button] == value
    ensures i1[stateKey := JNull][button] == value
  {
    var payload := map["key" := JStr(stateKey), "value" := value];
    assert Get(payload, "key") == JStr(stateKey) && Get(payload, "value") == value;
  }

  /** `str(event.get("type", ""))`. */
  function EventType(event: Object): string
  {
    Str(GetOr(event, "type", JStr("")))
  }

  /** `event.get("payload", {})`. */
  function EventPayload(event: Object): Json
  {
    GetOr(event, "payload", JObj(map[]))
  }

  /** The event types whose handling calls `payload.get`. */
  predicate ReadsPayload(eventType: string)
  {
    eventType == "state.changed" || eventType == "state.cleared" || eventType == "ui.open_url"
  }

  class StreamDeckClient {
    const baseUrl: string
    const adapter: StreamDeckAdapter
    var indicators: map<string, Json>

    ghost predicate Valid()
      reads this, adapter
    {
      adapter.Valid()
    }

    /** `__init__`: the base url without trailing slashes, an adapter loaded
        with the given bindings or, when there are none, the defaults, and no
        indicators. */
    constructor(baseUrl: string, bindings: seq<ButtonBinding>)
      ensures Valid() && fresh(adapter)
      ensures this.baseUrl == RStrip(baseUrl, '/')
      ensures adapter.bindings == Keyed(map[], if bindings == [] then DefaultBindings else bindings, BindingKey)
      ensures indicators == map[]
    {
      this.baseUrl := RStrip(baseUrl, '/');
      adapter := new StreamDeckAdapter(if bindings == [] then DefaultBindings else bindings);
      indicators := map[];
    }

    /** `press`, up to the POST: an unbound key posts nothing, a bound one
        posts its binding's action with its payload. */
    function Press(key: string): (r: Option<Post>)
      requires Valid()
      reads this, adapter
      ensures r.None? <==> key !in adapter.bindings
      ensures r.Some? ==> r.value == Post(adapter.bindings[key].action, adapter.bindings[key].payload)
    {
      match adapter.ResolveAction(key)
      case None => None
      case Some(b) => Some(Post(b.action, b.payload))
    }

    /** `_set_indicator`. */
    method SetIndicator(key: string, value: Json)
      modifies this
      ensures indicators == old(indicators)[key := value]
    {
      indicators := indicators[key := value];
    }

    /** `_apply_state`: one pass over the deck's bindings. */
    method ApplyState(payload: Object)
      requires Valid()
      modifies this
      ensures StateApplied(old(indicators), indicators, adapter.bindings, payload)
    {
      var stateKey := Get(payload, "key");
      var value := Get(payload, "value");
      if !Truthy(stateKey) {
        return;
      }
      var todo := adapter.IterBindings();
      while todo != {}
        invariant todo <= adapter.IterBindings()
        invariant forall k :: k in indicators <==>
                    k in old(indicators) ||
                    (k in adapter.bindings && adapter.bindings[k] !in todo && Follows(adapter.bindings[k], stateKey))
        invariant forall k :: k in indicators ==>
                    indicators[k] ==
                    if k in adapter.bindings && adapter.bindings[k] !in todo && Follows(adapter.bindings[k], stateKey)
                    then value else old(indicators)[k]
        decreases todo
      {
        var b :| b in todo;
        if Follows(b, stateKey) {
          SetIndicator(b.key, value);
        }
        todo := todo - {b};
      }
    }

    /** `_apply_event`: `state.changed` goes to `_apply_state`; `state.cleared`
        with a truthy key sets the indicator named by that state key (not by
        a button key) to None; `ui.open_url` only opens the url; any other
        type changes nothing. A payload that is not an object fails where
        its `get` is called. */
    method ApplyEvent(event: Object) returns (r: Outcome<Error>)
      requires Valid()
      modifies this
      ensures r.Fail? <==> ReadsPayload(EventType(event)) && !EventPayload(event).JObj?
      ensures r.Fail? ==> indicators == old(indicators)
      ensures r.Pass? && EventType(event) == "state.changed" ==>
                StateApplied(old(indicators), indicators, adapter.bindings, EventPayload(event).fields)
      ensures r.Pass? && EventType(event) == "state.cleared" ==>
                var key := Get(EventPayload(event).fields, "key");
                indicators == if Truthy(key) then old(indicators)[Str(key) := JNull] else old(indicators)
      ensures EventType(event) != "state.changed" && EventType(event) != "state.cleared" ==>
                indicators == old(indicators)
    {
      var eventType := Str(GetOr(event, "type", JStr("")));
      var payload := GetOr(event, "payload", JObj(map[]));
      if ReadsPayload(eventType) && !payload.JObj? {
        return Fail(WrongType("payload has no attribute 'get'"));
      }
      if eventType == "state.changed" {
        ApplyState(payload.fields);
      } else if eventType == "state.cleared" {
        var key := Get(payload.fields, "key");
        if Truthy(key) {
          SetIndicator(Str(key), JNull);
        }
      }
      r := Pass;
    }
  }
}
