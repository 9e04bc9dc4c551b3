/** The stand-alone Stream Deck client template
    (examples/streamdeck_client_template.py): bindings kept as raw records
    keyed by button, a tracker of the state keys the server reports, and
    which action a button press executes. */
module ClientTemplate {
  import opened Base
  import opened Json
  import opened Bindings

  /** `binding["key"]` of a record already checked to carry a string key. */
  function RecordKey(record: Object): string
  {
    Str(Get(record, "key"))
  }

  /** A record the comprehension accepts: an object with a string `key`. */
  predicate IsKeyedRecord(record: Json)
  {
    record.JObj? && "key" in record.fields && record.fields["key"].JStr?
  }

  /** Every record is accepted. */
  predicate AllKeyed(records: seq<Json>)
  {
    forall i :: 0 <= i < |records| ==> records[i].JObj? && "key" in records[i].fields && records[i].fields["key"].JStr?
  }

  /** The records as objects, or the error the first unusable one raises:
      a record without `key` is a KeyError. */
  function CheckedRecords(records: seq<Json>): (r: Result<seq<Object>, Error>)
    ensures r.Ok? <==> AllKeyed(records)
    ensures r.Ok? ==> |r.value| == |records| && forall i :: 0 <= i < |records| ==> r.value[i] == records[i].fields
    ensures r.Err? ==> exists i :: 0 <= i < |records| && !IsKeyedRecord(records[i]) &&
                                   (records[i].JObj? && "key" !in records[i].fields ==> r.error == NotFound("key"))
    decreases |records|
  {
    if records == [] then Ok([])
    else
      var last := records[|records| - 1];
      match CheckedRecords(records[..|records| - 1])
      case Err(e) => Err(e)
      case Ok(front) =>
        if !last.JObj? then Err(WrongType("record is not an object"))
        else if "key" !in last.fields then Err(NotFound("key"))
        else if !last.fields["key"].JStr? then Err(WrongType("record key is not a string"))
        else Ok(front + [last.fields])
  }

  /** The template's `load_bindings`: a missing or undecodable file gives no
      bindings (`None` here); a
      list of records becomes a dictionary keyed by each record's `key`, a
      later record replacing an earlier one (see Bindings.KeyedLastWins). */
  function LoadBindings(document: Option<Json>): (r: Result<map<string, Object>, Error>)
    ensures document.None? ==> r == Ok(map[])
    ensures document.Some? && document.value.JArr? ==>
              (r.Ok? <==> AllKeyed(document.value.items))
  {
    if document.None? then Ok(map[])
    else match document.value
      case JArr(items) =>
        (match CheckedRecords(items)
         case Err(e) => Err(e)
         case Ok(records) => Ok(Keyed(map[], records, RecordKey)))
      case JObj(fields) => if fields == map[] then Ok(map[]) else Err(WrongType("record is not an object"))
      case JStr(s) => if s == "" then Ok(map[]) else Err(WrongType("record is not an object"))
      case _ => Err(WrongType("bindings document is not iterable"))
  }

  /** The button a checked record binds. */
  function ButtonOf(record: Json): string
    requires IsKeyedRecord(record)
  {
    record.fields["key"].s
  }

  /** A list of keyed records loads as the records filled in by key. */
  lemma LoadedIsKeyed(items: seq<Json>)
    requires AllKeyed(items)
    ensures CheckedRecords(items).Ok?
    ensures LoadBindings(Some(JArr(items))) == Ok(Keyed(map[], CheckedRecords(items).value, RecordKey))
  {
  }

  /** The key of each checked record is the button its record names. */
  lemma RecordKeys(items: seq<Json>, records: seq<Object>)
    requires AllKeyed(items) && CheckedRecords(items) == Ok(records)
    ensures |records| == |items|
    ensures forall i :: 0 <= i < |items| ==> RecordKey(records[i]) == ButtonOf(items[i])
  {
    forall i | 0 <= i < |items|
      ensures RecordKey(records[i]) == ButtonOf(items[i])
    {
      assert records[i] == items[i].fields;
    }
  }

  /** Loading a list of records binds exactly the buttons the records name. */
  lemma {:induction false} LoadedButtons(items: seq<Json>)
    requires AllKeyed(items)
    ensures LoadBindings(Some(JArr(items))).Ok?
    ensures LoadBindings(Some(JArr(items))).value.Keys == (set i | 0 <= i < |items| :: ButtonOf(items[i]))
  {
    LoadedIsKeyed(items);
    var records := CheckedRecords(items).value;
    KeyedLastWins(map[], records, RecordKey);
    RecordKeys(items, records);
    assert (set i | 0 <= i < |items| :: ButtonOf(items[i])) == (set i | 0 <= i < |records| :: RecordKey(records[i]));
  }

  /** Each button gets the last record written for it. */
  lemma {:induction false} LoadedLastRecord(items: seq<Json>, i: nat)
    requires AllKeyed(items) && i < |items|
    requires forall j :: i < j < |items| ==> ButtonOf(items[j]) != ButtonOf(items[i])
    ensures LoadBindings(Some(JArr(items))).Ok?
    ensures var loaded := LoadBindings(Some(JArr(items))).value;
            ButtonOf(items[i]) in loaded && loaded[ButtonOf(items[i])] == items[i].fields
  {
    LoadedIsKeyed(items);
    var records := CheckedRecords(items).value;
    RecordKeys(items, records);
    assert forall j :: i < j < |records| ==> RecordKey(records[j]) != RecordKey(records[i]);
    KeyedLastWins(map[], records, RecordKey);
    assert records[i] == items[i].fields;
  }

  /** The HTTP request a button press would execute. */
  datatype Request = Request(action: Json, payload: Json)

  /** `simulate_button_press`, up to `execute_action`: nothing for an
      unbound key or a binding without a truthy action, otherwise its action
      with its payload (default {}). */
  function SimulateButtonPress(key: string, bindings: map<string, Object>): (r: Option<Request>)
    ensures r.Some? <==> key in bindings && Truthy(Get(bindings[key], "action"))
    ensures r.Some? ==> r.value == Request(bindings[key]["action"], GetOr(bindings[key], "payload", JObj(map[])))
  {
    var binding := if key in bindings then bindings[key] else map[];
    if binding == map[] then None
    else
      var action := Get(binding, "action");
      if !Truthy(action) then None
      else Some(Request(action, GetOr(binding, "payload", JObj(map[]))))
  }

  /** Pressing a button of a loaded file executes the action of the last
      record written for it, provided that action is truthy. */
  lemma PressLoadedButton(items: seq<Json>, i: nat)
    requires AllKeyed(items)
    requires i < |items|
    requires forall j :: i < j < |items| ==> ButtonOf(items[j]) != ButtonOf(items[i])
    requires Truthy(Get(items[i].fields, "action"))
    ensures LoadBindings(Some(JArr(items))).Ok?
    ensures SimulateButtonPress(ButtonOf(items[i]), LoadBindings(Some(JArr(items))).value) ==
            Some(Request(items[i].fields["action"], GetOr(items[i].fields, "payload", JObj(map[]))))
  {
    LoadedLastRecord(items, i);
  }

  /** `StateTracker`: the last value reported for each state key. */
  class StateTracker {
    var state: map<Json, Json>

    constructor()
      ensures state == map[]
    {
      state := map[];
    }

    /** `update`: afterwards `get` of the key gives the value. */
    method Update(key: Json, value: Json)
      modifies this
      ensures state == old(state)[key := value]
      ensures Lookup(key) == Some(value)
    {
      state := state[key := value];
    }

    /** `get`. */
    function Lookup(key: Json): (r: Option<Json>)
      reads this
      ensures r.Some? <==> key in state
      ensures r.Some? ==> r.value == state[key]
    {
      if key in state then Some(state[key]) else None
    }

    /** `clear`: the key is gone; an absent key changes nothing. */
    method Clear(key: Json)
      modifies this
      ensures state == old(state) - {key}
      ensures key !in old(state) ==> state == old(state)
      ensures Lookup(key) == None
    {
      if key in state {
        state := state - {key};
      }
    }
  }

  /** The event types whose branch of `process_event` calls `payload.get`. */
  predicate ReadsPayload(eventType: Json)
  {
    eventType == JStr("state.changed") || eventType == JStr("state.cleared") ||
    eventType == JStr("ui.open_url") || eventType == JStr("error")
  }

  /** A `state.changed` or `state.cleared` event whose payload key is truthy
      but a list or a mapping: Python cannot hash it, so the tracker's
      dictionary raises TypeError on it. */
  predicate UnhashableKey(eventType: Json, payload: Json)
  {
    && (eventType == JStr("state.changed") || eventType == JStr("state.cleared"))
    && payload.JObj?
    && Truthy(Get(payload.fields, "key"))
    && (Get(payload.fields, "key").JArr? || Get(payload.fields, "key").JObj?)
  }

  /** `process_event`, for its effect on the tracker: `state.changed` with a
      truthy key records the value, `state.cleared` with a truthy key
      removes the key, and nothing else touches the tracker. A payload that
      is not an object fails where its `get` is called, and a truthy key
      that is a list or a mapping fails at the tracker's dictionary. */
  method ProcessEvent(event: Object, tracker: StateTracker) returns (r: Outcome<Error>)
    modifies tracker
    ensures var eventType := Get(event, "type");
            var payload := GetOr(event, "payload", JObj(map[]));
            && (r.Fail? <==> (ReadsPayload(eventType) && !payload.JObj?) || UnhashableKey(eventType, payload))
            && (r.Fail? ==> r.error.WrongType? && tracker.state == old(tracker.state))
            && (r.Pass? && eventType == JStr("state.changed") ==>
                  var key := Get(payload.fields, "key");
                  tracker.state == if Truthy(key) then old(tracker.state)[key := Get(payload.fields, "value")]
                                   else old(tracker.state))
            && (r.Pass? && eventType == JStr("state.cleared") ==>
                  var key := Get(payload.fields, "key");
                  tracker.state == if Truthy(key) then old(tracker.state) - {key} else old(tracker.state))
            && (eventType != JStr("state.changed") && eventType != JStr("state.cleared") ==>
                  tracker.state == old(tracker.state))
  {
    var eventType := Get(event, "type");
    var payload := GetOr(event, "payload", JObj(map[]));
    if ReadsPayload(eventType) && !payload.JObj? {
      return Fail(WrongType("payload has no attribute 'get'"));
    }
    if UnhashableKey(eventType, payload) {
      return Fail(WrongType("unhashable type"));
    }
    if eventType == JStr("state.changed") {
      var key := Get(payload.fields, "key");
      if Truthy(key) {
        tracker.Update(key, Get(payload.fields, "value"));
      }
    } else if eventType == JStr("state.cleared") {
      var key := Get(payload.fields, "key");
      if Truthy(key) {
        tracker.Clear(key);
      }
    }
    r := Pass;
  }
}
