/** Button bindings (src/deckhand/config/bindings.py): what a Stream Deck key
    does when pressed and which state key its indicator follows. */
module Bindings {
  import opened Base
  import opened Json

  /** `ButtonBinding`: a key, the action it runs with its payload, and an
      optional state key the key's indicator shows. */
  datatype ButtonBinding = ButtonBinding(key: string, action: string, payload: Object, indicatorKey: Option<string>)

  function BindingKey(b: ButtonBinding): string
  {
    b.key
  }

  /** `DEFAULT_BINDINGS`. */
  const DefaultBindings: seq<ButtonBinding> := [
    ButtonBinding("front-door", "ui.open_url", map["url" := JStr("https://homeassistant.local")],
                  Some("camera.front_door.motion")),
    ButtonBinding("mock-1-start", "agent.start", map["agent_id" := JStr("mock-1")], None)
  ]

  /** Where `load_bindings` gets its records from: no path at all, a path
      that does not exist, or the decoded JSON document of an existing file. */
  datatype BindingsFile = NoPath | Missing | Decoded(document: Json)

  /** The error `load_bindings` raises for record `i` missing `field`. */
  function MissingField(i: nat, field: string): Error
  {
    Invalid("Binding " + IntToDecimal(i) + " missing required field: '" + field + "'")
  }

  /** The `ButtonBinding(...)` call for record `i`: `key` and then `action`
      must be present; `payload` defaults to {} and `indicator_key` to None.
      Field values of the wrong type are rejected (see README). */
  function ToBinding(i: nat, record: Json): (r: Result<ButtonBinding, Error>)
    ensures record.JObj? && "key" !in record.fields ==> r == Err(MissingField(i, "key"))
    ensures record.JObj? && "key" in record.fields && "action" !in record.fields ==> r == Err(MissingField(i, "action"))
    ensures r.Ok? ==> record.JObj? && "key" in record.fields && "action" in record.fields
    ensures r.Ok? ==> r.value.key == Str(record.fields["key"]) && r.value.action == Str(record.fields["action"])
    ensures r.Ok? ==> ("payload" !in record.fields ==> r.value.payload == map[])
    ensures r.Ok? ==> (Get(record.fields, "indicator_key") == JNull <==> r.value.indicatorKey.None?)
    ensures r.Ok? && "payload" in record.fields ==>
              record.fields["payload"].JObj? && r.value.payload == record.fields["payload"].fields
    ensures r.Ok? && Get(record.fields, "indicator_key").JStr? ==>
              r.value.indicatorKey == Some(record.fields["indicator_key"].s)
  {
    if !record.JObj? then Err(WrongType("binding record is not an object"))
    else
      var f := record.fields;
      if "key" !in f then Err(MissingField(i, "key"))
      else if "action" !in f then Err(MissingField(i, "action"))
      else
        var payload := GetOr(f, "payload", JObj(map[]));
        var indicator := Get(f, "indicator_key");
        if !f["key"].JStr? || !f["action"].JStr? || !payload.JObj? || !(indicator.JNull? || indicator.JStr?) then
          Err(WrongType("binding field has the wrong type"))
        else
          Ok(ButtonBinding(f["key"].s, f["action"].s, payload.fields,
                           if indicator.JStr? then Some(indicator.s) else None))
  }

  /** The record a binding is written as in a bindings file. */
  function ToRecord(b: ButtonBinding): Json
  {
    var f := map["key" := JStr(b.key), "action" := JStr(b.action), "payload" := JObj(b.payload)];
    JObj(if b.indicatorKey.Some? then f["indicator_key" := JStr(b.indicatorKey.value)] else f)
  }

  /** Every binding survives being written as a record and read back, at any index. */
  lemma RecordRoundTrip(i: nat, b: ButtonBinding)
    ensures ToBinding(i, ToRecord(b)) == Ok(b)
  {
    var f := ToRecord(b).fields;
    assert "key" in f && "action" in f && f["key"] == JStr(b.key) && f["action"] == JStr(b.action);
    assert Get(f, "indicator_key") == (if b.indicatorKey.Some? then JStr(b.indicatorKey.value) else JNull);
  }

  /** The conversion loop of `load_bindings`: one binding per record, in
      order, or the error of the first record that cannot be converted. */
  method ConvertRecords(records: seq<Json>) returns (r: Result<seq<ButtonBinding>, Error>)
    ensures r.Ok? <==> forall i :: 0 <= i < |records| ==> ToBinding(i, records[i]).Ok?
    ensures r.Ok? ==> |r.value| == |records| &&
                      forall i :: 0 <= i < |records| ==> r.value[i] == ToBinding(i, records[i]).value
    ensures r.Err? ==> exists i :: 0 <= i < |records| && ToBinding(i, records[i]) == Err(r.error) &&
                                   forall j :: 0 <= j < i ==> ToBinding(j, records[j]).Ok?
  {
    var bindings: seq<ButtonBinding> := [];
    var i := 0;
    while i < |records|
      invariant 0 <= i <= |records| && |bindings| == i
      invariant forall j :: 0 <= j < i ==> ToBinding(j, records[j]).Ok? && bindings[j] == ToBinding(j, records[j]).value
    {
      var b := ToBinding(i, records[i]);
      if b.Err? {
        return Err(b.error);
      }
      bindings := bindings + [b.value];
      i := i + 1;
    }
    return Ok(bindings);
  }

  /** `load_bindings`: the defaults when there is no path or no file;
      otherwise the document is iterated as Python iterates it (a list by
      its items, an empty object or string as nothing) and converted. */
  method LoadBindings(file: BindingsFile) returns (r: Result<seq<ButtonBinding>, Error>)
    ensures (file.NoPath? || file.Missing?) ==> r == Ok(DefaultBindings)
    ensures file.Decoded? && file.document.JArr? ==>
              (r.Ok? <==> forall i :: 0 <= i < |file.document.items| ==> ToBinding(i, file.document.items[i]).Ok?)
    ensures file.Decoded? && file.document.JArr? && r.Ok? ==>
              |r.value| == |file.document.items| &&
              forall i :: 0 <= i < |r.value| ==> r.value[i] == ToBinding(i, file.document.items[i]).value
    ensures file.Decoded? && !file.document.JArr? ==>
              (r.Ok? <==> file.document == JObj(map[]) || file.document == JStr("")) && (r.Ok? ==> r.value == [])
  {
    if !file.Decoded? {
      return Ok(DefaultBindings);
    }
    match file.document
    case JArr(items) =>
      r := ConvertRecords(items);
    case JObj(fields) =>
      r := if fields == map[] then Ok([]) else Err(WrongType("binding record is not an object"));
    case JStr(s) =>
      r := if s == "" then Ok([]) else Err(WrongType("binding record is not an object"));
    case _ =>
      r := Err(WrongType("bindings document is not iterable"));
  }

  /** A dictionary filled from `items` in order, each stored under its own
      key: a later item replaces an earlier one with the same key. */
  function Keyed<T>(m: map<string, T>, items: seq<T>, keyOf: T -> string): map<string, T>
    decreases |items|
  {
    if items == [] then m
    else
      var last := items[|items| - 1];
      Keyed(m, items[..|items| - 1], keyOf)[keyOf(last) := last]
  }

  /** Filling a dictionary keeps every old key and adds every item's key;
      each key ends up holding its last item, or its old value when no item
      has that key. */
  lemma {:induction false} KeyedLastWins<T>(m: map<string, T>, items: seq<T>, keyOf: T -> string)
    ensures Keyed(m, items, keyOf).Keys == m.Keys + set i | 0 <= i < |items| :: keyOf(items[i])
    ensures forall i :: 0 <= i < |items| && (forall j :: i < j < |items| ==> keyOf(items[j]) != keyOf(items[i])) ==>
              Keyed(m, items, keyOf)[keyOf(items[i])] == items[i]
    ensures forall k :: k in m && (forall i :: 0 <= i < |items| ==> keyOf(items[i]) != k) ==>
              Keyed(m, items, keyOf)[k] == m[k]
    decreases |items|
  {
    if items != [] {
      var n := |items| - 1;
      var front := items[..n];
      KeyedLastWins(m, front, keyOf);
      assert forall i :: 0 <= i < n ==> front[i] == items[i];
      assert (set i | 0 <= i < |items| :: keyOf(items[i])) == (set i | 0 <= i < n :: keyOf(front[i])) + {keyOf(items[n])};
    }
  }

  /** When every stored item sits under its own key, filling keeps it so. */
  lemma {:induction false} KeyedSelfKeyed<T>(m: map<string, T>, items: seq<T>, keyOf: T -> string)
    requires forall k :: k in m ==> keyOf(m[k]) == k
    ensures forall k :: k in Keyed(m, items, keyOf) ==> keyOf(Keyed(m, items, keyOf)[k]) == k
    decreases |items|
  {
    if items != [] {
      KeyedSelfKeyed(m, items[..|items| - 1], keyOf);
    }
  }
}
