/** The tables behind ActionRegistry and SignalRegistry
    (src/deckhand/orchestrator/actions.py, src/deckhand/orchestrator/signals.py):
    a handler and a metadata record per name, with the records of
    src/deckhand/orchestrator/metadata.py. Both registries keep the same two
    dictionaries and treat them the same way, so the logic is stated once here
    over any handler type. */
module Catalogs {
  import opened Base
  import opened Json
  import opened Strings

  /** `ActionMetadata` and `SignalMetadata`: the two records have the same fields. */
  datatype Metadata = Metadata(name: string, description: string, payloadSchema: Object)

  /** `payload_schema or {}`: a missing schema is stored as the empty one. */
  function SchemaOrEmpty(schema: Option<Object>): (s: Object)
    ensures schema.Some? ==> s == schema.value
    ensures schema.None? ==> s == map[]
  {
    if schema.Some? then schema.value else map[]
  }

  /** The handler table and the metadata table of a registry. */
  datatype Catalog<H> = Catalog(handlers: map<string, H>, metadata: map<string, Metadata>)
  {
    /** Both tables name the same entries, and each record carries its own name. */
    predicate Valid()
    {
      && handlers.Keys == metadata.Keys
      && forall n :: n in metadata ==> metadata[n].name == n
    }
  }

  function Empty<H>(): (c: Catalog<H>)
    ensures c.Valid() && c.handlers == map[]
  {
    Catalog(map[], map[])
  }

  /** `_actions.get(name)` / `_signals.get(name)`. */
  function Lookup<H>(c: Catalog<H>, name: string): (r: Option<H>)
    ensures r.Some? <==> name in c.handlers
    ensures r.Some? ==> r.value == c.handlers[name]
  {
    if name in c.handlers then Some(c.handlers[name]) else None
  }

  /** `get_action_metadata` / `get_signal_metadata`: `None` for an unknown
      name, otherwise the record registered under it. */
  function Describe<H>(c: Catalog<H>, name: string): (r: Option<Metadata>)
    requires c.Valid()
    ensures r.Some? <==> Lookup(c, name).Some?
    ensures r.Some? ==> r.value.name == name && r.value == c.metadata[name]
  {
    if name in c.metadata then Some(c.metadata[name]) else None
  }

  /** `register`: the handler and a fresh metadata record both replace
      whatever the name had; every other name keeps its entry. */
  function Registered<H>(c: Catalog<H>, name: string, h: H, description: string, schema: Option<Object>): (d: Catalog<H>)
    requires c.Valid()
    ensures d.Valid()
    ensures d.handlers.Keys == c.handlers.Keys + {name}
    ensures Lookup(d, name) == Some(h)
    ensures Describe(d, name) == Some(Metadata(name, description, SchemaOrEmpty(schema)))
    ensures forall n :: n != name ==> Lookup(d, n) == Lookup(c, n) && Describe(d, n) == Describe(c, n)
  {
    Catalog(c.handlers[name := h], c.metadata[name := Metadata(name, description, SchemaOrEmpty(schema))])
  }

  /** Registering a name again overwrites the first registration entirely. */
  lemma ReregisterOverwrites<H>(c: Catalog<H>, name: string, h1: H, d1: string, s1: Option<Object>,
                                h2: H, d2: string, s2: Option<Object>)
    requires c.Valid()
    ensures Registered(Registered(c, name, h1, d1, s1), name, h2, d2, s2) == Registered(c, name, h2, d2, s2)
  {
  }

  function NamesOf(r: seq<Metadata>): (ns: seq<string>)
    ensures |ns| == |r| && forall i :: 0 <= i < |r| ==> ns[i] == r[i].name
  {
    seq(|r|, i requires 0 <= i < |r| => r[i].name)
  }

  /** What `list_actions` / `list_signals` return: one record per registered
      name, the record registered under it, in ascending name order. */
  ghost predicate IsListing<H>(c: Catalog<H>, r: seq<Metadata>)
  {
    && Ascending(NamesOf(r))
    && (forall n :: n in c.handlers <==> n in NamesOf(r))
    && (forall i :: 0 <= i < |r| ==> r[i].name in c.metadata && r[i] == c.metadata[r[i].name])
  }

  /** The listing of a registry is determined by its tables. */
  lemma {:induction false} ListingUnique<H>(c: Catalog<H>, r1: seq<Metadata>, r2: seq<Metadata>)
    requires IsListing(c, r1) && IsListing(c, r2)
    ensures r1 == r2
  {
    AscendingUnique(NamesOf(r1), NamesOf(r2));
    forall i | 0 <= i < |r1|
      ensures r1[i] == r2[i]
    {
      assert NamesOf(r1)[i] == NamesOf(r2)[i];
    }
  }

  /** `[self._metadata[name] for name in sorted(self._actions.keys())]`. */
  method Listing<H>(c: Catalog<H>) returns (r: seq<Metadata>)
    requires c.Valid()
    ensures IsListing(c, r)
  {
    var names := SortedNames(c.handlers.Keys);
    r := seq(|names|, i requires 0 <= i < |names| => c.metadata[names[i]]);
    assert NamesOf(r) == names;
  }
}
