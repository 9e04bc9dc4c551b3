/** The expiring key/value state store (src/deckhand/orchestrator/state.py).

    The store's dictionary is insertion-ordered, as Python dictionaries are:
    `order` lists its keys, a new key goes to the end, overwriting keeps the
    position and deleting removes it. Purging and listing follow that order. */
module State {
  import opened Base
  import opened Json
  import opened Events

  /** One stored entry; every write replaces the whole entry. */
  datatype Entry = Entry(key: string, value: Json, updatedAt: int, expiresAt: Option<int>)
  {
    /** Logically absent at `now`: an expiry is set and has been reached. */
    predicate ExpiredAt(now: int)
    {
      expiresAt.Some? && expiresAt.value <= now
    }

    /** The dictionary form, which is also the `state.changed` payload. */
    function ToObject(): (r: Object)
      ensures r.Keys == {"key", "value", "updated_at", "expires_at"}
      ensures r["key"] == JStr(key) && r["value"] == value
      ensures r["expires_at"].JNull? <==> expiresAt.None?
    {
      map[
        "key" := JStr(key),
        "value" := value,
        "updated_at" := JInt(updatedAt),
        "expires_at" := if expiresAt.Some? then JInt(expiresAt.value) else JNull
      ]
    }
  }

  /** The entry `set_state` writes at time `now`. */
  function NewEntry(key: string, value: Json, now: int, ttl: Option<int>): (e: Entry)
    ensures e.key == key && e.value == value && e.updatedAt == now
    ensures ttl.None? ==> forall t :: !e.ExpiredAt(t)
    ensures ttl.Some? ==> forall t :: e.ExpiredAt(t) <==> now + ttl.value <= t
  {
    Entry(key, value, now, if ttl.Some? then Some(now + ttl.value) else None)
  }

  /** What remains after purging at `now`: exactly the entries not expired. */
  function Live(m: map<string, Entry>, now: int): (r: map<string, Entry>)
    ensures r.Keys <= m.Keys
    ensures forall k :: k in r ==> r[k] == m[k] && !r[k].ExpiredAt(now)
    ensures forall k :: k in m && !m[k].ExpiredAt(now) ==> k in r
    ensures forall k :: k in m && m[k].expiresAt.None? ==> k in r
  {
    map k | k in m && !m[k].ExpiredAt(now) :: m[k]
  }

  /** The keys a purge at `now` removes. */
  function ExpiredKeys(m: map<string, Entry>, now: int): (r: set<string>)
    ensures forall k :: k in r <==> k in m && k !in Live(m, now)
  {
    set k | k in m && m[k].ExpiredAt(now)
  }

  /** No repeated element. */
  predicate Distinct<T(==)>(s: seq<T>)
  {
    forall i, j :: 0 <= i < j < |s| ==> s[i] != s[j]
  }

  /** The elements of `s` not in `drop`, in their order. */
  function Keep(s: seq<string>, drop: set<string>): (r: seq<string>)
    ensures forall k :: k in r <==> k in s && k !in drop
    decreases |s|
  {
    if s == [] then []
    else
      var init := Keep(s[..|s| - 1], drop);
      var last := s[|s| - 1];
      assert forall k :: k in s <==> k in s[..|s| - 1] || k == last;
      if last in drop then init else init + [last]
  }

  /** The elements of `s` in `pick`, in their order. */
  function Only(s: seq<string>, pick: set<string>): (r: seq<string>)
    ensures forall k :: k in r <==> k in s && k in pick
    decreases |s|
  {
    if s == [] then []
    else
      var init := Only(s[..|s| - 1], pick);
      var last := s[|s| - 1];
      assert forall k :: k in s <==> k in s[..|s| - 1] || k == last;
      if last in pick then init + [last] else init
  }

  lemma {:induction false} KeepDistinct(s: seq<string>, drop: set<string>)
    requires Distinct(s)
    ensures Distinct(Keep(s, drop))
    decreases |s|
  {
    if s != [] {
      var init := s[..|s| - 1];
      KeepDistinct(init, drop);
      assert s[|s| - 1] !in init;
    }
  }

  lemma {:induction false} OnlyDistinct(s: seq<string>, pick: set<string>)
    requires Distinct(s)
    ensures Distinct(Only(s, pick))
    decreases |s|
  {
    if s != [] {
      var init := s[..|s| - 1];
      OnlyDistinct(init, pick);
      assert s[|s| - 1] !in init;
    }
  }

  /** Dropping two sets one after the other is dropping their union. */
  lemma {:induction false} KeepTwice(s: seq<string>, a: set<string>, b: set<string>)
    ensures Keep(Keep(s, a), b) == Keep(s, a + b)
    decreases |s|
  {
    if s != [] {
      var init := s[..|s| - 1];
      KeepTwice(init, a, b);
      var last := s[|s| - 1];
      if last !in a {
        assert Keep(s, a) == Keep(init, a) + [last];
        assert (Keep(init, a) + [last])[..|Keep(init, a) + [last]| - 1] == Keep(init, a);
      }
    }
  }

  /** The attribution `set_state` and `clear_state` use when the caller gives none. */
  function StateSource(key: string, source: Option<Source>): (s: Source)
    ensures source.None? ==> s == Source("state", key)
    ensures source.Some? ==> s == source.value
  {
    if source.Some? then source.value else Source("state", key)
  }

  function ChangedEvent(entry: Entry, source: Option<Source>, now: int): (e: Envelope)
    ensures e.eventType == "state.changed" && e.payload == entry.ToObject()
    ensures e.source == StateSource(entry.key, source) && e.version == "1.0"
  {
    BuildEvent("state.changed", StateSource(entry.key, source), now, Some(entry.ToObject()))
  }

  function ClearedEvent(key: string, source: Option<Source>, now: int): (e: Envelope)
    ensures e.eventType == "state.cleared" && e.payload == map["key" := JStr(key)]
    ensures e.source == StateSource(key, source) && e.version == "1.0"
  {
    BuildEvent("state.cleared", StateSource(key, source), now, Some(map["key" := JStr(key)]))
  }

  /** The notifications a purge schedules, one per purged key, in purge order. */
  function PurgeNotices(keys: seq<string>, now: int): (r: seq<Envelope>)
    ensures |r| == |keys|
    ensures forall i :: 0 <= i < |keys| ==> r[i] == ClearedEvent(keys[i], None, now)
    decreases |keys|
  {
    if keys == [] then [] else PurgeNotices(keys[..|keys| - 1], now) + [ClearedEvent(keys[|keys| - 1], None, now)]
  }

  /** The store's state: the dictionary, its key order, and the `state.cleared`
      envelopes that purges handed to `asyncio.create_task` and that have not
      been emitted yet. */
  datatype StoreView = StoreView(entries: map<string, Entry>, order: seq<string>, queued: seq<Envelope>)
  {
    /** Every entry sits under its own key, and `order` lists each key once. */
    predicate Valid()
    {
      && Distinct(order)
      && (forall k :: k in order ==> k in entries)
      && (forall k :: k in entries ==> k in order)
      && (forall k :: k in entries ==> entries[k].key == k)
    }
  }

  const EmptyStore: StoreView := StoreView(map[], [], [])

  /** `self._state[key] = entry`. */
  function Write(v: StoreView, entry: Entry): (w: StoreView)
    ensures v.Valid() ==> w.Valid()
    ensures w.entries.Keys == v.entries.Keys + {entry.key} && w.entries[entry.key] == entry
    ensures forall k :: k in v.entries && k != entry.key ==> w.entries[k] == v.entries[k]
    ensures entry.key in v.entries ==> w.order == v.order
    ensures entry.key !in v.entries ==> w.order == v.order + [entry.key]
    ensures w.queued == v.queued
  {
    StoreView(v.entries[entry.key := entry], if entry.key in v.entries then v.order else v.order + [entry.key], v.queued)
  }

  /** `del self._state[key]`, when present. */
  function Erase(v: StoreView, key: string): (w: StoreView)
    ensures v.Valid() ==> w.Valid()
    ensures w.entries.Keys == v.entries.Keys - {key}
    ensures forall k :: k in w.entries ==> w.entries[k] == v.entries[k]
    ensures forall k :: k in w.order <==> k in v.order && k != key
    ensures w.queued == v.queued
  {
    if Distinct(v.order) then KeepDistinct(v.order, {key}); StoreView(v.entries - {key}, Keep(v.order, {key}), v.queued)
    else StoreView(v.entries - {key}, Keep(v.order, {key}), v.queued)
  }

  /** `_purge_expired` at `ctx.now`: the expired keys, in dictionary order. */
  function PurgedKeys(v: StoreView, now: int): (r: seq<string>)
    ensures forall k :: k in r <==> k in v.order && k in ExpiredKeys(v.entries, now)
    ensures Distinct(v.order) ==> Distinct(r)
  {
    if Distinct(v.order) then OnlyDistinct(v.order, ExpiredKeys(v.entries, now)); Only(v.order, ExpiredKeys(v.entries, now))
    else Only(v.order, ExpiredKeys(v.entries, now))
  }

  /** The store after `_purge_expired` at `ctx.now`: the expired entries are
      gone, and one `state.cleared` per purged key is queued, in purge order,
      when an event loop is running. */
  function Purge(v: StoreView, ctx: Ctx): (w: StoreView)
    ensures v.Valid() ==> w.Valid()
    ensures w.entries == Live(v.entries, ctx.now)
    ensures forall k :: k in w.order <==> k in v.order && k !in ExpiredKeys(v.entries, ctx.now)
    ensures w.queued == v.queued + (if ctx.loopRunning then PurgeNotices(PurgedKeys(v, ctx.now), ctx.now) else [])
  {
    var w := StoreView(Live(v.entries, ctx.now), Keep(v.order, ExpiredKeys(v.entries, ctx.now)),
                       v.queued + (if ctx.loopRunning then PurgeNotices(PurgedKeys(v, ctx.now), ctx.now) else []));
    if Distinct(v.order) then KeepDistinct(v.order, ExpiredKeys(v.entries, ctx.now)); w else w
  }

  /** The entries listed in key order. */
  function ValuesOf(order: seq<string>, m: map<string, Entry>): (r: seq<Entry>)
    requires forall k :: k in order ==> k in m
    ensures |r| == |order|
    ensures forall i :: 0 <= i < |order| ==> r[i] == m[order[i]]
    decreases |order|
  {
    if order == [] then [] else ValuesOf(order[..|order| - 1], m) + [m[order[|order| - 1]]]
  }

  /** What a handler holding the store can observe and change: the store
      and the bus it emits on. */
  datatype Backend = Backend(store: StoreView, bus: BusView)

  /** The effect of `set_state`. */
  function SetStateT(b: Backend, key: string, value: Json, ttl: Option<int>, source: Option<Source>, ctx: Ctx): (c: Backend)
    ensures b.store.Valid() ==> c.store.Valid()
    ensures c.store.entries == b.store.entries[key := NewEntry(key, value, ctx.now, ttl)]
    ensures c.store.queued == b.store.queued
    ensures key in b.store.entries ==> c.store.order == b.store.order
    ensures key !in b.store.entries ==> c.store.order == b.store.order + [key]
    ensures c.bus == Deliver(b.bus, ChangedEvent(NewEntry(key, value, ctx.now, ttl), source, ctx.now).ToObject(), ctx.failing)
  {
    var entry := NewEntry(key, value, ctx.now, ttl);
    Backend(Write(b.store, entry), Deliver(b.bus, ChangedEvent(entry, source, ctx.now).ToObject(), ctx.failing))
  }

  /** What `get_state` returns, read against the store before its purge:
      the entry under `key` unless it is missing or expired at `now`. */
  function Read(v: StoreView, key: string, now: int): (r: Option<Entry>)
    ensures r.Some? <==> key in Live(v.entries, now)
    ensures r.Some? ==> r.value == v.entries[key] && !r.value.ExpiredAt(now)
  {
    if key in v.entries && !v.entries[key].ExpiredAt(now) then Some(v.entries[key]) else None
  }

  /** A handler's effect on its backend, and whether it raised. */
  datatype Handled = Handled(backend: Backend, outcome: Outcome<Error>)

  /** The effect of emitting one envelope on the bus. */
  function EmitT(b: Backend, e: Envelope, ctx: Ctx): (c: Backend)
    ensures c.store == b.store
    ensures c.bus == Deliver(b.bus, e.ToObject(), ctx.failing)
  {
    b.(bus := Deliver(b.bus, e.ToObject(), ctx.failing))
  }

  /** `StateStore`. */
  class StateStore {
    const bus: EventBus
    var entries: map<string, Entry>
    var order: seq<string>
    var queued: seq<Envelope>

    function View(): StoreView
      reads this
    {
      StoreView(entries, order, queued)
    }

    predicate Valid()
      reads this
    {
      View().Valid()
    }

    function BackendOf(): Backend
      reads this, bus
    {
      Backend(View(), bus.View())
    }

    constructor(bus: EventBus)
      ensures this.bus == bus && View() == EmptyStore && Valid()
    {
      this.bus := bus;
      entries := map[];
      order := [];
      queued := [];
    }

    /** `set_state`: replace the whole entry, then emit one `state.changed`
        whose payload is that entry. */
    method SetState(key: string, value: Json, ttl: Option<int>, source: Option<Source>, ctx: Ctx)
      requires Valid()
      modifies this, bus
      ensures Valid()
      ensures View() == Write(old(View()), NewEntry(key, value, ctx.now, ttl))
      ensures bus.View() == Deliver(old(bus.View()),
                                    ChangedEvent(NewEntry(key, value, ctx.now, ttl), source, ctx.now).ToObject(),
                                    ctx.failing)
    {
      var entry := NewEntry(key, value, ctx.now, ttl);
      if key !in entries {
        order := order + [key];
      }
      entries := entries[key := entry];
      var _ := bus.Emit(ChangedEvent(entry, source, ctx.now).ToObject(), ctx.failing);
    }

    /** `clear_state`: drop the key if present, and emit `state.cleared` either way. */
    method ClearState(key: string, source: Option<Source>, ctx: Ctx)
      requires Valid()
      modifies this, bus
      ensures Valid()
      ensures View() == Erase(old(View()), key)
      ensures bus.View() == Deliver(old(bus.View()), ClearedEvent(key, source, ctx.now).ToObject(), ctx.failing)
    {
      if key in entries {
        Delete(key);
      }
      assert key !in order ==> Keep(order, {key}) == order by {
        KeepNothing(order, {key});
      }
      var _ := bus.Emit(ClearedEvent(key, source, ctx.now).ToObject(), ctx.failing);
    }

    /** `del self._state[key]`. */
    method Delete(key: string)
      modifies this
      ensures View() == Erase(old(View()), key)
    {
      entries := entries - {key};
      order := Keep(order, {key});
    }

    /** `_purge_expired`: collect the expired keys in dictionary order, then
        delete each one and schedule its `state.cleared`; without a running
        loop the notice is dropped. The purge never fails and never waits on
        the bus. */
    method PurgeExpired(ctx: Ctx) returns (expired: seq<string>)
      requires Valid()
      modifies this
      ensures Valid()
      ensures expired == PurgedKeys(old(View()), ctx.now)
      ensures View() == Purge(old(View()), ctx)
    {
      expired := ExpiredInOrder(ctx.now);
      DiscardAll(expired, ctx);
      assert KeySet(expired) == ExpiredKeys(old(entries), ctx.now);
      assert Drop(old(entries), ExpiredKeys(old(entries), ctx.now)) == Live(old(entries), ctx.now);
      assert View() == Purge(old(View()), ctx);
    }

    /** The loop of `_purge_expired`: discard each listed key in turn. */
    method DiscardAll(keys: seq<string>, ctx: Ctx)
      modifies this
      ensures entries == Drop(old(entries), KeySet(keys))
      ensures order == Keep(old(order), KeySet(keys))
      ensures queued == old(queued) + (if ctx.loopRunning then PurgeNotices(keys, ctx.now) else [])
    {
      ghost var gone: set<string> := {};
      ghost var done: seq<string> := [];
      KeepNothing(order, gone);
      assert Drop(entries, gone) == entries;
      var rest := keys;
      while rest != []
        invariant done + rest == keys
        invariant gone == KeySet(done)
        invariant entries == Drop(old(entries), gone)
        invariant order == Keep(old(order), gone)
        invariant queued == old(queued) + (if ctx.loopRunning then PurgeNotices(done, ctx.now) else [])
        decreases |rest|
      {
        var key := rest[0];
        KeepTwice(old(order), gone, {key});
        DropTwice(old(entries), gone, {key});
        entries := entries - {key};
        order := Keep(order, {key});
        if ctx.loopRunning {
          queued := queued + [ClearedEvent(key, None, ctx.now)];
        }
        NoticesSnoc(done, key, ctx.now);
        done, rest := done + [key], rest[1..];
        gone := gone + {key};
      }
      assert done == keys by {
        assert done + rest == done;
      }
    }

    /** The list comprehension of `_purge_expired`. */
    method ExpiredInOrder(now: int) returns (expired: seq<string>)
      requires Valid()
      ensures expired == PurgedKeys(View(), now)
    {
      expired := [];
      for i := 0 to |order|
        invariant expired == Only(order[..i], ExpiredKeys(entries, now))
      {
        assert order[..i + 1][..i] == order[..i];
        if entries[order[i]].ExpiredAt(now) {
          expired := expired + [order[i]];
        }
      }
      assert order[..|order|] == order;
    }

    /** `get_state`: purge, then look the key up. */
    method GetState(key: string, ctx: Ctx) returns (r: Option<Entry>)
      requires Valid()
      modifies this
      ensures Valid()
      ensures View() == Purge(old(View()), ctx)
      ensures r == Read(old(View()), key, ctx.now)
      ensures r.Some? ==> r.value.key == key
    {
      var _ := PurgeExpired(ctx);
      r := if key in entries then Some(entries[key]) else None;
    }

    /** `list_state`: purge, then the remaining entries in dictionary order. */
    method ListState(ctx: Ctx) returns (r: seq<Entry>)
      requires Valid()
      modifies this
      ensures Valid()
      ensures View() == Purge(old(View()), ctx)
      ensures r == ValuesOf(order, entries)
    {
      var _ := PurgeExpired(ctx);
      r := ValuesOf(order, entries);
    }

    /** The event loop running the oldest task a purge created: emit its notice. */
    method RunScheduledNotice(ctx: Ctx)
      requires Valid()
      modifies this, bus
      ensures Valid()
      ensures entries == old(entries) && order == old(order)
      ensures old(queued) == [] ==> queued == [] && bus.View() == old(bus.View())
      ensures old(queued) != [] ==>
                queued == old(queued)[1..] &&
                bus.View() == Deliver(old(bus.View()), old(queued)[0].ToObject(), ctx.failing)
    {
      if queued != [] {
        var notice := queued[0];
        queued := queued[1..];
        var _ := bus.Emit(notice.ToObject(), ctx.failing);
      }
    }
  }

  /** The map without the keys in `gone`. */
  function Drop(m: map<string, Entry>, gone: set<string>): (r: map<string, Entry>)
    ensures forall k :: k in r <==> k in m && k !in gone
    ensures forall k :: k in r ==> r[k] == m[k]
  {
    map k | k in m && k !in gone :: m[k]
  }

  lemma DropTwice(m: map<string, Entry>, a: set<string>, b: set<string>)
    ensures Drop(m, a) - b == Drop(m, a + b)
  {
  }

  /** The elements of a sequence, as a set. */
  function KeySet(keys: seq<string>): (r: set<string>)
    ensures forall k :: k in r <==> k in keys
  {
    set k | k in keys
  }

  lemma NoticesSnoc(keys: seq<string>, key: string, now: int)
    ensures PurgeNotices(keys + [key], now) == PurgeNotices(keys, now) + [ClearedEvent(key, None, now)]
  {
    assert (keys + [key])[..|keys|] == keys;
  }

  lemma {:induction false} KeepNothing(s: seq<string>, drop: set<string>)
    requires forall k :: k in s ==> k !in drop
    ensures Keep(s, drop) == s
    decreases |s|
  {
    if s != [] {
      var init, last := s[..|s| - 1], s[|s| - 1];
      assert last in s;
      KeepNothing(init, drop);
      assert s == init + [last];
    }
  }

  /** With no ttl, a read at any later time finds the value just written. */
  lemma ReadYourWrite(v: StoreView, key: string, value: Json, now: int, ctx: Ctx)
    ensures var w := Purge(Write(v, NewEntry(key, value, now, None)), ctx);
            key in w.entries && w.entries[key].value == value
  {
  }

  /** With a ttl, a read at or after `now + ttl` finds the key absent. */
  lemma ExpiredIsAbsent(v: StoreView, key: string, value: Json, now: int, ttl: int, ctx: Ctx)
    requires now + ttl <= ctx.now
    ensures key !in Purge(Write(v, NewEntry(key, value, now, Some(ttl))), ctx).entries
  {
  }

  /** Writing or clearing one key leaves every other key's entry as it was. */
  lemma OtherKeysUntouched(v: StoreView, e: Entry, key: string, other: string)
    requires other != e.key && other != key
    ensures (other in Write(v, e).entries) == (other in v.entries) == (other in Erase(v, key).entries)
    ensures other in v.entries ==> Write(v, e).entries[other] == v.entries[other] == Erase(v, key).entries[other]
  {
  }

  /** Every listed entry is live at the read time and sits under its own key,
      each key once. */
  lemma ListedEntriesAreLive(v: StoreView, ctx: Ctx)
    requires v.Valid()
    ensures var w := Purge(v, ctx);
            forall i :: 0 <= i < |w.order| ==>
              var e := ValuesOf(w.order, w.entries)[i];
              !e.ExpiredAt(ctx.now) && e.key == w.order[i] && e == v.entries[e.key]
    ensures Distinct(Purge(v, ctx).order) && |Purge(v, ctx).order| == |Purge(v, ctx).entries|
  {
    var w := Purge(v, ctx);
    DistinctCovers(w.order, w.entries.Keys);
  }

  /** A repetition-free listing of a set has the set's size. */
  lemma {:induction false} DistinctCovers(s: seq<string>, keys: set<string>)
    requires Distinct(s) && forall k :: k in s <==> k in keys
    ensures |s| == |keys|
    decreases |s|
  {
    if s != [] {
      var last := s[|s| - 1];
      assert forall k :: k in s[..|s| - 1] <==> k in keys - {last} by {
        forall k ensures k in s[..|s| - 1] <==> k in keys - {last} {
          if k in s[..|s| - 1] {
            var j :| 0 <= j < |s| - 1 && s[j] == k;
            assert s[j] != s[|s| - 1];
          }
          if k in keys - {last} {
            var j :| 0 <= j < |s| && s[j] == k;
            assert j != |s| - 1;
            assert s[..|s| - 1][j] == k;
          }
        }
      }
      DistinctCovers(s[..|s| - 1], keys - {last});
    }
  }

  /** Purging twice is purging once, and a later purge subsumes an earlier one. */
  lemma PurgeMonotone(m: map<string, Entry>, t1: int, t2: int)
    requires t1 <= t2
    ensures Live(Live(m, t1), t2) == Live(m, t2)
  {
  }
}
