/** The Stream Deck adapter (src/deckhand/clients/streamdeck/adapter.py): the
    bindings of a deck, one per key. */
module Adapter {
  import opened Base
  import opened Bindings

  class StreamDeckAdapter {
    /** `_bindings`: key -> binding. */
    var bindings: map<string, ButtonBinding>

    /** Every binding is stored under its own key. */
    ghost predicate Valid()
      reads this
    {
      forall k :: k in bindings ==> bindings[k].key == k
    }

    /** `__init__`: no bindings, then the given ones loaded (an absent or
        empty collection loads nothing). */
    constructor(initial: seq<ButtonBinding>)
      ensures Valid()
      ensures bindings == Keyed(map[], initial, BindingKey)
    {
      bindings := map[];
      new;
      if initial != [] {
        LoadBindings(initial);
      }
    }

    /** `load_bindings`: each binding in turn is stored under its key, so a
        later binding replaces an earlier one with the same key, and keys not
        in the batch keep their bindings (see Bindings.KeyedLastWins). */
    method LoadBindings(batch: seq<ButtonBinding>)
      requires Valid()
      modifies this
      ensures Valid()
      ensures bindings == Keyed(old(bindings), batch, BindingKey)
    {
      var i := 0;
      while i < |batch|
        invariant 0 <= i <= |batch|
        invariant bindings == Keyed(old(bindings), batch[..i], BindingKey)
      {
        assert batch[..i + 1][..i] == batch[..i];
        bindings := bindings[batch[i].key := batch[i]];
        i := i + 1;
      }
      assert batch[..|batch|] == batch;
      KeyedSelfKeyed(old(bindings), batch, BindingKey);
    }

    /** `resolve_action`: the binding stored under the key, or None. */
    function ResolveAction(key: string): (r: Option<ButtonBinding>)
      requires Valid()
      reads this
      ensures r.Some? <==> key in bindings
      ensures r.Some? ==> r.value == bindings[key] && r.value.key == key
    {
      if key in bindings then Some(bindings[key]) else None
    }

    /** `iter_bindings`: the stored bindings, exactly one per stored key. */
    function IterBindings(): (r: set<ButtonBinding>)
      requires Valid()
      reads this
      ensures forall b :: b in r <==> b.key in bindings && bindings[b.key] == b
    {
      bindings.Values
    }
  }

  /** A deck loaded with the default bindings resolves both default keys. */
  lemma DefaultDeck()
    ensures var deck := Keyed(map[], DefaultBindings, BindingKey);
            && deck.Keys == {"front-door", "mock-1-start"}
            && deck["front-door"].action == "ui.open_url"
            && deck["front-door"].indicatorKey == Some("camera.front_door.motion")
            && deck["mock-1-start"].action == "agent.start"
            && deck["mock-1-start"].indicatorKey == None
  {
    var d := DefaultBindings;
    assert d[..|d| - 1][..0] == [];
    assert "front-door" != "mock-1-start" by { assert "front-door"[0] != "mock-1-start"[0]; }
  }
}
