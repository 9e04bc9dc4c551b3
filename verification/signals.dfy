/** The signal registry (src/deckhand/orchestrator/signals.py): named inbound
    signals, their metadata and the dispatch of `handle`. The known signal
    handlers are the plugin ones, each bound to the state store it was
    registered with. */
module Signals {
  import opened Base
  import opened Json
  import opened Events
  import opened State
  import opened Catalogs
  import BuiltinPlugin
  import LightsPlugin

  datatype SignalHandler =
    | CameraMotion(store: StateStore)
    | LightsStatusWebhook(store: StateStore)

  /** The effect of a signal handler on its store and that store's bus. */
  function SignalT(h: SignalHandler, payload: Object, b: Backend, ctx: Ctx): (r: Handled)
    ensures b.store.Valid() ==> r.backend.store.Valid()
  {
    match h
    case CameraMotion(_) => BuiltinPlugin.CameraMotionT(payload, b, ctx)
    case LightsStatusWebhook(_) => LightsPlugin.WebhookT(payload, b, ctx)
  }

  /** Run a signal's handler. */
  method RunSignal(h: SignalHandler, payload: Object, ctx: Ctx) returns (r: Outcome<Error>)
    requires h.store.Valid()
    modifies h.store, h.store.bus
    ensures h.store.Valid()
    ensures Handled(h.store.BackendOf(), r) == SignalT(h, payload, old(h.store.BackendOf()), ctx)
  {
    match h
    case CameraMotion(store) => r := BuiltinPlugin.CameraMotion(store, payload, ctx);
    case LightsStatusWebhook(store) => r := LightsPlugin.Webhook(store, payload, ctx);
  }

  class SignalRegistry {
    var signals: map<string, SignalHandler>
    var metadata: map<string, Metadata>

    function View(): Catalog<SignalHandler>
      reads this
    {
      Catalog(signals, metadata)
    }

    predicate Valid()
      reads this
    {
      View().Valid()
    }

    /** A new registry has no signals. */
    constructor()
      ensures Valid() && View() == Empty()
    {
      signals := map[];
      metadata := map[];
    }

    /** `register`: handler and metadata both replace the name's old ones. */
    method Register(name: string, h: SignalHandler, description: string, schema: Option<Object>)
      requires Valid()
      modifies this
      ensures Valid()
      ensures View() == Registered(old(View()), name, h, description, schema)
    {
      signals := signals[name := h];
      metadata := metadata[name := Metadata(name, description, SchemaOrEmpty(schema))];
    }

    /** `handle`: an unknown name is a KeyError and runs nothing; otherwise
        the handler gets the payload unchanged and its error is the result. */
    method Handle(name: string, payload: Object, ctx: Ctx) returns (r: Outcome<Error>)
      requires Valid()
      requires name in signals ==> signals[name].store.Valid()
      modifies if name in signals then {signals[name].store, signals[name].store.bus} else {}
      ensures Valid() && View() == old(View())
      ensures name in signals ==> signals[name].store.Valid()
      ensures name !in signals ==> r == Fail(NotFound(name))
      ensures name in signals ==>
                Handled(signals[name].store.BackendOf(), r) ==
                SignalT(signals[name], payload, old(signals[name].store.BackendOf()), ctx)
    {
      if name !in signals {
        return Fail(NotFound(name));
      }
      var h := signals[name];
      r := RunSignal(h, payload, ctx);
    }

    /** `list_signals`. */
    method ListSignals() returns (r: seq<Metadata>)
      requires Valid()
      ensures IsListing(View(), r)
    {
      r := Listing(View());
    }

    /** `get_signal_metadata`. */
    function GetSignalMetadata(name: string): (r: Option<Metadata>)
      requires Valid()
      reads this
      ensures r.Some? <==> name in signals
      ensures r.Some? ==> r.value == metadata[name] && r.value.name == name
    {
      Describe(View(), name)
    }
  }
}
