/** The action registry (src/deckhand/orchestrator/actions.py): named actions,
    their metadata, the three built-in agent actions and the dispatch of `run`.
    A handler is one of the known handlers: the built-in agent actions, which
    call the orchestrator, and the plugin actions, which act on the state
    store they were registered with and on that store's bus. */
module Actions {
  import opened Base
  import opened Json
  import opened Events
  import opened State
  import opened AgentBase
  import opened MockAgents
  import opened Manager
  import opened Strings
  import opened Catalogs
  import BuiltinPlugin
  import LightsPlugin

  datatype ActionHandler =
    | AgentStart
    | AgentCancel
    | AgentInput
    | OpenUrl(store: StateStore)
    | TurnOnLights(store: StateStore)
    | TurnOffLights(store: StateStore)
    | SetBrightness(store: StateStore)
  {
    /** A plugin handler, bound to a state store. */
    predicate OnStore()
    {
      !(AgentStart? || AgentCancel? || AgentInput?)
    }
  }

  /** The agent id the built-in actions require: `str(agent_id)`, or
      "agent_id is required" when it is missing or falsy. */
  function AgentIdArg(payload: Object): (r: Result<string, Error>)
    ensures r.Err? <==> !Truthy(Get(payload, "agent_id"))
    ensures r.Err? ==> r.error == Invalid("agent_id is required")
    ensures r.Ok? ==> r.value == Str(payload["agent_id"])
  {
    var id := Get(payload, "agent_id");
    if !Truthy(id) then Err(Invalid("agent_id is required")) else Ok(Str(id))
  }

  /** `agent.start`: the payload is checked before the orchestrator is called. */
  function StartActionW(w: World, payload: Object): (r: Routed)
    ensures !Truthy(Get(payload, "agent_id")) ==> r == Routed(w, Fail(Invalid("agent_id is required")))
    ensures Truthy(Get(payload, "agent_id")) ==> r == StartAgentW(w, Str(payload["agent_id"]))
  {
    match AgentIdArg(payload)
    case Err(e) => Routed(w, Fail(e))
    case Ok(id) => StartAgentW(w, id)
  }

  /** `agent.cancel`. */
  function CancelActionW(w: World, payload: Object, ctx: Ctx): (r: Routed)
    ensures !Truthy(Get(payload, "agent_id")) ==> r == Routed(w, Fail(Invalid("agent_id is required")))
    ensures Truthy(Get(payload, "agent_id")) ==> r == CancelAgentW(w, Str(payload["agent_id"]), ctx)
  {
    match AgentIdArg(payload)
    case Err(e) => Routed(w, Fail(e))
    case Ok(id) => CancelAgentW(w, id, ctx)
  }

  /** `agent.input`: the agent id is checked first; then only a missing (or
      null) text is refused, so the empty text is passed on. */
  function InputActionW(w: World, payload: Object, ctx: Ctx): (r: Routed)
    ensures !Truthy(Get(payload, "agent_id")) ==> r == Routed(w, Fail(Invalid("agent_id is required")))
    ensures Truthy(Get(payload, "agent_id")) && Get(payload, "text") == JNull ==>
              r == Routed(w, Fail(Invalid("text is required")))
    ensures Truthy(Get(payload, "agent_id")) && Get(payload, "text") != JNull ==>
              r == ProvideInputW(w, Str(payload["agent_id"]), Str(payload["text"]), ctx)
  {
    match AgentIdArg(payload)
    case Err(e) => Routed(w, Fail(e))
    case Ok(id) =>
      var text := Get(payload, "text");
      if text == JNull then Routed(w, Fail(Invalid("text is required")))
      else ProvideInputW(w, id, Str(text), ctx)
  }

  /** A well-formed agent id naming no agent is refused by the orchestrator
      with not-found, and no agent and no envelope is touched. */
  lemma UnknownAgentActions(w: World, payload: Object, ctx: Ctx)
    requires Truthy(Get(payload, "agent_id")) && Str(payload["agent_id"]) !in w.agents
    ensures var missing := Routed(w, Fail(NotFound(Str(payload["agent_id"]))));
            && StartActionW(w, payload) == missing
            && CancelActionW(w, payload, ctx) == missing
            && (Get(payload, "text") != JNull ==> InputActionW(w, payload, ctx) == missing)
  {
  }

  /** The empty text reaches the agent as input. */
  lemma EmptyInputAccepted(w: World, payload: Object, ctx: Ctx)
    requires Truthy(Get(payload, "agent_id")) && Get(payload, "text") == JStr("")
    requires Str(payload["agent_id"]) in w.agents
    requires w.agents[Str(payload["agent_id"])].status == AwaitingInput
    ensures var id := Str(payload["agent_id"]);
            var r := InputActionW(w, payload, ctx);
            r.outcome == Pass && r.world.agents[id].input == Some("")
  {
  }

  /** The effect of a plugin action on its store and that store's bus. */
  function PluginT(h: ActionHandler, payload: Object, b: Backend, ctx: Ctx): (r: Handled)
    requires h.OnStore()
    ensures b.store.Valid() ==> r.backend.store.Valid()
  {
    match h
    case OpenUrl(_) => BuiltinPlugin.OpenUrlT(payload, b, ctx)
    case TurnOnLights(_) => LightsPlugin.TurnOnT(payload, b, ctx)
    case TurnOffLights(_) => LightsPlugin.TurnOffT(payload, b, ctx)
    case SetBrightness(_) => LightsPlugin.SetBrightnessT(payload, b, ctx)
  }

  /** Run a plugin action's handler. */
  method RunOnStore(h: ActionHandler, payload: Object, ctx: Ctx) returns (r: Outcome<Error>)
    requires h.OnStore() && h.store.Valid()
    modifies h.store, h.store.bus
    ensures h.store.Valid()
    ensures Handled(h.store.BackendOf(), r) == PluginT(h, payload, old(h.store.BackendOf()), ctx)
  {
    match h
    case OpenUrl(store) => r := BuiltinPlugin.OpenUrl(store, payload, ctx);
    case TurnOnLights(store) => r := LightsPlugin.TurnOn(store, payload, ctx);
    case TurnOffLights(store) => r := LightsPlugin.TurnOff(store, payload, ctx);
    case SetBrightness(store) => r := LightsPlugin.SetBrightness(store, payload, ctx);
  }

  const AgentIdSchema: Object :=
    map["agent_id" := JObj(map["type" := JStr("string"), "required" := JBool(true)])]
  const InputSchema: Object :=
    map["agent_id" := JObj(map["type" := JStr("string"), "required" := JBool(true)]),
        "text" := JObj(map["type" := JStr("string"), "required" := JBool(true)])]

  /** The tables `_register_defaults` leaves in a new registry. */
  function DefaultActions(): (c: Catalog<ActionHandler>)
    ensures c.Valid()
  {
    var c1 := Registered(Empty(), "agent.start", AgentStart, "Start an agent by ID", Some(AgentIdSchema));
    var c2 := Registered(c1, "agent.cancel", AgentCancel, "Cancel a running agent by ID", Some(AgentIdSchema));
    Registered(c2, "agent.input", AgentInput, "Provide input text to an agent", Some(InputSchema))
  }

  /** A new registry holds exactly the three agent actions, each with its
      description and schema. */
  lemma DefaultActionsHeld()
    ensures var c := DefaultActions();
            && c.handlers.Keys == {"agent.start", "agent.cancel", "agent.input"}
            && Lookup(c, "agent.start") == Some(AgentStart)
            && Lookup(c, "agent.cancel") == Some(AgentCancel)
            && Lookup(c, "agent.input") == Some(AgentInput)
            && Describe(c, "agent.start") == Some(Metadata("agent.start", "Start an agent by ID", AgentIdSchema))
            && Describe(c, "agent.cancel") == Some(Metadata("agent.cancel", "Cancel a running agent by ID", AgentIdSchema))
            && Describe(c, "agent.input") == Some(Metadata("agent.input", "Provide input text to an agent", InputSchema))
  {
  }

  class ActionRegistry {
    const orchestrator: Orchestrator
    var actions: map<string, ActionHandler>
    var metadata: map<string, Metadata>

    function View(): Catalog<ActionHandler>
      reads this
    {
      Catalog(actions, metadata)
    }

    predicate Valid()
      reads this
    {
      View().Valid()
    }

    /** What running the handler registered under `name` may change. */
    function Frame(h: ActionHandler): set<object>
      reads this, orchestrator
    {
      if h.OnStore() then {h.store, h.store.bus}
      else
        var agents: set<object> := orchestrator.agents.Values;
        agents + {orchestrator.bus}
    }

    constructor(orchestrator: Orchestrator)
      ensures Valid() && this.orchestrator == orchestrator
      ensures View() == DefaultActions()
    {
      this.orchestrator := orchestrator;
      actions := map[];
      metadata := map[];
      new;
      RegisterDefaults();
    }

    /** `_register_defaults`. */
    method RegisterDefaults()
      requires Valid() && View() == Empty()
      modifies this
      ensures Valid() && View() == DefaultActions()
    {
      Register("agent.start", AgentStart, "Start an agent by ID", Some(AgentIdSchema));
      Register("agent.cancel", AgentCancel, "Cancel a running agent by ID", Some(AgentIdSchema));
      Register("agent.input", AgentInput, "Provide input text to an agent", Some(InputSchema));
    }

    /** `register`: handler and metadata both replace the name's old ones. */
    method Register(name: string, h: ActionHandler, description: string, schema: Option<Object>)
      requires Valid()
      modifies this
      ensures Valid()
      ensures View() == Registered(old(View()), name, h, description, schema)
    {
      actions := actions[name := h];
      metadata := metadata[name := Metadata(name, description, SchemaOrEmpty(schema))];
    }

    /** `run`: an unknown name is a KeyError and runs nothing; otherwise the
        handler gets the payload unchanged and its error is the result. */
    method Run(name: string, payload: Object, ctx: Ctx) returns (r: Outcome<Error>)
      requires Valid() && orchestrator.Valid()
      requires name in actions && actions[name].OnStore() ==> actions[name].store.Valid()
      modifies if name in actions then Frame(actions[name]) else {}
      ensures Valid() && orchestrator.Valid() && View() == old(View())
      ensures name in actions && actions[name].OnStore() ==> actions[name].store.Valid()
      ensures name !in actions ==> r == Fail(NotFound(name))
      ensures name in actions && actions[name].AgentStart? ==>
                Routed(orchestrator.Snapshot(), r) == StartActionW(old(orchestrator.Snapshot()), payload)
      ensures name in actions && actions[name].AgentCancel? ==>
                Routed(orchestrator.Snapshot(), r) == CancelActionW(old(orchestrator.Snapshot()), payload, ctx)
      ensures name in actions && actions[name].AgentInput? ==>
                Routed(orchestrator.Snapshot(), r) == InputActionW(old(orchestrator.Snapshot()), payload, ctx)
      ensures name in actions && actions[name].OnStore() ==>
                Handled(actions[name].store.BackendOf(), r) ==
                PluginT(actions[name], payload, old(actions[name].store.BackendOf()), ctx)
    {
      if name !in actions {
        return Fail(NotFound(name));
      }
      var h := actions[name];
      if h.OnStore() {
        r := RunOnStore(h, payload, ctx);
      } else {
        r := RunAgentAction(h, payload, ctx);
      }
    }

    /** The dispatch of `run` to one of the three built-in agent actions. */
    method RunAgentAction(h: ActionHandler, payload: Object, ctx: Ctx) returns (r: Outcome<Error>)
      requires !h.OnStore() && orchestrator.Valid()
      modifies orchestrator.agents.Values, orchestrator.bus
      ensures orchestrator.Valid()
      ensures h.AgentStart? ==> Routed(orchestrator.Snapshot(), r) == StartActionW(old(orchestrator.Snapshot()), payload)
      ensures h.AgentCancel? ==> Routed(orchestrator.Snapshot(), r) == CancelActionW(old(orchestrator.Snapshot()), payload, ctx)
      ensures h.AgentInput? ==> Routed(orchestrator.Snapshot(), r) == InputActionW(old(orchestrator.Snapshot()), payload, ctx)
    {
      if h.AgentStart? {
        r := StartAction(payload);
      } else if h.AgentCancel? {
        r := CancelAction(payload, ctx);
      } else {
        r := InputAction(payload, ctx);
      }
    }

    method StartAction(payload: Object) returns (r: Outcome<Error>)
      requires orchestrator.Valid()
      modifies orchestrator.agents.Values
      ensures orchestrator.Valid()
      ensures Routed(orchestrator.Snapshot(), r) == StartActionW(old(orchestrator.Snapshot()), payload)
    {
      var id := AgentIdArg(payload);
      if id.Err? {
        return Fail(id.error);
      }
      r := orchestrator.StartAgent(id.value);
    }

    method CancelAction(payload: Object, ctx: Ctx) returns (r: Outcome<Error>)
      requires orchestrator.Valid()
      modifies orchestrator.agents.Values, orchestrator.bus
      ensures orchestrator.Valid()
      ensures Routed(orchestrator.Snapshot(), r) == CancelActionW(old(orchestrator.Snapshot()), payload, ctx)
    {
      var id := AgentIdArg(payload);
      if id.Err? {
        return Fail(id.error);
      }
      r := orchestrator.CancelAgent(id.value, ctx);
    }

    method InputAction(payload: Object, ctx: Ctx) returns (r: Outcome<Error>)
      requires orchestrator.Valid()
      modifies orchestrator.agents.Values, orchestrator.bus
      ensures orchestrator.Valid()
      ensures Routed(orchestrator.Snapshot(), r) == InputActionW(old(orchestrator.Snapshot()), payload, ctx)
    {
      var id := AgentIdArg(payload);
      if id.Err? {
        return Fail(id.error);
      }
      var text := Get(payload, "text");
      if text == JNull {
        return Fail(Invalid("text is required"));
      }
      r := orchestrator.ProvideInput(id.value, Str(text), ctx);
    }

    /** `list_actions`. */
    method ListActions() returns (r: seq<Metadata>)
      requires Valid()
      ensures IsListing(View(), r)
    {
      r := Listing(View());
    }

    /** `get_action_metadata`. */
    function GetActionMetadata(name: string): (r: Option<Metadata>)
      requires Valid()
      reads this
      ensures r.Some? <==> name in actions
      ensures r.Some? ==> r.value == metadata[name] && r.value.name == name
    {
      Describe(View(), name)
    }
  }
}
