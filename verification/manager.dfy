/** The orchestrator (src/deckhand/orchestrator/manager.py): the agent table,
    the shared event bus and the state store, and the commands routed to agents. */
module Manager {
  import opened Base
  import opened Events
  import opened State
  import opened MockAgents

  /** What routed agent commands can change: every agent's state, by id,
      and the shared bus. */
  datatype World = World(agents: map<string, AgentView>, bus: BusView)

  /** A routed command's effect, and whether it raised. */
  datatype Routed = Routed(world: World, outcome: Outcome<Error>)

  /** Route a command to the agent registered under `id`: an unknown id is
      a KeyError that touches nothing; a known one changes that agent alone
      and publishes what its operation emits. */
  function Route(w: World, id: string, t: Transition, failing: set<Sink>): (r: Routed)
    requires id in w.agents
    ensures r.outcome == Pass && r.world.agents.Keys == w.agents.Keys
    ensures r.world.agents[id] == t.next
    ensures forall k :: k in w.agents && k != id ==> r.world.agents[k] == w.agents[k]
    ensures r.world.bus == Publish(w.bus, t.events, failing)
  {
    Routed(World(w.agents[id := t.next], Publish(w.bus, t.events, failing)), Pass)
  }

  /** `start_agent`. */
  function StartAgentW(w: World, id: string): (r: Routed)
    ensures r.world.agents.Keys == w.agents.Keys
    ensures id !in w.agents ==> r == Routed(w, Fail(NotFound(id)))
    ensures id in w.agents ==> r.outcome == Pass && r.world.agents[id] == StartT(w.agents[id]).next
    ensures r.world.bus == w.bus
  {
    if id !in w.agents then Routed(w, Fail(NotFound(id))) else Route(w, id, StartT(w.agents[id]), {})
  }

  /** `cancel_agent`. */
  function CancelAgentW(w: World, id: string, ctx: Ctx): (r: Routed)
    ensures r.world.agents.Keys == w.agents.Keys
    ensures id !in w.agents ==> r == Routed(w, Fail(NotFound(id)))
    ensures id in w.agents ==> r.outcome == Pass && r.world.agents[id] == CancelT(id, w.agents[id], ctx.now).next
  {
    if id !in w.agents then Routed(w, Fail(NotFound(id))) else Route(w, id, Apply(id, w.agents[id], Op.Cancel, ctx.now), ctx.failing)
  }

  /** `provide_input`. */
  function ProvideInputW(w: World, id: string, text: string, ctx: Ctx): (r: Routed)
    ensures r.world.agents.Keys == w.agents.Keys
    ensures id !in w.agents ==> r == Routed(w, Fail(NotFound(id)))
    ensures id in w.agents ==> r.outcome == Pass && r.world.agents[id] == ProvideInputT(id, w.agents[id], text, ctx.now).next
  {
    if id !in w.agents then Routed(w, Fail(NotFound(id)))
    else Route(w, id, Apply(id, w.agents[id], Op.ProvideInput(text), ctx.now), ctx.failing)
  }

  /** Routing keeps every agent's invariant: the agent table stays well formed. */
  lemma RoutingKeepsInv(w: World, id: string, text: string, ctx: Ctx)
    requires forall k :: k in w.agents ==> Inv(w.agents[k])
    ensures forall k :: k in StartAgentW(w, id).world.agents ==> Inv(StartAgentW(w, id).world.agents[k])
    ensures forall k :: k in CancelAgentW(w, id, ctx).world.agents ==> Inv(CancelAgentW(w, id, ctx).world.agents[k])
    ensures forall k :: k in ProvideInputW(w, id, text, ctx).world.agents ==>
              Inv(ProvideInputW(w, id, text, ctx).world.agents[k])
  {
    if id in w.agents {
      InvPreserved(id, w.agents[id], Op.Start, ctx.now);
      InvPreserved(id, w.agents[id], Op.Cancel, ctx.now);
      InvPreserved(id, w.agents[id], Op.ProvideInput(text), ctx.now);
    }
  }

  /** A map that differs from another only at `id` is that map updated at `id`. */
  lemma UpdateOne(before: map<string, AgentView>, after: map<string, AgentView>, id: string, v: AgentView)
    requires after.Keys == before.Keys && id in after && after[id] == v
    requires forall k :: k in after && k != id ==> after[k] == before[k]
    ensures after == before[id := v]
  {
  }

  class Orchestrator {
    var agents: map<string, MockAgent>
    const bus: EventBus
    const store: StateStore

    /** Agents sit under their own id and report to the orchestrator's bus,
        which is also the bus the state store emits on. */
    predicate Valid()
      reads this, agents.Values, store
    {
      && store.bus == bus
      && store.Valid()
      && forall k :: k in agents ==> agents[k].id == k && agents[k].onEvent == bus && agents[k].Valid()
    }

    /** The agents' states by id and the bus. */
    function Snapshot(): World
      reads this, agents.Values, bus
    {
      World(map k | k in agents :: agents[k].View(), bus.View())
    }

    constructor()
      ensures Valid() && agents == map[] && fresh(bus) && fresh(store)
      ensures bus.View() == EmptyBus && store.View() == EmptyStore
    {
      agents := map[];
      var b := new EventBus();
      bus := b;
      store := new StateStore(b);
    }

    /** `register_agent`: route the agent's events to the bus and store it
        under its id, replacing any agent with the same id. */
    method RegisterAgent(agent: MockAgent)
      requires Valid() && agent.Valid()
      modifies this, agent
      ensures Valid()
      ensures agents == old(agents)[agent.id := agent]
      ensures agent.onEvent == bus && agent.View() == old(agent.View())
    {
      agent.onEvent := bus;
      agents := agents[agent.id := agent];
    }

    /** `get_agent`. */
    function GetAgent(id: string): (r: MockAgent?)
      requires Valid()
      reads this, agents.Values, store
      ensures r != null <==> id in agents
      ensures r != null ==> r.id == id && r.onEvent == bus && r.Valid()
    {
      if id in agents then agents[id] else null
    }

    /** `list_agents`: every registered agent once. */
    method ListAgents() returns (r: seq<MockAgent>)
      requires Valid()
      ensures |r| == |agents|
      ensures forall a :: a in r <==> a in agents.Values
    {
      r := [];
      var left := agents.Keys;
      while left != {}
        invariant left <= agents.Keys
        invariant forall a :: a in r <==> a in agents.Values && a.id !in left
        invariant |r| + |left| == |agents|
        decreases |left|
      {
        var k :| k in left;
        r := r + [agents[k]];
        left := left - {k};
      }
    }

    /** Hand a cancel or an input to a registered agent; what it emits
        reaches the bus, and no other agent changes. */
    method Relay(agent: MockAgent, op: Op, ctx: Ctx)
      requires Valid() && agent.id in agents && agents[agent.id] == agent
      requires op.Cancel? || op.ProvideInput?
      modifies agent, bus
      ensures Valid() && agents == old(agents)
      ensures Snapshot() == Route(old(Snapshot()), agent.id, Apply(agent.id, old(agent.View()), op, ctx.now), ctx.failing).world
    {
      ghost var before := Snapshot();
      ghost var t := Apply(agent.id, agent.View(), op, ctx.now);
      Hand(agent, op, ctx);
      ghost var after := Snapshot();
      assert after.agents.Keys == before.agents.Keys;
      UpdateOne(before.agents, after.agents, agent.id, t.next);
    }

    /** The agent performs the command; the others are left as they were. */
    method Hand(agent: MockAgent, op: Op, ctx: Ctx)
      requires Valid() && agent.id in agents && agents[agent.id] == agent
      requires op.Cancel? || op.ProvideInput?
      modifies agent, bus
      ensures Valid() && agents == old(agents)
      ensures agent.View() == Apply(agent.id, old(agent.View()), op, ctx.now).next
      ensures bus.View() == Publish(old(bus.View()), Apply(agent.id, old(agent.View()), op, ctx.now).events, ctx.failing)
      ensures forall k :: k in agents && k != agent.id ==> agents[k].View() == old(agents[k].View())
    {
      agent.Perform(op, ctx);
      forall k | k in agents && k != agent.id
        ensures agents[k].View() == old(agents[k].View())
      {
        assert agents[k].id != agent.id;
      }
    }

    /** `start_agent`: an unknown id is a KeyError; otherwise the agent starts. */
    method StartAgent(id: string) returns (r: Outcome<Error>)
      requires Valid()
      modifies if id in agents then {agents[id]} else {}
      ensures Valid()
      ensures agents == old(agents)
      ensures Routed(Snapshot(), r) == StartAgentW(old(Snapshot()), id)
    {
      var agent := GetAgent(id);
      if agent == null {
        return Fail(NotFound(id));
      }
      ghost var before := Snapshot();
      agent.Start();
      r := Pass;
      assert Snapshot().agents == before.agents[id := agent.View()] by {
        forall k | k in agents && k != id
          ensures agents[k].View() == before.agents[k]
        {
          assert agents[k].id != agent.id;
        }
      }
    }

    /** `cancel_agent`: an unknown id is a KeyError; otherwise the agent is
        cancelled and its envelopes reach the bus. */
    method CancelAgent(id: string, ctx: Ctx) returns (r: Outcome<Error>)
      requires Valid()
      modifies if id in agents then {agents[id], bus} else {}
      ensures Valid()
      ensures agents == old(agents)
      ensures Routed(Snapshot(), r) == CancelAgentW(old(Snapshot()), id, ctx)
    {
      var agent := GetAgent(id);
      if agent == null {
        return Fail(NotFound(id));
      }
      Relay(agent, Op.Cancel, ctx);
      r := Pass;
    }

    /** `provide_input`: an unknown id is a KeyError; otherwise the text is
        offered to the agent. */
    method ProvideInput(id: string, text: string, ctx: Ctx) returns (r: Outcome<Error>)
      requires Valid()
      modifies if id in agents then {agents[id], bus} else {}
      ensures Valid()
      ensures agents == old(agents)
      ensures Routed(Snapshot(), r) == ProvideInputW(old(Snapshot()), id, text, ctx)
    {
      var agent := GetAgent(id);
      if agent == null {
        return Fail(NotFound(id));
      }
      Relay(agent, Op.ProvideInput(text), ctx);
      r := Pass;
    }
  }
}
