# Deckhand orchestration core, modelled in Dafny

Deckhand is a small automation hub. Button panels and webhooks invoke named
**actions**, and external systems push named **signals**. The hub keeps shared,
expiring **state** that drives button indicators. Every change is announced as
an event envelope on an in-memory **event bus**. Long-running **agents** go
through a lifecycle that pauses while they wait for text input.

This project models the in-process core of that hub. It also models the small,
stateful logic around it: the Stream Deck client, its bindings, the stand-alone
client template, and the settings precedence. The model follows the code's own
form:

- Objects whose methods update fields in place are classes:
  - `EventBus`, `StateStore`, `MockAgent`, `Orchestrator`;
  - `ActionRegistry`, `SignalRegistry`;
  - `StreamDeckAdapter`, `StreamDeckClient`, `StateTracker`, `Settings`.
- Loops in the source are methods with loop invariants: emit's send loop, the
  purge, the binding conversion, `load_bindings`, `_apply_state`, sorting for
  listings, and `list_agents`.
- Each such method is proved against a pure transition function over a
  snapshot of its state. The properties the code promises are proved about
  those functions as lemmas.

Modules, by file:

| file | module | models |
|---|---|---|
| base.dfy | Base | `Option`, `Result`, `Outcome` and the raised error kinds |
| json.dfy | Json | decoded JSON values, Python truthiness, `dict.get`, `str()`, `int()` |
| strings.dfy | Strings | string order and `sorted`, `rstrip`, `strip`, `split` |
| events.dfy | Events | `build_event`, `build_error_event`, `EventBus` |
| state.dfy | State | `StateStore` with insertion-ordered keys, expiry and purge notices |
| agent_base.dfy | AgentBase | `AgentStatus`, `as_dict`, the `agent.*` envelopes |
| mock_agent.dfy | MockAgents | `MockAgent` with its run task as an explicit phase machine |
| manager.dfy | Manager | `Orchestrator`: agent table and command routing |
| catalog.dfy | Catalogs | the handler and metadata tables shared by both registries |
| actions.dfy | Actions | `ActionRegistry` and the three built-in agent actions |
| signals.dfy | Signals | `SignalRegistry` |
| builtin.dfy | BuiltinPlugin | the `ui.open_url` action and the `camera.motion` signal |
| lights.dfy | LightsPlugin | the example lights plugin's three actions and webhook |
| plugins.dfy | Plugins | `PluginRegistry` and the two plugins' `register` functions |
| bindings.dfy | Bindings | `ButtonBinding`, `DEFAULT_BINDINGS`, `load_bindings` |
| adapter.dfy | Adapter | `StreamDeckAdapter` |
| client.dfy | Client | `StreamDeckClient`: press resolution, indicators, event-stream URL |
| client_template.dfy | ClientTemplate | the template's bindings, `StateTracker`, `process_event`, button press |
| settings.dfy | AppSettings | `Settings`: defaults, config file, environment |

Conventions used throughout:

- **Calls that emit take a context.** Every call that emits or reads the
  clock takes `ctx: Ctx(now, failing, loopRunning)`:
  - the clock reading, in integer ticks;
  - the subscriber sinks whose send raises during this call;
  - whether an asyncio event loop is running.
- **The bus keeps a delivery log.** Its view is the subscriber set plus the
  log of accepted emits. `InboxOf(log, s)` is what sink `s` has received.
- **Plugin handlers are pure transitions.** Their effect is a function from
  the payload and a `Backend(store, bus)` to
  `Handled(backend, outcome)`. The handler methods are proved equal to it.
- **Orchestrator commands are pure transitions too.** Their effect is a
  function on `World(agents, bus)` giving `Routed(world, outcome)`.
- **Exceptions become `Fail`/`Err` values.** KeyError is `NotFound`.
  ValueError is `Invalid`. TypeError and AttributeError are `WrongType`.

Two behaviours of the code are easy to miss:

- **Expiry boundary.** An entry written with ttl `t` is purged once
  `expires_at <= now`, so it is already absent when exactly `t` has elapsed,
  not only after more than `t` (`State.ExpiredIsAbsent`).
- **Purge notices.** The `state.cleared` notice of a purged key is handed to
  `asyncio.create_task`, so subscribers see it only when the loop later runs
  that task. It is dropped when no loop is running. The model queues it
  (`State.Purge`) and delivers it in `StateStore.RunScheduledNotice`.

In the Stream Deck client, `state.cleared` sets the indicator named by the
*state* key to None, not the indicators of the buttons that follow that key.
So a button lit by `state.changed` stays lit after the clear
(`Client.ClearKeepsButtonLit`). The model states this behaviour as the code
has it.

## Model

| member | source | states |
|---|---|---|
| Json.Get | src/deckhand/orchestrator/actions.py:62 | `d.get(k)`: the stored value when `k` is present, None otherwise |
| Json.GetOr | src/deckhand/plugins/builtin.py:22 | `d.get(k, default)`: the stored value when present, the default otherwise |
| Json.OrElse | src/deckhand/plugins/builtin.py:21 | `x or default`: x when truthy, else the default |
| Json.NumberValue | examples/example_plugin.py:52-54 | `int(x)` of a number; a boolean counts as 0 or 1 |
| Json.Str | src/deckhand/plugins/builtin.py:17 | `str(x)`: a string is itself, an integer its decimal text, a boolean "True" or "False", null "None" |
| Json.IntToDecimal | src/deckhand/config/bindings.py:71 | the decimal text of an index: non-empty digits, with a leading '-' for negatives |
| Json.ToInt | src/deckhand/config/settings.py:61-65 | `int(x)`: numbers convert; a string converts iff it is digits or '-' then digits, to that value; other strings are ValueError; null and containers are TypeError |
| Json.IntTextRoundTrip | src/deckhand/config/settings.py:61-65 | `int()` of the decimal text of any integer gives the integer back |
| Strings.SortedNames | src/deckhand/orchestrator/actions.py:54 | `sorted(keys)`: strictly ascending, exactly the given names, one each |
| Strings.RStrip | src/deckhand/clients/streamdeck/client.py:24 | `rstrip(c)`: a prefix of the text with no trailing `c`, only `c` removed |
| Strings.Strip | src/deckhand/config/settings.py:73 | `strip()`: no Python whitespace character (`str.isspace`) at either end |
| Strings.StripSlice | src/deckhand/config/settings.py:73 | what `strip()` keeps is one slice of the text, and everything outside that slice is whitespace |
| Strings.Split | src/deckhand/config/settings.py:73 | `split(sep)`: at least one piece, no piece holds the separator |
| Strings.SplitJoin | src/deckhand/config/settings.py:73 | splitting loses nothing: joining the pieces with the separator gives the text back |
| Events.Envelope.ToObject | src/deckhand/orchestrator/events.py:36-42 | the envelope dictionary has exactly type, source, payload, ts and version, and passes emit's shape check |
| Events.BuildEvent | src/deckhand/orchestrator/events.py:11-42 | type, source, stamp and version as given; a missing or empty payload becomes {}, any other is kept |
| Events.BuildErrorEvent | src/deckhand/orchestrator/events.py:45-82 | type "error", payload exactly {error_type, message, details}, details defaulting to {} |
| Events.BuiltEventsAreAccepted | src/deckhand/orchestrator/events.py:11-42 | every built envelope passes emit's shape check and carries version "1.0" by default |
| Events.ShapeError | src/deckhand/orchestrator/events.py:110-116 | an envelope is accepted iff all five fields are present and the source is an object with "kind" and "id"; missing fields are reported first, as exactly the missing set |
| Events.Delivered | src/deckhand/orchestrator/events.py:118-125 | after one accepted emit each non-failing subscriber has the envelope once more at the end of its inbox, no other sink gets anything, and the subscriber set loses exactly the failing sinks |
| Events.PublishInOrder | src/deckhand/orchestrator/events.py:118-125 | successive emits reach a non-failing subscriber in order, after what it already had; other sinks receive nothing |
| Events.EventBus.constructor | src/deckhand/orchestrator/events.py:88-89 | a new bus has no subscribers and has delivered nothing |
| Events.EventBus.Subscribe | src/deckhand/orchestrator/events.py:91-93 | the sink is added (a second subscribe keeps one copy); nothing is delivered |
| Events.EventBus.Unsubscribe | src/deckhand/orchestrator/events.py:95-96 | the sink is removed; a no-op for an absent sink |
| Events.EventBus.Emit | src/deckhand/orchestrator/events.py:98-125 | the refusal reason is the shape check's; a refused envelope changes nothing; an accepted one is delivered to every non-failing subscriber and the failing ones are discarded |
| Events.EventBus.SendToAll | src/deckhand/orchestrator/events.py:118-123 | one send per current subscriber: the dead list holds exactly the failing subscribers, the rest are reached |
| State.Entry.ToObject | src/deckhand/orchestrator/state.py:34-39 | the entry dictionary has key, value, updated_at and expires_at, with expires_at None exactly when there is no expiry |
| State.NewEntry | src/deckhand/orchestrator/state.py:32-40 | the written entry has the key, value and `updated_at = now`; without ttl it never expires, with ttl it expires exactly from `now + ttl` |
| State.Live | src/deckhand/orchestrator/state.py:56-63 | purging keeps exactly the entries not expired, unchanged; entries without expiry always stay |
| State.ExpiredKeys | src/deckhand/orchestrator/state.py:58-61 | the purged keys are exactly the stored keys not live at `now` |
| State.StateSource | src/deckhand/orchestrator/state.py:43 | the source defaults to {kind: "state", id: key} |
| State.ChangedEvent | src/deckhand/orchestrator/state.py:41-45 | `state.changed` whose payload is the stored entry, with the defaulted source and version "1.0" |
| State.ClearedEvent | src/deckhand/orchestrator/state.py:50-54 | `state.cleared` with payload {key}, the defaulted source and version "1.0" |
| State.PurgeNotices | src/deckhand/orchestrator/state.py:62-75 | one `state.cleared` notice per purged key, the i-th for the i-th key, attributed to the state key itself |
| State.Write | src/deckhand/orchestrator/state.py:40 | `_state[key] = entry`: the key holds the new entry, every other key is unchanged, a new key goes last in dictionary order |
| State.Erase | src/deckhand/orchestrator/state.py:48-49 | `del _state[key]`: the key is gone, every other entry and its order stay |
| State.PurgedKeys | src/deckhand/orchestrator/state.py:58-61 | the expired keys, in dictionary order, each once |
| State.Purge | src/deckhand/orchestrator/state.py:56-75 | the store after a purge holds exactly the live entries, and one `state.cleared` per purged key is queued in order only when a loop runs |
| State.ValuesOf | src/deckhand/orchestrator/state.py:19 | `list(_state.values())`: the entries in key order |
| State.SetStateT | src/deckhand/orchestrator/state.py:25-45 | `set_state` writes the new entry (a new key goes last, an old one keeps its place), keeps the store well formed and its queue unchanged, and delivers `state.changed` with the entry and its source on the bus |
| State.EmitT | src/deckhand/orchestrator/events.py:98-125 | emitting leaves the store alone and makes one delivery of the envelope's dictionary |
| State.Read | src/deckhand/orchestrator/state.py:21-23 | `get_state` finds an entry iff the key is live at the read time, and then it is the stored, unexpired entry |
| State.StateStore.constructor | src/deckhand/orchestrator/state.py:13-15 | a new store is empty and emits on the given bus |
| State.StateStore.SetState | src/deckhand/orchestrator/state.py:25-45 | the whole entry is replaced, then exactly one `state.changed` carrying it is emitted |
| State.StateStore.ClearState | src/deckhand/orchestrator/state.py:47-54 | the key is absent afterwards and `state.cleared` {key} is emitted even when it was never present |
| State.StateStore.Delete | src/deckhand/orchestrator/state.py:48-49 | the key and its order position are removed |
| State.StateStore.PurgeExpired | src/deckhand/orchestrator/state.py:56-75 | returns the expired keys in dictionary order; the store becomes `Purge` of the old one; the bus is untouched |
| State.StateStore.DiscardAll | src/deckhand/orchestrator/state.py:62-75 | each listed key is deleted and its notice queued when a loop runs |
| State.StateStore.ExpiredInOrder | src/deckhand/orchestrator/state.py:58-61 | the comprehension yields the expired keys in dictionary order |
| State.StateStore.GetState | src/deckhand/orchestrator/state.py:21-23 | purge, then the entry iff the key was live at the read time |
| State.StateStore.ListState | src/deckhand/orchestrator/state.py:17-19 | purge, then the remaining entries in dictionary order |
| State.StateStore.RunScheduledNotice | src/deckhand/orchestrator/state.py:68-72 | the loop runs the oldest scheduled notice: it is emitted and leaves the queue; entries are untouched |
| State.ReadYourWrite | src/deckhand/orchestrator/state.py:21-40 | with no ttl, a read at any time after `set_state(k, v)` finds value v |
| State.ExpiredIsAbsent | src/deckhand/orchestrator/state.py:56-63 | with ttl t, a read at or after `now + t` finds the key absent |
| State.OtherKeysUntouched | src/deckhand/orchestrator/state.py:40-49 | setting or clearing one key leaves every other key's entry as it was |
| State.ListedEntriesAreLive | src/deckhand/orchestrator/state.py:17-19 | every listed entry is live at the read time and is stored under its own key, each key once |
| State.PurgeMonotone | src/deckhand/orchestrator/state.py:56-63 | purging twice is purging once, and a later purge subsumes an earlier one |
| AgentBase.StatusValue | src/deckhand/agents/base.py:9-13 | idle, running, awaiting_input and error are the values of the four statuses, each iff its status |
| AgentBase.ParseStatus | src/deckhand/agents/base.py:9-13 | looking a status up by value returns a member with that value |
| AgentBase.StatusValueRoundTrip | src/deckhand/agents/base.py:9-13 | distinct statuses have distinct values, and each value names its status back |
| AgentBase.AsDict | src/deckhand/agents/base.py:29-35 | the dictionary has exactly id, type, status (the status string) and capabilities (in order) |
| AgentBase.AgentEvent | src/deckhand/agents/base.py:39-43 | an `agent.*` envelope attributed to {agent, id}, with the agent's dictionary under "agent" plus the extra fields |
| AgentBase.StatusChanged | src/deckhand/agents/base.py:37-43 | `agent.status_changed` whose payload's agent dictionary reports the new status |
| MockAgents.StartT | src/deckhand/agents/mock.py:19-24 | a no-op while a task exists and is not done; otherwise the input is reset and a fresh run is created; nothing is emitted |
| MockAgents.CancelT | src/deckhand/agents/mock.py:26-36 | with no task, nothing; otherwise the task is dropped, the status is idle, and `status_changed` (idle) then `agent.cancelled` are emitted |
| MockAgents.ProvideInputT | src/deckhand/agents/mock.py:38-47 | ignored unless awaiting input; otherwise the text is recorded and one `agent.input_received` with the text is emitted |
| MockAgents.CompletedEvent | src/deckhand/agents/mock.py:58-62 | `agent.completed` carries the idle agent and the input the run consumed |
| MockAgents.StepT | src/deckhand/agents/mock.py:49-65 | a pending cancellation handler sets idle first; otherwise created goes running, the first sleep goes awaiting_input, the wait with input goes running, the second sleep goes idle with `status_changed` then `agent.completed` carrying the input; the wait without input blocks; a finished or absent task does nothing |
| MockAgents.FailT | src/deckhand/agents/mock.py:66-72 | an exception in a live run sets error, emits `status_changed` then `agent.error` with the message, and finishes the task |
| MockAgents.InvPreserved | src/deckhand/agents/mock.py:19-72 | every operation keeps the lifecycle invariant (status mirrors the run phase, input held only after the wait) |
| MockAgents.InvReachable | src/deckhand/agents/mock.py:19-72 | the invariant holds after any sequence of operations |
| MockAgents.InputGate | src/deckhand/agents/mock.py:53-55 | the run leaves the wait only by a step after input was given |
| MockAgents.IgnoredInput | src/deckhand/agents/mock.py:38-40 | input while not awaiting it changes nothing and emits nothing |
| MockAgents.CancelIsFinal | src/deckhand/agents/mock.py:26-36 | after cancel, without a new start, the agent never awaits input again and emits no `input_received` or `completed` |
| MockAgents.FullRunStates | src/deckhand/agents/mock.py:49-62 | for any input text, the uninterrupted run goes running, awaiting_input, running, idle, ending done with that text |
| MockAgents.FullRunEvents | src/deckhand/agents/mock.py:49-62 | for any input text, the uninterrupted run emits one `status_changed` per status, the `input_received` with the text, then `agent.completed` with the text, in that order |
| MockAgents.RecoversFromError | src/deckhand/agents/mock.py:19-24 | an agent in error can be started again, and it runs |
| MockAgents.MockAgent.constructor | src/deckhand/agents/mock.py:13-17 | a new agent is idle, with no task, no input and no event sink |
| MockAgents.MockAgent.AsDict | src/deckhand/agents/base.py:29-35 | the agent's dictionary reports its id and current status |
| MockAgents.MockAgent.EmitEvent | src/deckhand/agents/base.py:45-47 | without a sink nothing happens; otherwise the envelope goes to the sink's bus unchanged |
| MockAgents.MockAgent.SetStatus | src/deckhand/agents/base.py:37-43 | the status is stored, then exactly one `status_changed` reporting it is emitted |
| MockAgents.MockAgent.Start | src/deckhand/agents/mock.py:19-24 | the state becomes `StartT` of the old one |
| MockAgents.MockAgent.Cancel | src/deckhand/agents/mock.py:26-36 | the state and the bus follow `CancelT` |
| MockAgents.MockAgent.ProvideInput | src/deckhand/agents/mock.py:38-47 | the state and the bus follow `ProvideInputT` |
| MockAgents.MockAgent.Perform | src/deckhand/orchestrator/manager.py:34-44 | a routed cancel or input keeps the invariant; the state and the bus follow the operation's transition |
| MockAgents.MockAgent.Step | src/deckhand/agents/mock.py:49-65 | the state and the bus follow `StepT` |
| MockAgents.MockAgent.ResumeRun | src/deckhand/agents/mock.py:49-62 | the run task advances to its next suspension as `StepT` says |
| MockAgents.MockAgent.Advance | src/deckhand/agents/mock.py:51-55 | the run task reaches its next phase, sets its status and publishes exactly that one `status_changed` |
| MockAgents.MockAgent.Complete | src/deckhand/agents/mock.py:57-62 | the end of the run: idle, then `agent.completed` with the input |
| MockAgents.MockAgent.RunFails | src/deckhand/agents/mock.py:66-72 | the state and the bus follow `FailT` |
| Manager.Route | src/deckhand/orchestrator/manager.py:28-44 | a routed command changes the addressed agent alone and publishes what it emits |
| Manager.StartAgentW | src/deckhand/orchestrator/manager.py:28-32 | an unknown id is not-found and touches nothing; a known one starts exactly that agent |
| Manager.CancelAgentW | src/deckhand/orchestrator/manager.py:34-38 | an unknown id is not-found and touches nothing; a known one cancels exactly that agent |
| Manager.ProvideInputW | src/deckhand/orchestrator/manager.py:40-44 | an unknown id is not-found and touches nothing; a known one gives the text to exactly that agent |
| Manager.RoutingKeepsInv | src/deckhand/orchestrator/manager.py:28-44 | routing keeps every agent's lifecycle invariant |
| Manager.Orchestrator.constructor | src/deckhand/orchestrator/manager.py:13-16 | no agents; a new bus; a new, empty store that emits on that bus |
| Manager.Orchestrator.RegisterAgent | src/deckhand/orchestrator/manager.py:18-20 | the agent is stored under its id, replacing any earlier one, and its sink is the bus |
| Manager.Orchestrator.GetAgent | src/deckhand/orchestrator/manager.py:25-26 | null iff the id is unregistered; otherwise the agent with that id |
| Manager.Orchestrator.ListAgents | src/deckhand/orchestrator/manager.py:22-23 | exactly the registered agents, one per id |
| Manager.Orchestrator.StartAgent | src/deckhand/orchestrator/manager.py:28-32 | the outcome and the new agents equal `StartAgentW` |
| Manager.Orchestrator.CancelAgent | src/deckhand/orchestrator/manager.py:34-38 | the outcome, the agents and the bus equal `CancelAgentW` |
| Manager.Orchestrator.ProvideInput | src/deckhand/orchestrator/manager.py:40-44 | the outcome, the agents and the bus equal `ProvideInputW` |
| Manager.Orchestrator.Relay | src/deckhand/orchestrator/manager.py:34-44 | handing a cancel or input to a registered agent keeps the orchestrator well formed and its agent table, and the snapshot becomes the routed transition's world |
| Manager.Orchestrator.Hand | src/deckhand/orchestrator/manager.py:34-44 | the agent's state follows the operation's transition and its envelopes are published on the orchestrator's bus, in order |
| Catalogs.SchemaOrEmpty | src/deckhand/orchestrator/actions.py:43 | a missing schema is stored as {} |
| Catalogs.Empty | src/deckhand/orchestrator/signals.py:14-16 | a new table set is empty and well formed |
| Catalogs.Lookup | src/deckhand/orchestrator/actions.py:47 | the handler registered under the name, or none |
| Catalogs.Describe | src/deckhand/orchestrator/actions.py:56-58 | metadata exists exactly for registered names and is the record registered under the name |
| Catalogs.Registered | src/deckhand/orchestrator/actions.py:31-44 | register sets both handler and metadata of the name, and every other name keeps its entry |
| Catalogs.ReregisterOverwrites | src/deckhand/orchestrator/actions.py:31-44 | registering a name twice is the same as registering it once, with the second values |
| Catalogs.ListingUnique | src/deckhand/orchestrator/actions.py:52-54 | the listing is fully determined by the tables |
| Catalogs.Listing | src/deckhand/orchestrator/actions.py:52-54 | one record per registered name, the one registered, in ascending name order |
| Actions.AgentIdArg | src/deckhand/orchestrator/actions.py:62-64 | a falsy or missing agent_id is "agent_id is required"; otherwise `str(agent_id)` |
| Actions.StartActionW | src/deckhand/orchestrator/actions.py:61-65 | a falsy agent_id fails before the orchestrator is called; otherwise `start_agent(str(agent_id))` |
| Actions.CancelActionW | src/deckhand/orchestrator/actions.py:67-71 | a falsy agent_id fails before the orchestrator is called; otherwise `cancel_agent(str(agent_id))` |
| Actions.InputActionW | src/deckhand/orchestrator/actions.py:73-80 | agent_id is checked first, then only a missing text is refused; otherwise `provide_input` |
| Actions.UnknownAgentActions | src/deckhand/orchestrator/actions.py:61-80 | a well-formed id naming no agent is not-found and touches nothing |
| Actions.EmptyInputAccepted | src/deckhand/orchestrator/actions.py:73-80 | the empty text reaches an agent awaiting input |
| Actions.PluginT | src/deckhand/orchestrator/actions.py:50 | a plugin action's effect on its store keeps the store well formed |
| Actions.RunOnStore | src/deckhand/orchestrator/actions.py:50 | running a plugin handler has exactly the effect `PluginT` gives |
| Actions.DefaultActions | src/deckhand/orchestrator/actions.py:82-102 | the defaults form well-formed tables |
| Actions.DefaultActionsHeld | src/deckhand/orchestrator/actions.py:82-102 | a new registry holds exactly agent.start, agent.cancel and agent.input, with their handlers, descriptions and schemas |
| Actions.ActionRegistry.constructor | src/deckhand/orchestrator/actions.py:25-29 | a new registry's tables are the defaults |
| Actions.ActionRegistry.RegisterDefaults | src/deckhand/orchestrator/actions.py:60-102 | the empty tables become the defaults |
| Actions.ActionRegistry.Register | src/deckhand/orchestrator/actions.py:31-44 | the tables become `Registered` of the old ones |
| Actions.ActionRegistry.Run | src/deckhand/orchestrator/actions.py:46-50 | an unknown name is not-found and runs nothing; otherwise the named handler gets the payload unchanged and its effect and error are the result; the tables are unchanged |
| Actions.ActionRegistry.RunAgentAction | src/deckhand/orchestrator/actions.py:50 | a built-in agent handler's effect on the agents and the bus is exactly its action's transition |
| Actions.ActionRegistry.StartAction | src/deckhand/orchestrator/actions.py:61-65 | the effect equals `StartActionW` |
| Actions.ActionRegistry.CancelAction | src/deckhand/orchestrator/actions.py:67-71 | the effect equals `CancelActionW` |
| Actions.ActionRegistry.InputAction | src/deckhand/orchestrator/actions.py:73-80 | the effect equals `InputActionW` |
| Actions.ActionRegistry.ListActions | src/deckhand/orchestrator/actions.py:52-54 | one metadata record per registered name, in ascending name order |
| Actions.ActionRegistry.GetActionMetadata | src/deckhand/orchestrator/actions.py:56-58 | none iff the name is unregistered; otherwise exactly the record registered under it, carrying the name |
| Signals.SignalT | src/deckhand/orchestrator/signals.py:37 | a signal handler's effect keeps its store well formed |
| Signals.RunSignal | src/deckhand/orchestrator/signals.py:37 | running a signal handler has exactly the effect `SignalT` gives |
| Signals.SignalRegistry.constructor | src/deckhand/orchestrator/signals.py:14-16 | a new signal registry is empty |
| Signals.SignalRegistry.Register | src/deckhand/orchestrator/signals.py:18-31 | the tables become `Registered` of the old ones |
| Signals.SignalRegistry.Handle | src/deckhand/orchestrator/signals.py:33-37 | an unknown name is not-found; otherwise the handler gets the payload unchanged and its effect and error are the result |
| Signals.SignalRegistry.ListSignals | src/deckhand/orchestrator/signals.py:39-41 | one metadata record per registered name, in ascending name order |
| Signals.SignalRegistry.GetSignalMetadata | src/deckhand/orchestrator/signals.py:43-45 | none iff the name is unregistered; otherwise exactly the record registered under it, carrying the name |
| BuiltinPlugin.OpenUrlRequest | src/deckhand/plugins/builtin.py:11-13 | a falsy url is "url is required"; otherwise `str(url)` |
| BuiltinPlugin.OpenUrlEvent | src/deckhand/plugins/builtin.py:14-18 | `ui.open_url` with payload {url} and source {action, ui.open_url} |
| BuiltinPlugin.OpenUrlT | src/deckhand/plugins/builtin.py:10-18 | a falsy url fails with no effect; otherwise exactly one delivery of the `ui.open_url` envelope with {url} and source {action, ui.open_url}; the store is never touched |
| BuiltinPlugin.OpenUrlReachesSubscribers | src/deckhand/plugins/builtin.py:14-18 | every non-failing subscriber receives exactly one more envelope: `ui.open_url` with the requested url |
| BuiltinPlugin.CameraMotionRequest | src/deckhand/plugins/builtin.py:21-24 | the key defaults when missing or falsy; active defaults to true only when missing; a present ttl must convert |
| BuiltinPlugin.CameraMotionT | src/deckhand/plugins/builtin.py:20-30 | a bad ttl fails with no effect; otherwise {active} is stored under the key with the requested expiry and `state.changed` is delivered with source {signal, camera.motion} |
| BuiltinPlugin.MotionIsReadBack | src/deckhand/plugins/builtin.py:20-30 | without ttl, a later read of the key finds `active` equal to the given flag, true by default |
| BuiltinPlugin.OpenUrl | src/deckhand/plugins/builtin.py:10-18 | the handler's effect equals `OpenUrlT` |
| BuiltinPlugin.CameraMotion | src/deckhand/plugins/builtin.py:20-30 | the handler's effect equals `CameraMotionT` |
| LightsPlugin.StateKeyInjective | examples/example_plugin.py:62 | different rooms have different state keys |
| LightsPlugin.Clamp | examples/example_plugin.py:54 | `max(0, min(100, n))`: within 0..100, n itself when already inside |
| LightsPlugin.RoomOf | examples/example_plugin.py:45-48 | a falsy room is "room is required"; otherwise `str(room)` |
| LightsPlugin.LightsValue | examples/example_plugin.py:63 | the stored value is exactly {on, brightness} |
| LightsPlugin.LightsChanged | examples/example_plugin.py:68-72 | `lights.changed` with the handler's source and payload |
| LightsPlugin.Apply | examples/example_plugin.py:61-72 | the handler tail stores the value under the room's key without expiry, then delivers `state.changed` for it and then `lights.changed` with the handler's payload |
| LightsPlugin.TurnOnBrightness | examples/example_plugin.py:51-54 | brightness is 100 when missing or not a number, otherwise the number clamped to 0..100 |
| LightsPlugin.TurnOnT | examples/example_plugin.py:36-72 | a falsy room fails with no effect; otherwise {on: true, brightness} is stored under `lights.<room>.state` without expiry, every other entry and the queue stay, and `lights.changed` carries {room, state "on", brightness} |
| LightsPlugin.TurnOffT | examples/example_plugin.py:93-119 | a falsy room fails with no effect; otherwise {on: false, brightness: 0} is stored without expiry, every other entry and the queue stay, and `lights.changed` carries {room, state "off"} |
| LightsPlugin.OnFlag | examples/example_plugin.py:155-156 | true without a current entry; the stored flag otherwise; KeyError or TypeError when the stored value lacks it |
| LightsPlugin.SetBrightnessT | examples/example_plugin.py:133-168 | room, then brightness presence, then its conversion are checked with no effect; then it fails exactly when the current entry's `on` cannot be read (after the purge), and otherwise stores {on, clamped brightness} on the purged store, whose queue keeps the purge's `state.cleared` notices, and announces {room, brightness} |
| LightsPlugin.SetBrightnessKeepsOn | examples/example_plugin.py:155-162 | the new entry keeps the live entry's on flag (true when there was none) and the clamped brightness |
| LightsPlugin.WebhookT | examples/example_plugin.py:183-221 | room, then `on` are required; brightness defaults to 100 when on and 0 when off, and a given one is stored unclamped, without expiry; every other entry and the queue stay; `lights.changed` carries {room, state, brightness} |
| LightsPlugin.OtherRoomsUntouched | examples/example_plugin.py:36-119 | turning one room on or off leaves every other room's entry as it was |
| LightsPlugin.Store | examples/example_plugin.py:61-72 | the store and bus follow `Apply` |
| LightsPlugin.TurnOn | examples/example_plugin.py:36-72 | the handler's effect equals `TurnOnT` |
| LightsPlugin.TurnOff | examples/example_plugin.py:93-119 | the handler's effect equals `TurnOffT` |
| LightsPlugin.SetBrightness | examples/example_plugin.py:133-168 | the handler's effect equals `SetBrightnessT` |
| LightsPlugin.Webhook | examples/example_plugin.py:183-221 | the handler's effect equals `WebhookT` |
| Plugins.RegisterBuiltin | src/deckhand/plugins/builtin.py:32-47 | exactly the action ui.open_url and the signal camera.motion are added, with their descriptions and schemas |
| Plugins.RegisterLights | examples/example_plugin.py:75-232 | exactly the three lights actions and the webhook signal are added, with their descriptions and schemas |
| Bindings.ToBinding | src/deckhand/config/bindings.py:62-71 | a record without key, then without action, is an error naming its index; a given payload and string indicator_key are carried over; payload defaults to {} and indicator_key to none |
| Bindings.RecordRoundTrip | src/deckhand/config/bindings.py:62-68 | every binding written as a record converts back to itself |
| Bindings.ConvertRecords | src/deckhand/config/bindings.py:60-73 | one binding per record in order, or the error of the first record that fails |
| Bindings.LoadBindings | src/deckhand/config/bindings.py:34-73 | no path or no file gives the defaults; a record list converts as `ConvertRecords` |
| Bindings.KeyedLastWins | src/deckhand/clients/streamdeck/adapter.py:22-24 | filling a dictionary keeps the old keys and adds every item's key; each key holds its last item, or its old value |
| Adapter.StreamDeckAdapter.constructor | src/deckhand/clients/streamdeck/adapter.py:17-20 | the bindings are the given ones keyed by key; none or empty gives none |
| Adapter.StreamDeckAdapter.LoadBindings | src/deckhand/clients/streamdeck/adapter.py:22-24 | each binding is stored under its key, a later one winning, and other keys keep theirs |
| Adapter.StreamDeckAdapter.ResolveAction | src/deckhand/clients/streamdeck/adapter.py:26-27 | the binding stored under the key, or none |
| Adapter.StreamDeckAdapter.IterBindings | src/deckhand/clients/streamdeck/adapter.py:29-30 | exactly one binding per stored key |
| Adapter.DefaultDeck | src/deckhand/config/bindings.py:19-31 | the default deck binds front-door to ui.open_url with the camera indicator, and mock-1-start to agent.start with none |
| Client.DefaultWsUrl | src/deckhand/clients/streamdeck/client.py:98-105 | other schemes are kept, and the result always ends in "/events" |
| Client.WsUrlSchemes | src/deckhand/clients/streamdeck/client.py:98-105 | https becomes wss and http becomes ws, the rest of the address kept |
| Client.ClearKeepsButtonLit | src/deckhand/clients/streamdeck/client.py:73-89 | a button lit by `state.changed` keeps its value after `state.cleared` of the same key |
| Client.StreamDeckClient.constructor | src/deckhand/clients/streamdeck/client.py:19-26 | the base url without trailing slashes; the given bindings, or the defaults when none; no indicators |
| Client.StreamDeckClient.Press | src/deckhand/clients/streamdeck/client.py:28-32 | an unbound key posts nothing; a bound key posts its binding's action and payload |
| Client.StreamDeckClient.SetIndicator | src/deckhand/clients/streamdeck/client.py:91-93 | the indicator of the key is set to the value |
| Client.StreamDeckClient.ApplyState | src/deckhand/clients/streamdeck/client.py:82-89 | with a truthy key, every button following it shows the value and nothing else changes; otherwise nothing changes |
| Client.StreamDeckClient.ApplyEvent | src/deckhand/clients/streamdeck/client.py:67-80 | `state.changed` applies the state; `state.cleared` sets the state key's indicator to None; other types change nothing |
| ClientTemplate.CheckedRecords | examples/streamdeck_client_template.py:71-72 | all records are accepted iff each is an object with a string key; a record without key is KeyError |
| ClientTemplate.LoadBindings | examples/streamdeck_client_template.py:59-72 | a missing or undecodable file gives {}; a record list loads iff every record has a key |
| ClientTemplate.LoadedButtons | examples/streamdeck_client_template.py:71-72 | the loaded buttons are exactly the keys the records name |
| ClientTemplate.LoadedLastRecord | examples/streamdeck_client_template.py:71-72 | each button holds the last record written for it |
| ClientTemplate.SimulateButtonPress | examples/streamdeck_client_template.py:247-261 | a request is made iff the key is bound and its action is truthy, with the action and payload (default {}) |
| ClientTemplate.PressLoadedButton | examples/streamdeck_client_template.py:247-261 | pressing a loaded button runs the action of its last record |
| ClientTemplate.StateTracker.constructor | examples/streamdeck_client_template.py:82-83 | a new tracker is empty |
| ClientTemplate.StateTracker.Update | examples/streamdeck_client_template.py:85-88 | afterwards `get` of the key gives the value |
| ClientTemplate.StateTracker.Lookup | examples/streamdeck_client_template.py:90-92 | the stored value, or none |
| ClientTemplate.StateTracker.Clear | examples/streamdeck_client_template.py:94-98 | a present key is removed, an absent one changes nothing |
| ClientTemplate.ProcessEvent | examples/streamdeck_client_template.py:131-178 | `state.changed` with a truthy key records the value; `state.cleared` with a truthy key removes it; a payload that is not an object, or a truthy list or mapping key, fails with TypeError and no change; nothing else touches the tracker |
| AppSettings.EnvValue | src/deckhand/config/settings.py:55-77 | an environment variable counts only when set and non-empty |
| AppSettings.FromConfigFile | src/deckhand/config/settings.py:32-53 | each present section overrides only its own fields; modules only when non-empty; bindings_file or none; a section that is not a table fails |
| AppSettings.NonBlank | src/deckhand/config/settings.py:73 | the i-th kept piece is the piece at the i-th non-empty position |
| AppSettings.Kept | src/deckhand/config/settings.py:73 | the kept positions are increasing, each holds a non-empty piece, and every non-empty piece's position is kept |
| AppSettings.StripAll | src/deckhand/config/settings.py:73 | each piece is stripped, one result per piece |
| AppSettings.SplitPlugins | src/deckhand/config/settings.py:72-73 | the i-th name is the stripped comma piece at the i-th non-blank position; every name is non-empty, comma-free and stripped |
| AppSettings.PluginListRoundTrip | src/deckhand/config/settings.py:72-73 | a comma-joined list of plugin names reads back as exactly those names |
| AppSettings.FromEnv | src/deckhand/config/settings.py:55-77 | each set, non-empty variable overrides its field with its value (the port only when `int()` accepts it, the plugins as the split list); unset ones leave the field; the service name never changes |
| AppSettings.Settle | src/deckhand/config/settings.py:14-30 | without DECKHAND_CONFIG_FILE the defaults then the environment; with it, the config file's error, or the defaults then the file then the environment; the config path is the variable's value |
| AppSettings.ConfigOnlyWhenNamed | src/deckhand/config/settings.py:24-27 | without DECKHAND_CONFIG_FILE the config document is never consulted |
| AppSettings.DefaultsWithoutOverrides | src/deckhand/config/settings.py:15-21 | with no environment the settings are the defaults |
| AppSettings.EnvironmentWins | src/deckhand/config/settings.py:29-30 | set host, port (when an integer), config file, plugins and bindings variables determine their fields whatever the config file says |
| AppSettings.BadPortIgnored | src/deckhand/config/settings.py:61-65 | a port that `int()` rejects leaves the port as it was |
| AppSettings.EmptyVariableIsUnset | src/deckhand/config/settings.py:55-77 | a variable set to "" has the same effect as an unset one |
| AppSettings.Settings.Defaults | src/deckhand/config/settings.py:15-21 | the default field values |
| AppSettings.Settings.LoadFromConfigFile | src/deckhand/config/settings.py:32-53 | succeeds iff `FromConfigFile` does, and then the fields equal its result |
| AppSettings.Settings.LoadFromEnv | src/deckhand/config/settings.py:55-77 | the fields become `FromEnv` of the old ones |
| AppSettings.Settings.Load | src/deckhand/config/settings.py:14-30 | a new settings object whose fields are defaults, then config file, then environment, or the config file's error |

## Left out

- src/deckhand/main.py is not part of this model: HTTP routing, status-code mapping, the WebSocket receive loop and the module-level singletons are transport plumbing.
- src/deckhand/plugins/loader.py is not part of this model. It is an `importlib` call; plugins are registered by calling their `register` directly (`Plugins.RegisterBuiltin`, `Plugins.RegisterLights`).
- src/deckhand/config/loader.py is not part of this model. TOML and JSON file reading is I/O: the config file and bindings file are given as their decoded documents.
- Network and UI code is not modelled:
  - in the client, `_post_action`, `listen_events` and `_heartbeat`;
  - in the template, `execute_action`, `handle_events`, `connect_with_retry`, `keyboard_input_handler`, `main` and `webbrowser.open`;
  - all `print` and logging calls.
- Floating point is not modelled. `time.time()` is an integer tick, and `ts` is an opaque stamp. Ttls and brightness values are integers.
- Concurrency is not modelled. Each `emit`, `subscribe` and handler call is atomic, and interleavings between concurrent calls are not modelled. The agent's run task is an explicit phase advanced by `Step`. `asyncio.sleep` durations are not modelled.
- Json.ToInt: does not accept what Python's `int()` also accepts in strings: surrounding whitespace, underscores, a leading '+', and decimal digits outside ASCII (such as full-width digits).
- Json.Str: containers are rendered by a fixed marker rather than their Python repr, which depends on insertion order.
- BuiltinPlugin.CameraMotionRequest: `float(ttl_seconds)` is modelled by the integer conversion, so fractional or exponent strings that `float()` accepts are rejected here.
- LightsPlugin.SetBrightnessT: `int(brightness)` on a float (truncation toward zero) is not modelled.
- LightsPlugin.TurnOnBrightness: a float brightness is not modelled; a boolean counts as a number, as in Python.
- Bindings.ToBinding: a key, action, payload or indicator_key of the wrong JSON type is rejected with WrongType, where Python stores it unchecked in the binding.
- Bindings.LoadBindings: a file that cannot be read or decoded (the wrapped ValueError) is not modelled.
- AppSettings.Settle: `load_config`'s own errors (a missing or malformed file) are not modelled; the file is given as its decoded document.
- ClientTemplate.LoadBindings: a record key that is not a string is rejected with WrongType. Python accepts any hashable key and raises TypeError only for an unhashable one. Read errors other than a missing file or invalid JSON (PermissionError, IsADirectoryError, UnicodeDecodeError), which propagate to the caller, are not modelled.
- ClientTemplate.StateTracker: keys compare as JSON values, so Python's `True == 1` key equality is not modelled.
- ClientTemplate.ProcessEvent: the indicator loop only logs (`update_button_indicator`), so the bindings parameter is omitted. The event is an object; a decoded message that is not one (AttributeError at `event.get`, which `connect_with_retry` catches and retries) is not modelled. The `error` and `agent.status_changed` branches only log.
- Client.StreamDeckClient.ApplyEvent: `handle_open_url` only prints, so a `ui.open_url` event has no modelled effect. The event is an object; a decoded message that is not one (AttributeError at `event.get`, which ends `listen_events`) is not modelled.
- Client.StreamDeckClient.constructor: None and an empty collection are both the empty sequence. A one-shot iterator that a truthiness test would consume is not modelled.
- Adapter.StreamDeckAdapter.IterBindings: returns the bindings as a set, so the dictionary's insertion order is not modelled. Each binding still appears once per key, and `_apply_state` does not depend on the order.
- Events.EventBus.Subscribe: the transport's `accept` handshake is not modelled.
- Events.EventBus.Emit: which sends fail is given per call (`ctx.failing`), not decided by timing.
- Events.BuildEvent: a source dictionary lacking "kind" or "id" (a KeyError in `build_event`) cannot be built, because sources are a record with both fields.
- Manager.Orchestrator: agents are `MockAgent` objects, the one concrete agent class. The abstract `AgentBase.start/cancel/provide_input` are not modelled separately.
- Manager.Orchestrator.ListAgents: returns the agents as a sequence in no particular order; the dictionary's order is not modelled.
- Actions.ActionRegistry.Run: handlers are a tagged choice over the known handlers (the three agent actions and the plugin actions), not arbitrary callables. A plugin handler's state store must be well formed when it is run.
- Signals.SignalRegistry.Handle: handlers are the known plugin signals, and the handler's store must be well formed when it is run.
- The `OrchestratorActions` protocol is the `Orchestrator` class itself.
- `load_bindings_from_file` is the same call as `load_bindings` and has no member of its own.
- The tests are not modelled; they only informed which properties are stated.
