/** `MockAgent` (src/deckhand/agents/mock.py): a lifecycle that runs, waits
    for text input, runs again and completes, and can be cancelled.

    The background `_run` task is modelled as an explicit phase: the point at
    which the coroutine is suspended. One call of `Step` is the event loop
    resuming it once, up to its next suspension. */
module MockAgents {
  import opened Base
  import opened Json
  import opened Events
  import opened AgentBase

  const MockType: string := "mock"
  const MockCapabilities: seq<string> := ["accepts_text", "cancellable"]

  /** Where the run task is: created but not started, in the first sleep,
      waiting on the input event, in the second sleep, or finished. */
  datatype RunPhase = Created | FirstWork | WaitingForInput | SecondWork | Done

  /** The agent's mutable state. `input` is `_input_value`; it is set exactly
      when `_input_event` is, so the event is not kept separately.
      `unwinding` records a cancelled task whose `except CancelledError`
      handler has not run yet. */
  datatype AgentView = AgentView(status: AgentStatus, task: Option<RunPhase>, input: Option<string>, unwinding: bool)

  /** The new state after one operation, and the envelopes it emitted in order. */
  datatype Transition = Transition(next: AgentView, events: seq<Envelope>)

  const Initial: AgentView := AgentView(Idle, None, None, false)

  function Snapshot(id: string, status: AgentStatus): Object
  {
    AsDict(id, MockType, status, MockCapabilities)
  }

  function StatusEvent(id: string, status: AgentStatus, now: int): Envelope
  {
    StatusChanged(id, MockType, status, MockCapabilities, now)
  }

  /** A task that is suspended inside `_run` and will see `CancelledError`. */
  predicate Suspended(p: RunPhase)
  {
    p == FirstWork || p == WaitingForInput || p == SecondWork
  }

  /** `start`: a no-op while a task is unfinished; otherwise reset the input
      and create a fresh run task. */
  function StartT(v: AgentView): (t: Transition)
    ensures t.events == []
    ensures v.task.Some? && v.task.value != Done ==> t.next == v
    ensures (v.task.None? || v.task == Some(Done)) ==>
              t.next == v.(task := Some(Created), input := None)
  {
    if v.task.Some? && v.task.value != Done then Transition(v, [])
    else Transition(v.(task := Some(Created), input := None), [])
  }

  /** `cancel`: with no task, nothing; otherwise drop the task, go idle and
      emit `agent.status_changed` then `agent.cancelled`. */
  function CancelT(id: string, v: AgentView, now: int): (t: Transition)
    ensures v.task.None? ==> t == Transition(v, [])
    ensures v.task.Some? ==> t.next.task.None? && t.next.status == Idle && t.next.input == v.input
    ensures v.task.Some? ==> t.next.unwinding == (v.unwinding || Suspended(v.task.value))
    ensures v.task.Some? ==> |t.events| == 2 && t.events[0] == StatusEvent(id, Idle, now)
    ensures v.task.Some? ==>
              (t.events[1].eventType == "agent.cancelled" &&
               t.events[1].payload == map["agent" := JObj(Snapshot(id, Idle))])
  {
    if v.task.None? then Transition(v, [])
    else
      Transition(v.(task := None, status := Idle, unwinding := v.unwinding || Suspended(v.task.value)),
                 [StatusEvent(id, Idle, now), AgentEvent("agent.cancelled", Snapshot(id, Idle), id, map[], now)])
  }

  /** `provide_input`: ignored unless the agent awaits input; otherwise store
      the text, set the event and emit `agent.input_received`. */
  function ProvideInputT(id: string, v: AgentView, text: string, now: int): (t: Transition)
    ensures v.status != AwaitingInput ==> t == Transition(v, [])
    ensures v.status == AwaitingInput ==> t.next == v.(input := Some(text))
    ensures v.status == AwaitingInput ==>
              (|t.events| == 1 &&
               t.events[0].eventType == "agent.input_received" &&
               t.events[0].payload == map["agent" := JObj(Snapshot(id, AwaitingInput)), "input" := JStr(text)])
  {
    if v.status != AwaitingInput then Transition(v, [])
    else
      Transition(v.(input := Some(text)),
                 [AgentEvent("agent.input_received", Snapshot(id, v.status), id, map["input" := JStr(text)], now)])
  }

  /** The `agent.completed` envelope; it carries the input the run consumed. */
  function CompletedEvent(id: string, input: Option<string>, now: int): (e: Envelope)
    ensures e.eventType == "agent.completed"
    ensures e.payload == map["agent" := JObj(Snapshot(id, Idle)),
                             "input" := if input.Some? then JStr(input.value) else JNull]
  {
    AgentEvent("agent.completed", Snapshot(id, Idle), id,
               map["input" := if input.Some? then JStr(input.value) else JNull], now)
  }

  /** The event loop resumes the agent's pending work once. A pending
      cancellation handler runs first (it was scheduled first); it sets the
      status to idle and ends the cancelled task. Otherwise the run task
      advances to its next suspension point; waiting on the input event
      blocks until the event is set. */
  function StepT(id: string, v: AgentView, now: int): (t: Transition)
    ensures v.unwinding ==>
              (t.next == v.(unwinding := false, status := Idle) && t.events == [StatusEvent(id, Idle, now)])
    ensures !v.unwinding && v.task == Some(WaitingForInput) && v.input.None? ==> t == Transition(v, [])
    ensures !v.unwinding && (v.task.None? || v.task == Some(Done)) ==> t == Transition(v, [])
    ensures !v.unwinding && v.task == Some(Created) ==>
              t == Transition(v.(status := Running, task := Some(FirstWork)), [StatusEvent(id, Running, now)])
    ensures !v.unwinding && v.task == Some(FirstWork) ==>
              t == Transition(v.(status := AwaitingInput, task := Some(WaitingForInput)), [StatusEvent(id, AwaitingInput, now)])
    ensures !v.unwinding && v.task == Some(WaitingForInput) && v.input.Some? ==>
              t == Transition(v.(status := Running, task := Some(SecondWork)), [StatusEvent(id, Running, now)])
    ensures !v.unwinding && v.task == Some(SecondWork) ==>
              t == Transition(v.(status := Idle, task := Some(Done)),
                              [StatusEvent(id, Idle, now), CompletedEvent(id, v.input, now)])
  {
    if v.unwinding then Transition(v.(unwinding := false, status := Idle), [StatusEvent(id, Idle, now)])
    else
      match v.task
      case None => Transition(v, [])
      case Some(Created) =>
        Transition(v.(status := Running, task := Some(FirstWork)), [StatusEvent(id, Running, now)])
      case Some(FirstWork) =>
        Transition(v.(status := AwaitingInput, task := Some(WaitingForInput)), [StatusEvent(id, AwaitingInput, now)])
      case Some(WaitingForInput) =>
        if v.input.None? then Transition(v, [])
        else Transition(v.(status := Running, task := Some(SecondWork)), [StatusEvent(id, Running, now)])
      case Some(SecondWork) =>
        Transition(v.(status := Idle, task := Some(Done)), [StatusEvent(id, Idle, now), CompletedEvent(id, v.input, now)])
      case Some(Done) => Transition(v, [])
  }

  /** An exception other than cancellation escapes from the run task's next
      step: the status becomes `error`, `agent.error` carries the message and
      the task is finished. Nothing happens without a running task, or
      before a pending cancellation handler has run. */
  function FailT(id: string, v: AgentView, message: string, now: int): (t: Transition)
    ensures v.unwinding || v.task.None? || v.task == Some(Done) ==> t == Transition(v, [])
    ensures !v.unwinding && v.task.Some? && v.task.value != Done ==>
              (t.next == v.(status := Error, task := Some(Done)) &&
               t.events == [StatusEvent(id, Error, now),
                            AgentEvent("agent.error", Snapshot(id, Error), id, map["message" := JStr(message)], now)])
  {
    if v.unwinding || v.task.None? || v.task == Some(Done) then Transition(v, [])
    else
      Transition(v.(status := Error, task := Some(Done)),
                 [StatusEvent(id, Error, now),
                  AgentEvent("agent.error", Snapshot(id, Error), id, map["message" := JStr(message)], now)])
  }

  /** The states the lifecycle can reach: the status mirrors where the run
      task is, the second work phase only follows an input, and a pending
      cancellation handler only coexists with an idle agent whose task has
      not started. No input is held before the run first waits for it. */
  predicate Inv(v: AgentView)
  {
    && (v.status == Running <==> v.task == Some(FirstWork) || v.task == Some(SecondWork))
    && (v.status == AwaitingInput <==> v.task == Some(WaitingForInput))
    && (v.task == Some(Created) || v.task == Some(FirstWork) ==> v.input.None?)
    && (v.task == Some(SecondWork) ==> v.input.Some?)
    && (v.unwinding ==> v.status == Idle && (v.task.None? || v.task == Some(Created)))
  }

  /** Every operation a client or the event loop can perform on an agent. */
  datatype Op = Start | Cancel | ProvideInput(text: string) | Step | Raise(message: string)

  function Apply(id: string, v: AgentView, op: Op, now: int): Transition
  {
    match op
    case Start => StartT(v)
    case Cancel => CancelT(id, v, now)
    case ProvideInput(text) => ProvideInputT(id, v, text, now)
    case Step => StepT(id, v, now)
    case Raise(message) => FailT(id, v, message, now)
  }

  /** The state after a sequence of operations. */
  function RunOps(id: string, v: AgentView, ops: seq<Op>, now: int): AgentView
    decreases |ops|
  {
    if ops == [] then v else RunOps(id, Apply(id, v, ops[0], now).next, ops[1..], now)
  }

  /** The envelopes a sequence of operations emits, in order. */
  function OpsEvents(id: string, v: AgentView, ops: seq<Op>, now: int): seq<Envelope>
    decreases |ops|
  {
    if ops == [] then []
    else
      var t := Apply(id, v, ops[0], now);
      t.events + OpsEvents(id, t.next, ops[1..], now)
  }

  /** Every operation keeps the invariant. */
  lemma InvPreserved(id: string, v: AgentView, op: Op, now: int)
    requires Inv(v)
    ensures Inv(Apply(id, v, op, now).next)
  {
  }

  /** Whatever happens to a fresh agent, the invariant holds. */
  lemma {:induction false} InvReachable(id: string, v: AgentView, ops: seq<Op>, now: int)
    requires Inv(v)
    ensures Inv(RunOps(id, v, ops, now))
    decreases |ops|
  {
    if ops != [] {
      InvPreserved(id, v, ops[0], now);
      InvReachable(id, Apply(id, v, ops[0], now).next, ops[1..], now);
    }
  }

  /** Input gating: the run leaves the wait only when input has been given,
      and only `provide_input` gives it, and only while awaiting input. */
  lemma InputGate(id: string, v: AgentView, op: Op, now: int)
    requires Inv(v) && !v.unwinding && v.task == Some(WaitingForInput)
    ensures var w := Apply(id, v, op, now).next;
            w.task == Some(SecondWork) ==> op == Step && v.input.Some?
    ensures v.input.None? ==> Apply(id, v, Step, now) == Transition(v, [])
  {
  }

  /** `provide_input` while not awaiting input changes nothing and emits nothing. */
  lemma IgnoredInput(id: string, v: AgentView, text: string, now: int)
    requires Inv(v) && v.task != Some(WaitingForInput)
    ensures ProvideInputT(id, v, text, now) == Transition(v, [])
  {
  }

  /** Without a new `start`, a cancelled agent never awaits input again and
      never emits `agent.input_received` or `agent.completed`. */
  lemma {:induction false} CancelIsFinal(id: string, v: AgentView, ops: seq<Op>, now: int)
    requires Inv(v) && v.task.None?
    requires forall i :: 0 <= i < |ops| ==> ops[i] != Start
    ensures RunOps(id, v, ops, now).task.None?
    ensures RunOps(id, v, ops, now).status != AwaitingInput
    ensures forall e :: e in OpsEvents(id, v, ops, now) ==>
              e.eventType != "agent.input_received" && e.eventType != "agent.completed"
    decreases |ops|
  {
    if ops != [] {
      var t := Apply(id, v, ops[0], now);
      InvPreserved(id, v, ops[0], now);
      assert t.next.task.None?;
      assert forall e :: e in t.events ==> e.eventType == "agent.status_changed" || e.eventType == "agent.cancelled";
      CancelIsFinal(id, t.next, ops[1..], now);
    }
  }

  /** The uninterrupted lifecycle: start, run, await input, receive it, run,
      complete. */
  function HappyPath(text: string): seq<Op>
  {
    [Start, Step, Step, ProvideInput(text), Step, Step]
  }

  /** The statuses the uninterrupted lifecycle passes through, and where it ends. */
  lemma {:induction false} FullRunStates(id: string, text: string, now: int)
    ensures RunOps(id, Initial, HappyPath(text)[..1], now) == AgentView(Idle, Some(Created), None, false)
    ensures RunOps(id, Initial, HappyPath(text)[..2], now) == AgentView(Running, Some(FirstWork), None, false)
    ensures RunOps(id, Initial, HappyPath(text)[..3], now) == AgentView(AwaitingInput, Some(WaitingForInput), None, false)
    ensures RunOps(id, Initial, HappyPath(text)[..5], now) == AgentView(Running, Some(SecondWork), Some(text), false)
    ensures RunOps(id, Initial, HappyPath(text), now) == AgentView(Idle, Some(Done), Some(text), false)
  {
    assert HappyPath(text)[..1] == [Start];
    HappyStep(id, text, now, 1, AgentView(Idle, Some(Created), None, false));
    HappyStep(id, text, now, 2, AgentView(Running, Some(FirstWork), None, false));
    HappyStep(id, text, now, 3, AgentView(AwaitingInput, Some(WaitingForInput), None, false));
    HappyStep(id, text, now, 4, AgentView(AwaitingInput, Some(WaitingForInput), Some(text), false));
    HappyStep(id, text, now, 5, AgentView(Running, Some(SecondWork), Some(text), false));
    assert HappyPath(text)[..6] == HappyPath(text);
  }

  /** One more operation of the lifecycle, from the state its prefix reached. */
  lemma {:induction false} HappyStep(id: string, text: string, now: int, k: nat, v: AgentView)
    requires 1 <= k < |HappyPath(text)|
    requires RunOps(id, Initial, HappyPath(text)[..k], now) == v
    ensures RunOps(id, Initial, HappyPath(text)[..k + 1], now) == Apply(id, v, HappyPath(text)[k], now).next
  {
    assert HappyPath(text)[..k + 1] == HappyPath(text)[..k] + [HappyPath(text)[k]];
    RunOpsSnoc(id, Initial, HappyPath(text)[..k], HappyPath(text)[k], now);
  }

  /** The envelopes of the uninterrupted lifecycle, in order. */
  lemma {:induction false} FullRunEvents(id: string, text: string, now: int)
    ensures OpsEvents(id, Initial, HappyPath(text), now) ==
            [StatusEvent(id, Running, now), StatusEvent(id, AwaitingInput, now),
             AgentEvent("agent.input_received", Snapshot(id, AwaitingInput), id, map["input" := JStr(text)], now),
             StatusEvent(id, Running, now)] +
            [StatusEvent(id, Idle, now), CompletedEvent(id, Some(text), now)]
  {
    var before := OpsEvents(id, Initial, HappyPath(text)[..5], now);
    assert before == [StatusEvent(id, Running, now), StatusEvent(id, AwaitingInput, now),
                      AgentEvent("agent.input_received", Snapshot(id, AwaitingInput), id, map["input" := JStr(text)], now),
                      StatusEvent(id, Running, now)] by {
      FullRunFirstEvents(id, text, now);
    }
    var last := Apply(id, RunOps(id, Initial, HappyPath(text)[..5], now), Step, now).events;
    assert last == [StatusEvent(id, Idle, now), CompletedEvent(id, Some(text), now)] by {
      FullRunLastEvents(id, text, now);
    }
    assert OpsEvents(id, Initial, HappyPath(text), now) == before + last by {
      assert HappyPath(text) == HappyPath(text)[..5] + [Step];
      OpsEventsSnoc(id, Initial, HappyPath(text)[..5], Step, now);
    }
  }

  lemma {:induction false} FullRunLastEvents(id: string, text: string, now: int)
    ensures Apply(id, RunOps(id, Initial, HappyPath(text)[..5], now), Step, now).events ==
            [StatusEvent(id, Idle, now), CompletedEvent(id, Some(text), now)]
  {
    var v := RunOps(id, Initial, HappyPath(text)[..5], now);
    assert v == AgentView(Running, Some(SecondWork), Some(text), false) by {
      FullRunStates(id, text, now);
    }
    assert Apply(id, v, Step, now) == StepT(id, v, now);
  }

  lemma {:induction false} FullRunFirstEvents(id: string, text: string, now: int)
    ensures OpsEvents(id, Initial, HappyPath(text)[..5], now) ==
            [StatusEvent(id, Running, now), StatusEvent(id, AwaitingInput, now),
             AgentEvent("agent.input_received", Snapshot(id, AwaitingInput), id, map["input" := JStr(text)], now),
             StatusEvent(id, Running, now)]
  {
    var before := OpsEvents(id, Initial, HappyPath(text)[..3], now);
    assert before == [StatusEvent(id, Running, now), StatusEvent(id, AwaitingInput, now)] by {
      FullRunOpeningEvents(id, text, now);
    }
    FullRunStates(id, text, now);
    assert HappyPath(text)[..4] == HappyPath(text)[..3] + [ProvideInput(text)];
    assert HappyPath(text)[..5] == HappyPath(text)[..4] + [Step];
    OpsEventsSnoc(id, Initial, HappyPath(text)[..3], ProvideInput(text), now);
    RunOpsSnoc(id, Initial, HappyPath(text)[..3], ProvideInput(text), now);
    OpsEventsSnoc(id, Initial, HappyPath(text)[..4], Step, now);
  }

  lemma {:induction false} FullRunOpeningEvents(id: string, text: string, now: int)
    ensures OpsEvents(id, Initial, HappyPath(text)[..3], now) ==
            [StatusEvent(id, Running, now), StatusEvent(id, AwaitingInput, now)]
  {
    FullRunStates(id, text, now);
    assert HappyPath(text)[..1] == [Start];
    assert HappyPath(text)[..2] == HappyPath(text)[..1] + [Step];
    assert HappyPath(text)[..3] == HappyPath(text)[..2] + [Step];
    OpsEventsSnoc(id, Initial, HappyPath(text)[..1], Step, now);
    OpsEventsSnoc(id, Initial, HappyPath(text)[..2], Step, now);
  }

  lemma {:induction false} RunOpsSnoc(id: string, v: AgentView, ops: seq<Op>, op: Op, now: int)
    ensures RunOps(id, v, ops + [op], now) == Apply(id, RunOps(id, v, ops, now), op, now).next
    decreases |ops|
  {
    if ops == [] {
      assert ([] + [op])[1..] == [];
    } else {
      assert (ops + [op])[1..] == ops[1..] + [op];
      RunOpsSnoc(id, Apply(id, v, ops[0], now).next, ops[1..], op, now);
    }
  }

  lemma {:induction false} OpsEventsSnoc(id: string, v: AgentView, ops: seq<Op>, op: Op, now: int)
    ensures OpsEvents(id, v, ops + [op], now) ==
            OpsEvents(id, v, ops, now) + Apply(id, RunOps(id, v, ops, now), op, now).events
    decreases |ops|
  {
    if ops == [] {
      assert ([] + [op])[1..] == [];
    } else {
      var t := Apply(id, v, ops[0], now);
      assert (ops + [op])[1..] == ops[1..] + [op];
      OpsEventsSnoc(id, t.next, ops[1..], op, now);
    }
  }

  /** An agent in error can be started again and runs. */
  lemma RecoversFromError(id: string, v: AgentView, now: int)
    requires Inv(v) && v.status == Error && !v.unwinding
    ensures var w := RunOps(id, v, [Start, Step], now);
            w.status == Running && w.task == Some(FirstWork) && w.input.None?
  {
    var w := StartT(v).next;
    assert w.task == Some(Created) && w.input.None? && !w.unwinding;
    assert [Start, Step][1..] == [Step];
  }

  /** `MockAgent`, with the fields of `AgentBase` it inherits. `id`, `type`
      and `capabilities` never change; `onEvent` is the `on_event` callback,
      which is either absent or a bus's `emit`. */
  class MockAgent {
    const id: string
    var status: AgentStatus
    var onEvent: EventBus?
    var task: Option<RunPhase>
    var input: Option<string>
    var unwinding: bool

    function View(): AgentView
      reads this
    {
      AgentView(status, task, input, unwinding)
    }

    predicate Valid()
      reads this
    {
      Inv(View())
    }

    /** The view of `on_event`'s bus, or an empty one when there is none. */
    function BusOf(): BusView
      reads this, onEvent
    {
      if onEvent == null then EmptyBus else onEvent.View()
    }

    constructor(id: string)
      ensures this.id == id && View() == Initial && onEvent == null && Valid()
    {
      this.id := id;
      status := Idle;
      onEvent := null;
      task := None;
      input := None;
      unwinding := false;
    }

    /** `as_dict`. */
    function AsDict(): (r: Object)
      reads this
      ensures r == Snapshot(id, status)
      ensures r["id"] == JStr(id) && r["status"] == JStr(StatusValue(status))
    {
      AgentBase.AsDict(id, MockType, status, MockCapabilities)
    }

    /** `_emit_event`: hand the envelope to `on_event` when there is one. */
    method EmitEvent(e: Envelope, ctx: Ctx)
      modifies onEvent
      ensures onEvent == old(onEvent)
      ensures onEvent != null ==> onEvent.View() == Deliver(old(onEvent.View()), e.ToObject(), ctx.failing)
    {
      if onEvent != null {
        var _ := onEvent.Emit(e.ToObject(), ctx.failing);
      }
    }

    /** `_set_status`: store the status, then emit `agent.status_changed`
        carrying the updated dictionary. */
    method SetStatus(s: AgentStatus, ctx: Ctx)
      modifies this, onEvent
      ensures View() == old(View()).(status := s) && onEvent == old(onEvent)
      ensures onEvent != null ==>
                onEvent.View() == Deliver(old(onEvent.View()), StatusEvent(id, s, ctx.now).ToObject(), ctx.failing)
    {
      status := s;
      EmitEvent(StatusEvent(id, s, ctx.now), ctx);
    }

    method Start()
      requires Valid()
      modifies this
      ensures Valid()
      ensures View() == StartT(old(View())).next && onEvent == old(onEvent)
    {
      if task.Some? && task.value != Done {
        return;
      }
      input := None;
      task := Some(Created);
    }

    /** One of the commands the orchestrator routes to an agent. */
    method Perform(op: Op, ctx: Ctx)
      requires Valid() && (op.Cancel? || op.ProvideInput?)
      modifies this, onEvent
      ensures Valid()
      ensures View() == Apply(id, old(View()), op, ctx.now).next && onEvent == old(onEvent)
      ensures onEvent != null ==>
                onEvent.View() == Publish(old(onEvent.View()), Apply(id, old(View()), op, ctx.now).events, ctx.failing)
    {
      if op.Cancel? {
        Cancel(ctx);
      } else {
        ProvideInput(op.text, ctx);
      }
    }

    method Cancel(ctx: Ctx)
      requires Valid()
      modifies this, onEvent
      ensures Valid()
      ensures View() == CancelT(id, old(View()), ctx.now).next && onEvent == old(onEvent)
      ensures onEvent != null ==>
                onEvent.View() == Publish(old(onEvent.View()), CancelT(id, old(View()), ctx.now).events, ctx.failing)
    {
      if task.None? {
        return;
      }
      ghost var t := CancelT(id, View(), ctx.now);
      ghost var before := BusOf();
      unwinding := unwinding || Suspended(task.value);
      task := None;
      SetStatus(Idle, ctx);
      EmitEvent(AgentEvent("agent.cancelled", AsDict(), id, map[], ctx.now), ctx);
      PublishPair(before, t.events[0], t.events[1], ctx.failing);
    }

    method ProvideInput(text: string, ctx: Ctx)
      requires Valid()
      modifies this, onEvent
      ensures Valid()
      ensures View() == ProvideInputT(id, old(View()), text, ctx.now).next && onEvent == old(onEvent)
      ensures onEvent != null ==>
                onEvent.View() == Publish(old(onEvent.View()), ProvideInputT(id, old(View()), text, ctx.now).events, ctx.failing)
    {
      if status != AwaitingInput {
        return;
      }
      input := Some(text);
      EmitEvent(AgentEvent("agent.input_received", AsDict(), id, map["input" := JStr(text)], ctx.now), ctx);
    }

    /** The event loop resumes this agent's pending work once (`_run` and its
        `CancelledError` handler). */
    method Step(ctx: Ctx)
      requires Valid()
      modifies this, onEvent
      ensures Valid()
      ensures View() == StepT(id, old(View()), ctx.now).next && onEvent == old(onEvent)
      ensures onEvent != null ==>
                onEvent.View() == Publish(old(onEvent.View()), StepT(id, old(View()), ctx.now).events, ctx.failing)
    {
      if unwinding {
        unwinding := false;
        SetStatus(Idle, ctx);
      } else {
        ResumeRun(ctx);
      }
    }

    /** The run task itself resumes: it runs up to its next `await` and
        reports the status it reaches. */
    method ResumeRun(ctx: Ctx)
      requires Valid() && !unwinding
      modifies this, onEvent
      ensures Valid()
      ensures View() == StepT(id, old(View()), ctx.now).next && onEvent == old(onEvent)
      ensures onEvent != null ==>
                onEvent.View() == Publish(old(onEvent.View()), StepT(id, old(View()), ctx.now).events, ctx.failing)
    {
      ghost var before := View();
      InvPreserved(id, before, Op.Step, ctx.now);
      match task
      case None =>
      case Some(Created) =>
        Advance(FirstWork, Running, ctx);
      case Some(FirstWork) =>
        Advance(WaitingForInput, AwaitingInput, ctx);
      case Some(WaitingForInput) =>
        if input.Some? {
          Advance(SecondWork, Running, ctx);
        }
      case Some(SecondWork) =>
        Complete(ctx);
      case Some(Done) =>
    }

    /** The run reaches its next phase and reports the status it now has. */
    method Advance(phase: RunPhase, s: AgentStatus, ctx: Ctx)
      modifies this, onEvent
      ensures View() == old(View()).(status := s, task := Some(phase)) && onEvent == old(onEvent)
      ensures onEvent != null ==>
                onEvent.View() == Publish(old(onEvent.View()), [StatusEvent(id, s, ctx.now)], ctx.failing)
    {
      ghost var before := BusOf();
      task := Some(phase);
      SetStatus(s, ctx);
      PublishOne(before, StatusEvent(id, s, ctx.now), ctx.failing);
    }

    /** The end of `_run`: idle again, then `agent.completed` with the input. */
    method Complete(ctx: Ctx)
      requires Valid() && !unwinding && task == Some(SecondWork)
      modifies this, onEvent
      ensures Valid()
      ensures View() == StepT(id, old(View()), ctx.now).next && onEvent == old(onEvent)
      ensures onEvent != null ==>
                onEvent.View() == Publish(old(onEvent.View()), StepT(id, old(View()), ctx.now).events, ctx.failing)
    {
      ghost var t := StepT(id, View(), ctx.now);
      ghost var before := BusOf();
      task := Some(Done);
      SetStatus(Idle, ctx);
      EmitEvent(CompletedEvent(id, input, ctx.now), ctx);
      PublishPair(before, t.events[0], t.events[1], ctx.failing);
    }

    /** The `except Exception` branch of `_run`. */
    method RunFails(message: string, ctx: Ctx)
      requires Valid()
      modifies this, onEvent
      ensures Valid()
      ensures View() == FailT(id, old(View()), message, ctx.now).next && onEvent == old(onEvent)
      ensures onEvent != null ==>
                onEvent.View() == Publish(old(onEvent.View()), FailT(id, old(View()), message, ctx.now).events, ctx.failing)
    {
      if unwinding || task.None? || task == Some(Done) {
        return;
      }
      ghost var t := FailT(id, View(), message, ctx.now);
      ghost var before := BusOf();
      task := Some(Done);
      SetStatus(Error, ctx);
      EmitEvent(AgentEvent("agent.error", AsDict(), id, map["message" := JStr(message)], ctx.now), ctx);
      PublishPair(before, t.events[0], t.events[1], ctx.failing);
    }
  }
}
