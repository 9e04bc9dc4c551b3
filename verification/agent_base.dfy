/** What every agent shares (src/deckhand/agents/base.py): the status enum,
    the dictionary form and the `agent.*` envelopes built from it. */
module AgentBase {
  import opened Base
  import opened Json
  import opened Events

  /** `AgentStatus`, a string enum. */
  datatype AgentStatus = Idle | Running | AwaitingInput | Error

  /** The enum member's string value. */
  function StatusValue(s: AgentStatus): (r: string)
    ensures r != []
    ensures s == Idle <==> r == "idle"
    ensures s == Running <==> r == "running"
    ensures s == AwaitingInput <==> r == "awaiting_input"
    ensures s == Error <==> r == "error"
  {
    match s
    case Idle => "idle"
    case Running => "running"
    case AwaitingInput => "awaiting_input"
    case Error => "error"
  }

  /** `AgentStatus(value)`: look a member up by its value. */
  function ParseStatus(value: string): (r: Option<AgentStatus>)
    ensures r.Some? ==> StatusValue(r.value) == value
  {
    if value == "idle" then Some(Idle)
    else if value == "running" then Some(Running)
    else if value == "awaiting_input" then Some(AwaitingInput)
    else if value == "error" then Some(Error)
    else None
  }

  /** Every status has its own value, and the value names it back. */
  lemma StatusValueRoundTrip(s: AgentStatus, t: AgentStatus)
    ensures ParseStatus(StatusValue(s)) == Some(s)
    ensures s != t ==> StatusValue(s) != StatusValue(t)
  {
  }

  /** `as_dict`. */
  function AsDict(id: string, agentType: string, status: AgentStatus, capabilities: seq<string>): (r: Object)
    ensures r.Keys == {"id", "type", "status", "capabilities"}
    ensures r["id"] == JStr(id) && r["type"] == JStr(agentType)
    ensures r["status"] == JStr(StatusValue(status))
    ensures r["capabilities"].JArr? && |r["capabilities"].items| == |capabilities|
    ensures forall i :: 0 <= i < |capabilities| ==> r["capabilities"].items[i] == JStr(capabilities[i])
  {
    map[
      "id" := JStr(id),
      "type" := JStr(agentType),
      "status" := JStr(StatusValue(status)),
      "capabilities" := JArr(Strs(capabilities))
    ]
  }

  function Strs(ss: seq<string>): (r: seq<Json>)
    ensures |r| == |ss|
    ensures forall i :: 0 <= i < |ss| ==> r[i] == JStr(ss[i])
    decreases |ss|
  {
    if ss == [] then [] else [JStr(ss[0])] + Strs(ss[1..])
  }

  /** An `agent.*` envelope attributed to the agent, whose payload holds the
      agent's dictionary under "agent" plus `extra`. */
  function AgentEvent(eventType: string, agent: Object, agentId: string, extra: Object, now: int): (e: Envelope)
    requires "agent" !in extra
    ensures e.eventType == eventType && e.source == Source("agent", agentId) && e.ts == now
    ensures e.payload.Keys == {"agent"} + extra.Keys
    ensures e.payload["agent"] == JObj(agent)
    ensures forall k :: k in extra ==> e.payload[k] == extra[k]
  {
    BuildEvent(eventType, Source("agent", agentId), now, Some(map["agent" := JObj(agent)] + extra))
  }

  /** The envelope `_set_status` emits once the new status is in place. */
  function StatusChanged(id: string, agentType: string, status: AgentStatus, capabilities: seq<string>, now: int): (e: Envelope)
    ensures e.eventType == "agent.status_changed" && e.source == Source("agent", id)
    ensures e.payload == map["agent" := JObj(AsDict(id, agentType, status, capabilities))]
  {
    AgentEvent("agent.status_changed", AsDict(id, agentType, status, capabilities), id, map[], now)
  }
}
