/**
 The events a turn emits, and an automaton for the orders the agent loop keeps: the states a turn goes through, which
 events belong in which, and how calls are numbered and answered. It also says how each turn ended.
 */
module TurnEvents {
  import opened Wrappers

  datatype TurnState = Receiving | Planning | Thinking | Executing | Verifying | Responding
  datatype RequestSource = Cli | Overlay | Android | Voice | Autonomous | Unknown
  datatype BudgetStep = DroppedImages(count: nat) | TruncatedText(count: nat) | DroppedTurns(count: nat)

  // An LLM call's id is its task's id and its index within the task.
  datatype Event =
    | RequestStarted(task: nat, prompt: string, source: RequestSource)
    | StateChanged(task: nat, state: TurnState)
    | RequestCompleted(task: nat, reply: string)
    | RequestFailed(task: nat, error: string)
    | PlanCreated(task: nat, plan: string)
    | LlmStarted(task: nat, callIndex: nat, imageCount: nat)
    | LlmCompleted(task: nat, callIndex: nat)
    | LlmFailed(task: nat, callIndex: nat, error: string)
    | TokensUsed(task: nat, callIndex: nat, promptTokens: Option<nat>, completionTokens: Option<nat>)
    | ToolStarted(task: nat, toolIndex: nat, name: string, arguments: string)
    | ToolCompleted(task: nat, toolIndex: nat, name: string, output: string, imageCount: nat, arguments: string,
                    mutated: bool)
    | Retrying(task: nat, attempt: nat, error: string)
    | Cancelled(task: nat)
    | BudgetPressure(task: nat, step: BudgetStep, remainingEstimate: nat)
    | TranscriptCompacted(task: nat, turnsCompacted: nat)
    | AnsweredUnverified(task: nat)

  const OK := "ok"
  const ERROR := "error"
  const CANCELLED := "cancelled"
  const NO_TERMINAL_EVENT := "task ended without a terminal event"

  /** An LLM call that got an outcome, and a tool call that completed. */
  datatype LlmFact = LlmFact(callIndex: nat, input: Option<nat>, output: Option<nat>, error: Option<string>)
  datatype ToolFact = ToolFact(index: nat, name: string, arguments: string, output: string, mutated: bool)

  /** What a turn's events say about it. */
  datatype Facts = Facts(
    prompt: string, source: RequestSource, reply: Option<string>, calls: seq<LlmFact>, tools: seq<ToolFact>)

  /** How one turn ended, after how many LLM calls and tool calls, and what happened in it. */
  datatype Summary = Summary(
    task: nat, status: string, error: Option<string>, llmCalls: nat, toolCalls: nat, facts: Facts)

  datatype Phase =
    | Running
    // An LLM call without an outcome yet; it never gets one when it is cancelled.
    | Answering(index: nat)
    // A completed LLM call whose token counts come next.
    | Counting(index: nat)
    | Dispatching(index: nat, name: string, arguments: string)
    | Cancelling
    | Over(status: string, error: Option<string>)

  datatype Turn = Turn(
    task: nat, phase: Phase, state: Option<TurnState>, llmCalls: nat, toolCalls: nat, facts: Facts)

  datatype Monitor = Monitor(done: seq<Summary>, current: Option<Turn>, used: set<nat>)

  function Quiet(): Monitor {
    Monitor([], None, {})
  }

  function NewTurn(task: nat, prompt: string, source: RequestSource): Turn {
    Turn(task, Running, None, 0, 0, Facts(prompt, source, None, [], []))
  }

  function Conclude(t: Turn): Summary {
    match t.phase
    case Over(status, error) => Summary(t.task, status, error, t.llmCalls, t.toolCalls, t.facts)
    case Cancelling => Summary(t.task, CANCELLED, None, t.llmCalls, t.toolCalls, t.facts)
    case _ => Summary(t.task, ERROR, Some(NO_TERMINAL_EVENT), t.llmCalls, t.toolCalls, t.facts)
  }

  // Where a turn's method may have returned: over, without a context for its prompt, or on an error of the model.
  predicate Resting(t: Turn) {
    t.phase.Over? || (t.phase.Running? && (t.state == Some(Receiving) || t.state == Some(Thinking)))
  }

  /** The states a turn goes through. */
  predicate MayFollow(was: Option<TurnState>, state: TurnState) {
    match state
    case Receiving => was.None?
    case Planning => was == Some(Receiving)
    case Thinking => was.Some? && was != Some(Responding)
    case Executing | Verifying | Responding => was == Some(Thinking)
  }

  // In the rounds of the loop.
  predicate IsWorking(state: Option<TurnState>) {
    state == Some(Thinking) || state == Some(Executing) || state == Some(Verifying)
  }

  /** Which states an event belongs in. */
  predicate InPlace(t: Turn, e: Event) {
    match e
    case StateChanged(_, state) => MayFollow(t.state, state)
    case PlanCreated(_, _) => t.state == Some(Planning)
    // A plan is the turn's first call.
    case LlmStarted(_, i, _) => IsWorking(t.state) || (t.state == Some(Planning) && i == 1)
    case ToolStarted(_, _, _, _) => t.state == Some(Executing)
    case BudgetPressure(_, _, _) => IsWorking(t.state)
    case TranscriptCompacted(_, _) => IsWorking(t.state)
    case Retrying(_, _, _) => t.state == Some(Thinking)
    case AnsweredUnverified(_) => t.state == Some(Thinking)
    case RequestCompleted(_, _) => t.state == Some(Responding)
    case RequestFailed(_, _) => t.state == Some(Executing) || t.state == Some(Thinking)
    case Cancelled(_) => t.state.Some? && t.state != Some(Responding)
    case _ => true
  }

  function Within(t: Turn, e: Event): Option<Turn> {
    match t.phase
    case Over(_, _) => None
    case Cancelling =>
      if e.RequestFailed? && e.error == CANCELLED then Some(t.(phase := Over(CANCELLED, None))) else None
    case Counting(i) =>
      if e.TokensUsed? && e.callIndex == i then
        Some(WithCall(t, LlmFact(i, e.promptTokens, e.completionTokens, None)))
      else None
    case Dispatching(i, name, arguments) =>
      if e.ToolCompleted? && e.toolIndex == i && e.name == name && e.arguments == arguments then
        Some(WithTool(t, ToolFact(i, name, arguments, e.output, e.mutated)))
      else None
    case Answering(i) =>
      if e.LlmCompleted? then
        if e.callIndex == i then Some(t.(phase := Counting(i))) else None
      else if e.LlmFailed? then
        if e.callIndex == i then Some(WithCall(t, LlmFact(i, None, None, Some(e.error)))) else None
      else if InPlace(t, e) then AtLarge(t, e) else None
    case Running => if InPlace(t, e) then AtLarge(t, e) else None
  }

  // A call with its outcome, and the turn running on.
  function WithCall(t: Turn, call: LlmFact): Turn {
    t.(phase := Running, facts := t.facts.(calls := t.facts.calls + [call]))
  }

  function WithTool(t: Turn, tool: ToolFact): Turn {
    t.(phase := Running, facts := t.facts.(tools := t.facts.tools + [tool]))
  }

  // The events that can come whenever no call is being recorded.
  function AtLarge(t: Turn, e: Event): Option<Turn> {
    match e
    case RequestStarted(_, _, _) => None
    case LlmCompleted(_, _) => None
    case LlmFailed(_, _, _) => None
    case TokensUsed(_, _, _, _) => None
    case ToolCompleted(_, _, _, _, _, _, _) => None
    case LlmStarted(_, i, _) =>
      if i == t.llmCalls + 1 then Some(t.(phase := Answering(i), llmCalls := i)) else None
    case ToolStarted(_, i, name, arguments) =>
      if i == t.toolCalls + 1 then Some(t.(phase := Dispatching(i, name, arguments), toolCalls := i)) else None
    case RequestCompleted(_, reply) => Some(t.(phase := Over(OK, None), facts := t.facts.(reply := Some(reply))))
    case RequestFailed(_, error) => Some(t.(phase := Over(ERROR, Some(error))))
    case Cancelled(_) => Some(t.(phase := Cancelling))
    case StateChanged(_, state) => Some(t.(phase := Running, state := Some(state)))
    case _ => Some(t.(phase := Running))
  }

  function Observe(m: Monitor, e: Event): Option<Monitor> {
    if e.RequestStarted? then
      if e.task in m.used || (m.current.Some? && !Resting(m.current.value)) then None
      else
        var done := m.done + if m.current.Some? then [Conclude(m.current.value)] else [];
        Some(Monitor(done, Some(NewTurn(e.task, e.prompt, e.source)), m.used + {e.task}))
    else if m.current.None? || m.current.value.task != e.task then None
    else
      match Within(m.current.value, e)
      case Some(t) => Some(m.(current := Some(t)))
      case None => None
  }

  function Observed(trace: seq<Event>): Option<Monitor> {
    if trace == [] then Some(Quiet())
    else
      match Observed(trace[..|trace| - 1])
      case Some(m) => Observe(m, trace[|trace| - 1])
      case None => None
  }

  /** Any number of whole turns of the agent loop. */
  predicate IsTurns(trace: seq<Event>) {
    var m := Observed(trace);
    m.Some? && (m.value.current.Some? ==> Resting(m.value.current.value))
  }

  function Summaries(m: Monitor): seq<Summary> {
    m.done + if m.current.Some? then [Conclude(m.current.value)] else []
  }

  lemma {:induction false} ObservedAppend(trace: seq<Event>, e: Event)
    ensures Observed(trace + [e]) == match Observed(trace) case Some(m) => Observe(m, e) case None => None
  {
    assert (trace + [e])[..|trace|] == trace;
  }
}
