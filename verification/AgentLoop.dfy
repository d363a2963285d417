/**
 The agent's turn: plan, then let the model call tools until it answers, under limits on every axis. The model, the
 tools, cancellation and the computer's context are arbitrary.
 */
module AgentLoop {
  import opened Wrappers
  import opened Arithmetic
  import opened Prompt
  import opened ContextBudget
  import opened Transcripts
  import opened TurnEvents
  import opened TurnLogs
  import opened TurnExchanges
  import opened Questions

  const MAX_EMPTY_RESPONSES: nat := 3

  datatype LoopLimits = LoopLimits(
    maxToolCalls: nat, maxIdenticalRepeats: nat, maxConsecutiveToolFailures: nat, maxLlmRetries: nat)

  datatype TurnError =
    | Llm(error: LlmError) | Tool(text: string)
    | LoopDetected(limit: nat) | ToolCallLimitExceeded | EmptyResponse | TooManyConsecutiveToolFailures(limit: nat)
    | TurnCancelled

  type Answer = Result<string, TurnError>

  const LOOP_DETECTED := "loop detected"
  const TOO_MANY_FAILURES := "too many consecutive tool failures"
  const LIMIT_EXCEEDED := "tool call limit exceeded"
  const EMPTY_RESPONSE := "empty response"

  // ----- How a turn's result shows in the metrics.

  function StatusOf(r: Answer): string {
    match r
    case Ok(_) => OK
    case Err(e) => if e.TurnCancelled? then CANCELLED else ERROR
  }

  function ReasonOf(r: Answer): Option<string> {
    match r
    case Ok(_) => None
    case Err(e) =>
      match e
      case LoopDetected(_) => Some(LOOP_DETECTED)
      case TooManyConsecutiveToolFailures(_) => Some(TOO_MANY_FAILURES)
      case ToolCallLimitExceeded => Some(LIMIT_EXCEEDED)
      case EmptyResponse => Some(EMPTY_RESPONSE)
      case TurnCancelled => None
      case _ => Some(NO_TERMINAL_EVENT)
  }

  function ReplyOf(r: Answer): Option<string> {
    match r
    case Ok(text) => Some(text)
    case Err(_) => None
  }

  // ----- How turns end.

  // The purpose of a call made now.
  function PurposeOf(tally: Tally): Purpose {
    if tally.state == Some(Planning) then ForPlan else if tally.asking then ForAnswer else ForSummary
  }

  /** What was asked, how it ended, and what was recorded on the way. */
  datatype Ending = Ending(
    prompt: string, source: RequestSource, status: string, error: Option<string>, reply: Option<string>,
    llmCalls: nat, calls: seq<LlmFact>, tools: seq<ToolFact>)

  // How the turns of a trace ended, and how results and exchanges say they did.
  function EndingIn(s: Summary): Ending {
    Ending(s.facts.prompt, s.facts.source, s.status, s.error, s.facts.reply, s.llmCalls, s.facts.calls, s.facts.tools)
  }

  function EndingsIn(summaries: seq<Summary>): seq<Ending> {
    seq(|summaries|, i requires 0 <= i < |summaries| => EndingIn(summaries[i]))
  }

  function Endings(trace: seq<Event>): seq<Ending> {
    match Observed(trace)
    case Some(m) => EndingsIn(Summaries(m))
    case None => []
  }

  ghost predicate EndsAs(log: Log, endings: seq<Ending>) {
    forall trace | IsTraceOf(trace, log) :: Endings(trace) == endings
  }

  lemma {:induction false} EndsAsMeans(log: Log, endings: seq<Ending>)
    ensures EndsAs(log, endings) <==> Endings(log.Trace()) == endings
  {
    assert IsTraceOf(log.Trace(), log);
  }

  function EndingOf(input: string, source: RequestSource, r: Answer, e: Exchanges): Ending {
    Ending(input, source, StatusOf(r), ReasonOf(r), ReplyOf(r), |e.sent|, Recorded(e.sent), ToolFactsOf(e.dispatched))
  }

  function EndingsOf(
    inputs: seq<string>, source: RequestSource, results: seq<Answer>, exchanges: seq<Exchanges>): seq<Ending>
    requires |inputs| == |results| == |exchanges|
  {
    seq(|results|, i requires 0 <= i < |results| => EndingOf(inputs[i], source, results[i], exchanges[i]))
  }

  lemma {:induction false} EndingsAppend(summaries: seq<Summary>, s: Summary)
    ensures EndingsIn(summaries + [s]) == EndingsIn(summaries) + [EndingIn(s)]
  {
  }

  // The events that report how an LLM call went.
  function OutcomeEvents(task: nat, index: nat, outcome: LlmCallOutcome): seq<Event> {
    match outcome
    case Finished(r) => [LlmCompleted(task, index), TokensUsed(task, index, r.promptTokens, r.completionTokens)]
    case Broke(error) => [LlmFailed(task, index, ErrorText(error))]
    case Abandoned => []
  }

  // What follows the context.
  const CONTEXT_NOTE := "\n\nUse this context when generating commands."

  /** The computer's context and any remembered facts before the transcript. */
  function PromptMessages(context: string, facts: string, transcript: seq<Message>): seq<Message> {
    [SystemMessage("Computer context:\n" + context + CONTEXT_NOTE)]
    + (if facts == "" then [] else [SystemMessage("Remembered facts:\n" + facts)])
    + transcript
  }

  // The plan in a response, if there is one.
  function PlanIn(outcome: LlmCallOutcome): Option<string> {
    if outcome.Finished? && outcome.response.text.Some? && !IsBlank(outcome.response.text.value) then
      outcome.response.text
    else None
  }

  // ----- The loop's variables, and what they know about the turn so far.

  datatype LoopVars = LoopVars(
    lastCall: Option<ToolCall>, repeats: nat, toolCalls: nat, empties: nat, failures: nat, unverified: bool,
    gateUsed: bool)

  function AtLeastOne(n: nat): nat {
    if n == 0 then 1 else n
  }

  predicate LastMutated(tally: Tally) {
    tally.mutated != [] && tally.mutated[|tally.mutated| - 1]
  }

  function Last(calls: seq<ToolCall>): Option<ToolCall> {
    if calls == [] then None else Some(calls[|calls| - 1])
  }

  // While the turn goes on, every limit on tool calls is still ahead.
  ghost predicate CallsOk(limits: LoopLimits, vars: LoopVars, tally: Tally, dispatched: seq<Dispatched>) {
    && vars.toolCalls == |dispatched| == |tally.calls| < AtLeastOne(limits.maxToolCalls)
    && vars.lastCall == Last(tally.calls) && RunIs(tally.calls, vars.repeats)
    && RunsBelow(tally.calls, AtLeastOne(limits.maxIdenticalRepeats))
    && TrailingIs(RefusalsOf(dispatched), vars.failures)
    && vars.failures < AtLeastOne(limits.maxConsecutiveToolFailures)
    && FailuresWithin(RefusalsOf(dispatched), AtLeastOne(limits.maxConsecutiveToolFailures))
    && vars.unverified == LastMutated(tally)
  }

  // What holds of a turn's tool calls whenever it ends.
  ghost predicate CallBounds(limits: LoopLimits, tally: Tally, dispatched: seq<Dispatched>) {
    && |dispatched| == |tally.calls| <= AtLeastOne(limits.maxToolCalls)
    && RunsBelow(tally.calls, AtLeastOne(limits.maxIdenticalRepeats))
    && FailuresWithin(RefusalsOf(dispatched), AtLeastOne(limits.maxConsecutiveToolFailures))
  }

  predicate GateOk(vars: LoopVars, tally: Tally) {
    tally.verifying == (if vars.gateUsed then 1 else 0) && tally.unverified == 0
  }

  // LLM calls one round can make: a summary, the first attempt and its retries.
  function CallsPerRound(limits: LoopLimits): nat {
    limits.maxLlmRetries + 2
  }

  predicate RoundsOk(limits: LoopLimits, vars: LoopVars, tally: Tally) {
    && vars.empties < MAX_EMPTY_RESPONSES
    && tally.thinking <= 3 * vars.toolCalls + vars.empties + tally.verifying
    && tally.llmCalls <= 1 + tally.thinking * CallsPerRound(limits)
  }

  function MaxRounds(limits: LoopLimits): nat {
    3 * AtLeastOne(limits.maxToolCalls) + 1
  }

  // What holds of a turn's rounds whenever it ends.
  predicate RoundBounds(limits: LoopLimits, tally: Tally) {
    && tally.verifying <= 1 && tally.thinking <= MaxRounds(limits)
    && tally.llmCalls <= 1 + MaxRounds(limits) * CallsPerRound(limits)
  }

  /** An answer that rests on an unchecked change was nudged once and marked; no other turn is marked. */
  predicate VerificationOk(r: Answer, tally: Tally) {
    if r.Ok? && LastMutated(tally) then tally.unverified == 1 && tally.verifying == 1 else tally.unverified == 0
  }

  // A prompt keeps the protected prefix, and fits unless it is nothing else.
  predicate PromptOk(p: seq<Message>, prefix: seq<Message>, available: nat, cost: Cost) {
    prefix <= p && (Estimate(p, cost) <= available || p == prefix)
  }

  /** A prompt that is more than its prefix leaves the model room for its output. */
  lemma {:induction false} RoomIsLeft(p: seq<Message>, prefix: seq<Message>, budget: Budget, cost: Cost)
    requires PromptOk(p, prefix, budget.AvailableTokens(), cost)
    ensures p == prefix || Estimate(p, cost) == 0 || Estimate(p, cost) + budget.outputReserve <= budget.maxTokens
  {
  }

  // Of everything the model was sent, what asked it for an answer.
  predicate PromptsOk(sent: seq<LlmCall>, prefix: seq<Message>, available: nat, cost: Cost) {
    forall i | 0 <= i < |sent| :: sent[i].purpose.ForAnswer? ==> PromptOk(sent[i].messages, prefix, available, cost)
  }

  // The calls from `n` on ask for an answer to these very messages.
  predicate AllAsk(sent: seq<LlmCall>, n: nat, messages: seq<Message>) {
    forall i | n <= i < |sent| :: sent[i].purpose.ForAnswer? && sent[i].messages == messages
  }

  // Only the tool calls differ.
  predicate SameBut(was: Tally, tally: Tally) {
    tally == was.(calls := tally.calls, mutated := tally.mutated)
  }

  /** What fitting a prompt did. */
  datatype FitReport = FitReport(images: nat, truncated: nat, compacted: Option<nat>, dropped: nat)

  // The variables when a call is about to be made, and when it has been.
  function Counted(vars: LoopVars, call: ToolCall): LoopVars {
    vars.(repeats := if vars.lastCall == Some(call) then vars.repeats + 1 else 1, lastCall := Some(call))
  }

  function AfterCall(vars: LoopVars, call: ToolCall, fails: bool, mutated: bool): LoopVars {
    Counted(vars, call).(toolCalls := vars.toolCalls + 1, empties := 0,
                         failures := if fails then vars.failures + 1 else 0, unverified := mutated)
  }

  // A call that passed the check for loops keeps every bound, and the turn can go on unless it reached a limit.
  lemma {:induction false} CallCounted(
      limits: LoopLimits, vars: LoopVars, tally: Tally, dispatched: seq<Dispatched>, d: Dispatched)
    requires CallsOk(limits, vars, tally, dispatched) && Counted(vars, d.call).repeats < limits.maxIdenticalRepeats
    ensures var mutated := OutcomeOf(d.result).mutated;
            var next := AfterCall(vars, d.call, d.result.Err?, mutated);
            var tally' := tally.(calls := tally.calls + [d.call], mutated := tally.mutated + [mutated]);
            && CallBounds(limits, tally', dispatched + [d])
            && TrailingIs(RefusalsOf(dispatched + [d]), next.failures)
            && ((next.failures < AtLeastOne(limits.maxConsecutiveToolFailures) &&
                 next.toolCalls < AtLeastOne(limits.maxToolCalls))
                ==> CallsOk(limits, next, tally', dispatched + [d]))
  {
    RepeatsKept(limits, vars, tally, dispatched, d.call);
    RefusalsKept(limits, vars, tally, dispatched, d);
  }

  lemma {:induction false} RepeatsKept(
      limits: LoopLimits, vars: LoopVars, tally: Tally, dispatched: seq<Dispatched>, call: ToolCall)
    requires CallsOk(limits, vars, tally, dispatched)
    ensures RunIs(tally.calls + [call], Counted(vars, call).repeats)
    ensures Counted(vars, call).repeats < limits.maxIdenticalRepeats ==>
              RunsBelow(tally.calls + [call], AtLeastOne(limits.maxIdenticalRepeats))
  {
    RunAppend(tally.calls, call);
    RunsMean(tally.calls, vars.repeats, AtLeastOne(limits.maxIdenticalRepeats));
    RunsMean(tally.calls + [call], Counted(vars, call).repeats, AtLeastOne(limits.maxIdenticalRepeats));
  }

  lemma {:induction false} RefusalsKept(
      limits: LoopLimits, vars: LoopVars, tally: Tally, dispatched: seq<Dispatched>, d: Dispatched)
    requires CallsOk(limits, vars, tally, dispatched)
    ensures TrailingIs(RefusalsOf(dispatched + [d]), if d.result.Err? then vars.failures + 1 else 0)
    ensures FailuresWithin(RefusalsOf(dispatched + [d]), AtLeastOne(limits.maxConsecutiveToolFailures))
  {
    var failed, fails := RefusalsOf(dispatched), d.result.Err?;
    assert RefusalsOf(dispatched + [d]) == failed + [fails];
    TrailingAppend(failed, fails);
    FailuresMean(failed, vars.failures, AtLeastOne(limits.maxConsecutiveToolFailures));
    FailuresMean(failed + [fails], if fails then vars.failures + 1 else 0,
                 AtLeastOne(limits.maxConsecutiveToolFailures));
  }

  // The repeats counted for a call not yet dispatched are the run it would make.
  lemma {:induction false} RepeatsCounted(
      limits: LoopLimits, vars: LoopVars, tally: Tally, dispatched: seq<Dispatched>, call: ToolCall)
    requires CallsOk(limits, vars, tally, dispatched)
    ensures RunReaches(tally.calls + [call], Counted(vars, call).repeats)
  {
    RepeatsKept(limits, vars, tally, dispatched, call);
    RunsMean(tally.calls + [call], Counted(vars, call).repeats, 0);
    ReachesMean(tally.calls + [call], [], Counted(vars, call).repeats);
  }

  /**
   Read as blocks: no `maxIdenticalRepeats` equal calls were dispatched one after another, and the dispatcher never
   refused more than `maxConsecutiveToolFailures` (at least one) in a row.
   */
  lemma {:induction false} LimitsMean(limits: LoopLimits, tally: Tally, dispatched: seq<Dispatched>)
    requires CallBounds(limits, tally, dispatched)
    ensures var n := AtLeastOne(limits.maxIdenticalRepeats);
            forall i | 0 <= i <= |tally.calls| - n :: !EqualBlock(tally.calls, i, n)
    ensures var n := AtLeastOne(limits.maxConsecutiveToolFailures) + 1;
            forall i | 0 <= i <= |dispatched| - n :: SomeAccepted(dispatched, i, n)
  {
    var failed := RefusalsOf(dispatched);
    RunsMean(tally.calls, 0, AtLeastOne(limits.maxIdenticalRepeats));
    FailuresMean(failed, 0, AtLeastOne(limits.maxConsecutiveToolFailures));
    LongestRunMeans(tally.calls, AtLeastOne(limits.maxIdenticalRepeats));
    var n := AtLeastOne(limits.maxConsecutiveToolFailures) + 1;
    LongestTrueMeans(failed, n);
    forall i | 0 <= i <= |dispatched| - n ensures SomeAccepted(dispatched, i, n) {
      NotAllRefused(dispatched, i, n);
    }
  }

  predicate SomeAccepted(dispatched: seq<Dispatched>, i: nat, n: nat) {
    i + n <= |dispatched| && exists k | i <= k < i + n :: dispatched[k].result.Ok?
  }

  lemma {:induction false} NotAllRefused(dispatched: seq<Dispatched>, i: nat, n: nat)
    requires i + n <= |dispatched| && !AllTrue(RefusalsOf(dispatched), i, n)
    ensures SomeAccepted(dispatched, i, n)
  {
    var k :| i <= k < i + n && !RefusalsOf(dispatched)[k];
    assert dispatched[k].result.Ok?;
  }

  lemma {:induction false} EndBounds(limits: LoopLimits, vars: LoopVars, tally: Tally, dispatched: seq<Dispatched>)
    requires CallsOk(limits, vars, tally, dispatched)
    ensures CallBounds(limits, tally, dispatched)
  {
  }

  // What asking the model does to the counts: nothing when cancelled first, and otherwise one more round.
  predicate Asked(limits: LoopLimits, was: Tally, tally: Tally) {
    || tally == was
    || (tally == was.(thinking := was.thinking + 1, llmCalls := tally.llmCalls, state := Some(Thinking),
                      pressed := tally.pressed) &&
        OneRoundMore(limits, was, tally))
  }

  predicate OneRoundMore(limits: LoopLimits, was: Tally, tally: Tally) {
    tally.thinking == was.thinking + 1 && tally.llmCalls <= was.llmCalls + CallsPerRound(limits)
  }

  // The round under way is the last one at most.
  lemma {:induction false} LastRound(limits: LoopLimits, vars: LoopVars, was: Tally, tally: Tally)
    requires RoundsOk(limits, vars, was) && vars.toolCalls < AtLeastOne(limits.maxToolCalls) && was.verifying <= 1
    requires tally.verifying <= 1
    requires OneRoundMore(limits, was, tally) || (tally.thinking == was.thinking && tally.llmCalls == was.llmCalls)
    ensures RoundBounds(limits, tally)
  {
    var c := CallsPerRound(limits);
    assert tally.llmCalls <= 1 + tally.thinking * c by {
      if tally.thinking == was.thinking + 1 {
        assert (was.thinking + 1) * c == was.thinking * c + c;
      }
    }
    assert tally.thinking * c <= MaxRounds(limits) * c by {
      if tally.thinking < MaxRounds(limits) {
        MulMonotone(c, tally.thinking, MaxRounds(limits));
      }
    }
  }

  class Assistant {
    const limits: LoopLimits
    const budget: Budget
    const cost: Cost
    const planningEnabled: bool
    const transcript: Transcript
    // The current task, the next one, and the current task's last LLM call.
    var task: nat
    var nextTask: nat
    var nextCallIndex: nat
    // Raised by the user at any time, and lowered only between turns.
    var cancelFlag: bool
    ghost var log: Log
    // Everything the current turn sent to the model and to the dispatcher, with what came back.
    ghost var sent: seq<LlmCall>
    ghost var dispatched: seq<Dispatched>
    // The two in one, in the order they were made; and the tool calls the model asked for.
    ghost var history: seq<Exchange>
    ghost var requested: seq<ToolCall>
    // The protected prefix of the current turn's prompt.
    ghost var preamble: seq<Message>
    // What the current turn was asked, and by whom.
    ghost var asked: string
    ghost var askedBy: RequestSource

    ghost predicate Numbered()
      reads this
    {
      forall u | u in log.monitor.used :: u < nextTask
    }

    /** Between turns. */
    ghost predicate Valid()
      reads this, transcript
    {
      && transcript.Valid() && Good(log) && Numbered()
      && (log.monitor.current.Some? ==> Resting(log.monitor.current.value))
    }

    ghost predicate InTurn()
      reads this
    {
      && Live(log, task) && Numbered() && Ours() && Told() && nextCallIndex == log.tally.llmCalls
      && (cancelFlag || NoneAbandoned(sent))
    }

    // The turn in the log is the one that was asked for.
    ghost predicate Ours()
      reads this
    {
      log.monitor.current.Some? && FactsIn(log).prompt == asked && FactsIn(log).source == askedBy
    }

    // The events tell of every exchange, and of nothing else.
    ghost predicate Told()
      reads this
    {
      && log.monitor.current.Some? && |sent| == log.tally.llmCalls
      && SentSays(sent, requested, FactsIn(log).calls)
      && DispatchedSays(dispatched, log.tally.calls, log.tally.mutated, FactsIn(log).tools)
      && Interleaves(history, sent, dispatched)
    }

    // What the prompt stands at, and that every question so far was right.
    ghost predicate StandsAt(messages: seq<Message>)
      reads this
    {
      Stands(history, preamble, messages, log.tally.pressed, budget, cost)
    }

    ghost predicate QuestionsRight()
      reads this
    {
      AskedRightly(history, preamble, log.tally.pressed, budget, cost)
    }

    /** The turn has ended, in the log, the way `r` says. */
    ghost predicate Over(r: Answer)
      reads this
    {
      Ended(log, task, StatusOf(r), ReasonOf(r), ReplyOf(r)) && Numbered() && Ours() && Told()
    }

    constructor (limits: LoopLimits, budget: Budget, cost: Cost, planningEnabled: bool, system: Message)
      ensures Valid() && log == EmptyLog() && fresh(transcript) && transcript.messages == [system]
      ensures this.limits == limits && this.budget == budget && this.cost == cost
    {
      this.limits, this.budget, this.cost, this.planningEnabled := limits, budget, cost, planningEnabled;
      transcript := new Transcript(system);
      task, nextTask, nextCallIndex, cancelFlag := 0, 0, 0, false;
      log, sent, dispatched, requested, asked, askedBy := EmptyLog(), [], [], [], "", Cli;
      history, preamble := [], [];
    }

    // ----- Events.

    method Emit(e: Event)
      requires Good(log) && Observe(log.monitor, e).Some?
      modifies this`log
      ensures Good(log) && log == Logged(old(log), e)
    {
      LoggedGood(log, e);
      log := Logged(log, e);
    }

    // An event that neither starts a call nor ends the turn.
    method Note(e: Event)
      requires InTurn() && IsPlain(e) && e.task == task && InPlace(log.monitor.current.value, e)
      modifies this`log
      ensures InTurn() && log.monitor.current.value.phase.Running?
      ensures log.tally == Tallied(old(log.tally), e) && log.past == old(log.past)
      ensures log.turn == old(log.turn) + [e]
    {
      PlainAccepted(log, task, e);
      PlainObserved(log.monitor, e);
      Emit(e);
    }

    method SetState(state: TurnState)
      requires InTurn() && MayFollow(log.tally.state, state)
      modifies this`log
      ensures InTurn() && log.monitor.current.value.phase.Running?
      ensures log.tally == Tallied(old(log.tally), StateChanged(task, state)) && log.past == old(log.past)
      ensures log.turn == old(log.turn) + [StateChanged(task, state)]
    {
      Note(StateChanged(task, state));
    }

    method CancelTurn() returns (error: TurnError)
      requires InTurn() && log.tally.state.Some? && log.tally.state != Some(Responding) && !log.tally.asking
      modifies this`log
      ensures error == TurnCancelled && Over(Err(error)) && log.tally == old(log.tally) && log.past == old(log.past)
      ensures log.turn == old(log.turn) + [Cancelled(task), RequestFailed(task, CANCELLED)]
    {
      CancelBegins(log, task);
      Emit(Cancelled(task));
      CancelEnds(log, task);
      Emit(RequestFailed(task, CANCELLED));
      error := TurnCancelled;
    }

    method Abort(reason: string, error: TurnError)
      requires InTurn() && !log.tally.asking
      requires log.tally.state == Some(Executing) || log.tally.state == Some(Thinking)
      requires StatusOf(Err(error)) == ERROR && ReasonOf(Err(error)) == Some(reason)
      modifies this`log
      ensures Over(Err(error)) && log.tally == old(log.tally) && log.past == old(log.past)
      ensures log.turn == old(log.turn) + [RequestFailed(task, reason)]
    {
      TurnFails(log, task, reason);
      Emit(RequestFailed(task, reason));
    }

    // The flag: the user may have raised it since it was last looked at.
    method IsCancelled() returns (cancelled: bool)
      modifies this`cancelFlag
      ensures cancelled == cancelFlag && (old(cancelFlag) ==> cancelFlag)
    {
      var raised: bool := *;
      if raised {
        cancelFlag := true;
      }
      cancelled := cancelFlag;
    }

    // A turn that finds the flag down has abandoned no call so far.
    method CheckCancelled() returns (cancelled: bool)
      requires InTurn()
      modifies this`cancelFlag
      ensures InTurn() && cancelled == cancelFlag && (!cancelled ==> NoneAbandoned(sent))
    {
      cancelled := IsCancelled();
    }

    // ----- LLM calls.

    // Polls for the background call's result, giving up on it when cancelled.
    method CallLlm(messages: seq<Message>, ghost purpose: Purpose) returns (outcome: LlmCallOutcome)
      modifies this`sent, this`history, this`cancelFlag
      ensures sent == old(sent) + [LlmCall(messages, purpose, outcome)]
      ensures history == old(history) + [Called(LlmCall(messages, purpose, outcome))]
      ensures old(cancelFlag) || outcome.Abandoned? ==> cancelFlag
    {
      var response: LlmResponse, error: LlmError := *, *;
      if * {
        outcome := Finished(response);
      } else if * {
        outcome := Broke(error);
      } else {
        outcome := Broke(Request("LLM worker thread stopped without a result"));
      }
      var polls: int := *;
      while polls > 0
        invariant sent == old(sent) && history == old(history) && (old(cancelFlag) ==> cancelFlag)
      {
        polls := polls - 1;
        var cancelled := IsCancelled();
        if cancelled {
          outcome := Abandoned;
          break;
        }
      }
      sent := sent + [LlmCall(messages, purpose, outcome)];
      history := history + [Called(LlmCall(messages, purpose, outcome))];
    }

    /** Every LLM call is numbered and reported here, whoever makes it; an abandoned one gets no outcome event. */
    method InstrumentedCallLlm(messages: seq<Message>) returns (outcome: LlmCallOutcome)
      requires InTurn() && MayCall(log.tally)
      modifies this`log, this`nextCallIndex, this`sent, this`history, this`requested, this`cancelFlag
      ensures InTurn() && log.past == old(log.past)
      ensures log.tally == old(log.tally).(llmCalls := old(log.tally.llmCalls) + 1, asking := false)
      ensures nextCallIndex == old(nextCallIndex) + 1
      ensures log.turn == old(log.turn) + [LlmStarted(task, nextCallIndex, TotalImages(messages))]
                          + OutcomeEvents(task, nextCallIndex, outcome)
      ensures sent == old(sent) + [LlmCall(messages, PurposeOf(old(log.tally)), outcome)]
      ensures history == old(history) + [Called(sent[|sent| - 1])]
      ensures requested == old(requested) + RequestedBy(sent[|sent| - 1])
      ensures !outcome.Abandoned? ==> log.monitor.current.value.phase.Running?
    {
      ghost var purpose := PurposeOf(log.tally);
      ghost var before, asked, facts, exchanges := sent, requested, FactsIn(log), history;
      StartCall(messages);
      outcome := CallLlm(messages, purpose);
      ReportOutcome(outcome);
      SentAppend(before, LlmCall(messages, purpose, outcome), asked, facts.calls);
      InterleavesAppend(exchanges, before, dispatched, Called(LlmCall(messages, purpose, outcome)));
      requested := requested + RequestedBy(LlmCall(messages, purpose, outcome));
    }

    method StartCall(messages: seq<Message>)
      requires InTurn() && MayCall(log.tally)
      modifies this`log, this`nextCallIndex
      ensures Live(log, task) && Numbered() && Ours() && log.past == old(log.past)
      ensures log.tally == old(log.tally).(llmCalls := nextCallIndex, asking := false)
      ensures nextCallIndex == old(nextCallIndex) + 1 && log.monitor.current.value.phase == Answering(nextCallIndex)
      ensures FactsIn(log) == old(FactsIn(log))
      ensures log.turn == old(log.turn) + [LlmStarted(task, nextCallIndex, TotalImages(messages))]
    {
      nextCallIndex := nextCallIndex + 1;
      var images := TotalImages(messages);
      CallStarts(log, task, images);
      Emit(LlmStarted(task, nextCallIndex, images));
    }

    method ReportOutcome(outcome: LlmCallOutcome)
      requires Live(log, task) && Numbered() && Ours() && !log.tally.asking
      requires nextCallIndex == log.tally.llmCalls && log.monitor.current.value.phase == Answering(nextCallIndex)
      modifies this`log
      ensures Live(log, task) && Numbered() && Ours() && log.past == old(log.past) && log.tally == old(log.tally)
      ensures log.turn == old(log.turn) + OutcomeEvents(task, nextCallIndex, outcome)
      ensures FactsIn(log)
              == old(FactsIn(log)).(calls := old(FactsIn(log)).calls + OutcomeFacts(nextCallIndex, outcome))
      ensures !outcome.Abandoned? ==> log.monitor.current.value.phase.Running?
    {
      match outcome {
        case Finished(response) =>
          CallAnswered(log, task, response.promptTokens, response.completionTokens);
          Emit(LlmCompleted(task, nextCallIndex));
          Emit(TokensUsed(task, nextCallIndex, response.promptTokens, response.completionTokens));
        case Broke(error) =>
          var text := ErrorText(error);
          CallFails(log, task, text);
          Emit(LlmFailed(task, nextCallIndex, text));
        case Abandoned =>
      }
    }

    /** At most one attempt and `maxLlmRetries` more, all with the same messages. */
    method GenerateWithRetry(messages: seq<Message>, ghost stood: seq<Message>, ghost was: nat)
        returns (r: Result<LlmResponse, TurnError>)
      requires InTurn() && log.tally.state == Some(Thinking) && log.tally.asking && OnlySummaryAbandoned(sent)
      requires MayAsk(messages, stood, was)
      modifies this`log, this`nextCallIndex, this`sent, this`history, this`requested, this`cancelFlag
      ensures log.past == old(log.past)
      ensures log.tally == old(log.tally).(llmCalls := log.tally.llmCalls, asking := false)
      ensures log.tally.llmCalls <= old(log.tally.llmCalls) + limits.maxLlmRetries + 1
      ensures SentUntil(old(sent), sent, messages) && AbandonedLate(sent)
      ensures r.Ok? ==> InTurn() && LastAnswer(sent) == Some(r.value) && requested == old(requested) + r.value.toolCalls
      ensures r.Err? ==> Over(Err(r.error)) && GaveUp(r.error) && requested == old(requested)
      ensures r.Ok? ==> StandsNudged(messages, r.value)
      ensures r.Err? ==> QuestionsRight()
      // A failed request, the only failure to be tried again, is the result only when the retries are used up.
      ensures r.Err? && r.error.Llm? && r.error.error.Request? ==>
                log.tally.llmCalls == old(log.tally.llmCalls) + limits.maxLlmRetries + 1
    {
      var attempt := 0;
      ghost var s, w, before, tally := stood, was, sent, log.tally;
      while true
        invariant InTurn() && attempt <= limits.maxLlmRetries && log.past == old(log.past)
        invariant log.tally == tally.(llmCalls := tally.llmCalls + attempt)
        invariant SentInVain(before, sent, messages) && OnlySummaryAbandoned(sent)
        invariant requested == old(requested) && MayAsk(messages, s, w)
        decreases limits.maxLlmRetries - attempt
      {
        ghost var now := sent;
        var done := Attempt(messages, attempt, s, w);
        SentOnceMore(before, now, sent, messages);
        if done.Some? {
          return done.value;
        }
        s, w, attempt := messages, log.tally.pressed, attempt + 1;
      }
    }

    // Nothing has been sent since but these very messages, for an answer.
    ghost predicate SentOnly(before: seq<LlmCall>, now: seq<LlmCall>, messages: seq<Message>) {
      before <= now && AllAsk(now, |before|, messages)
    }

    // And every time, or every time but the last, the request failed.
    ghost predicate SentInVain(before: seq<LlmCall>, now: seq<LlmCall>, messages: seq<Message>) {
      SentOnly(before, now, messages) && AllRetried(now, |before|, |now|)
    }

    ghost predicate SentUntil(before: seq<LlmCall>, now: seq<LlmCall>, messages: seq<Message>) {
      SentOnly(before, now, messages) && |before| < |now| && AllRetried(now, |before|, |now| - 1)
    }

    ghost predicate AllRetried(calls: seq<LlmCall>, from: nat, to: nat) {
      to <= |calls| && forall i | from <= i < to :: calls[i].outcome.Broke? && calls[i].outcome.error.Request?
    }

    lemma {:induction false} SentOnceMore(
        before: seq<LlmCall>, was: seq<LlmCall>, now: seq<LlmCall>, messages: seq<Message>)
      requires SentInVain(before, was, messages) && |now| == |was| + 1 && now[..|was|] == was
      requires now[|was|].purpose.ForAnswer? && now[|was|].messages == messages
      ensures SentUntil(before, now, messages)
      ensures now[|was|].outcome.Broke? && now[|was|].outcome.error.Request? ==> SentInVain(before, now, messages)
    {
      assert before == was[..|before|] == now[..|before|];
      forall i | |before| <= i < |was| ensures now[i] == was[i] {
      }
    }

    // One attempt, and what it came to.
    method Attempt(messages: seq<Message>, attempt: nat, ghost stood: seq<Message>, ghost was: nat)
        returns (done: Option<Result<LlmResponse, TurnError>>)
      requires InTurn() && log.tally.state == Some(Thinking) && log.tally.asking && OnlySummaryAbandoned(sent)
      requires MayAsk(messages, stood, was) && attempt <= limits.maxLlmRetries
      modifies this`log, this`nextCallIndex, this`sent, this`history, this`requested, this`cancelFlag
      ensures log.past == old(log.past)
      ensures log.tally == old(log.tally).(llmCalls := old(log.tally.llmCalls) + 1, asking := done.None?)
      ensures |sent| == |old(sent)| + 1 && sent[..|old(sent)|] == old(sent)
      ensures sent[|old(sent)|].purpose.ForAnswer? && sent[|old(sent)|].messages == messages && AbandonedLate(sent)
      ensures done.None? ==> InTurn() && OnlySummaryAbandoned(sent) && attempt < limits.maxLlmRetries
      ensures done.None? ==>
                sent[|old(sent)|].outcome.Broke? && sent[|old(sent)|].outcome.error.Request?
      ensures done.None? ==> requested == old(requested) && MayAsk(messages, messages, log.tally.pressed)
      ensures done.Some? && done.value.Ok? ==>
                InTurn() && LastAnswer(sent) == Some(done.value.value) && StandsNudged(messages, done.value.value) &&
                requested == old(requested) + done.value.value.toolCalls
      ensures done.Some? && done.value.Err? ==>
                Over(Err(done.value.error)) && GaveUp(done.value.error) && requested == old(requested) &&
                QuestionsRight()
      ensures done.Some? && done.value.Err? && done.value.error.Llm? && done.value.error.error.Request? ==>
                attempt == limits.maxLlmRetries
    {
      var outcome := Generate(messages, stood, was);
      done := SettleOrRetry(outcome, attempt);
    }

    // What an attempt came to: a response, a cancelled turn, an error to give up on, or one more attempt.
    method SettleOrRetry(outcome: LlmCallOutcome, attempt: nat) returns (done: Option<Result<LlmResponse, TurnError>>)
      requires InTurn() && log.tally.state == Some(Thinking) && !log.tally.asking && attempt <= limits.maxLlmRetries
      requires outcome.Broke? ==> log.monitor.current.value.phase.Running? && GaveUp(Llm(outcome.error))
      requires outcome.Abandoned? ==> cancelFlag
      modifies this`log, this`cancelFlag
      ensures log.past == old(log.past) && log.tally == old(log.tally).(asking := done.None?)
      ensures done.None? ==>
                outcome.Broke? && outcome.error.Request? && InTurn() && NoneAbandoned(sent) &&
                attempt < limits.maxLlmRetries
      ensures done.Some? && done.value.Ok? ==> InTurn() && outcome == Finished(done.value.value)
      ensures done.Some? && done.value.Err? ==>
                !outcome.Finished? && Over(Err(done.value.error)) && GaveUp(done.value.error)
      ensures done.Some? && done.value.Err? && done.value.error.Llm? && done.value.error.error.Request? ==>
                attempt == limits.maxLlmRetries
    {
      match outcome {
        case Finished(response) =>
          done := Some(Ok(response));
        case Abandoned =>
          var e := CancelTurn();
          done := Some(Err(e));
        case Broke(error) =>
          var stop := GiveUpOrRetry(error, attempt);
          done := match stop case Some(e) => Some(Err(e)) case None => None;
      }
    }

    // `generate`: one call for an answer.
    method Generate(messages: seq<Message>, ghost stood: seq<Message>, ghost was: nat)
        returns (outcome: LlmCallOutcome)
      requires InTurn() && log.tally.state == Some(Thinking) && log.tally.asking && OnlySummaryAbandoned(sent)
      requires MayAsk(messages, stood, was)
      modifies this`log, this`nextCallIndex, this`sent, this`history, this`requested, this`cancelFlag
      ensures InTurn() && log.past == old(log.past) && AbandonedLate(sent)
      ensures log.tally == old(log.tally).(llmCalls := old(log.tally.llmCalls) + 1, asking := false)
      ensures sent == old(sent) + [LlmCall(messages, ForAnswer, outcome)]
      ensures outcome.Finished? ==>
                LastAnswer(sent) == Some(outcome.response) && requested == old(requested) + outcome.response.toolCalls
      ensures !outcome.Finished? ==> requested == old(requested)
      ensures outcome.Broke? ==> log.monitor.current.value.phase.Running? && GaveUp(Llm(outcome.error))
      ensures outcome.Abandoned? ==> cancelFlag
      ensures outcome.Finished? ==> StandsNudged(messages, outcome.response)
      ensures QuestionsRight() && (!outcome.Finished? ==> MayAsk(messages, messages, log.tally.pressed))
    {
      ghost var before := history;
      outcome := InstrumentedCallLlm(messages);
      AskedOnce(before, LlmCall(messages, ForAnswer, outcome), stood, was);
    }

    // The prompt is what stood, fitted; and nothing was cut that has not been reported.
    ghost predicate MayAsk(messages: seq<Message>, stood: seq<Message>, was: nat)
      reads this
    {
      && Stands(history, preamble, stood, was, budget, cost)
      && was <= log.tally.pressed && (was == log.tally.pressed ==> messages == stood)
      && messages == Fitted(stood, |preamble|, SummaryIn(history), budget, cost)
      && PromptOk(messages, preamble, budget.AvailableTokens(), cost)
    }

    // The question is in the history, and could be asked again.
    lemma {:induction false} AskedOnce(before: seq<Exchange>, c: LlmCall, stood: seq<Message>, was: nat)
      requires Stands(before, preamble, stood, was, budget, cost) && history == before + [Called(c)]
      requires was <= log.tally.pressed && (was == log.tally.pressed ==> c.messages == stood) && c.purpose.ForAnswer?
      requires c.messages == Fitted(stood, |preamble|, SummaryIn(before), budget, cost)
      requires PromptOk(c.messages, preamble, budget.AvailableTokens(), cost)
      ensures QuestionsRight() && (c.outcome.Finished? ==> StandsNudged(c.messages, c.outcome.response))
      ensures !c.outcome.Finished? ==> MayAsk(c.messages, c.messages, log.tally.pressed)
    {
      var added := c.messages + AddedBy(Called(c));
      StandsAfterQuestion(before, c, preamble, stood, was, log.tally.pressed, budget, cost);
      StandsAsked(history, preamble, added, log.tally.pressed, budget, cost);
      FittedAlready(c.messages, |preamble|, SummaryIn(history), budget, cost);
      if c.outcome.Finished? {
        StandsNudgedMeans(c.messages, c.outcome.response);
      } else {
        assert added == c.messages;
      }
    }

    // After a failed attempt: the error, a cancellation, or another attempt announced.
    method GiveUpOrRetry(error: LlmError, attempt: nat) returns (stop: Option<TurnError>)
      requires InTurn() && log.tally.state == Some(Thinking) && !log.tally.asking && GaveUp(Llm(error))
      requires log.monitor.current.value.phase.Running? && attempt <= limits.maxLlmRetries
      modifies this`log, this`cancelFlag
      ensures log.past == old(log.past)
      ensures log.tally == old(log.tally).(asking := stop.None?)
      ensures stop.None? ==>
                InTurn() && NoneAbandoned(sent) && error.Request? && attempt < limits.maxLlmRetries
      ensures stop.Some? ==> Over(Err(stop.value)) && GaveUp(stop.value)
      ensures stop.Some? && stop.value.Llm? ==>
                stop.value.error == error && (error.Request? ==> attempt == limits.maxLlmRetries)
    {
      if !IsRetryable(error) || attempt >= limits.maxLlmRetries {
        TurnStops(log, task);
        return Some(Llm(error));
      }
      var cancelled := CheckCancelled();
      if cancelled {
        var e := CancelTurn();
        return Some(e);
      }
      Note(Retrying(task, attempt + 1, ErrorText(error)));
      stop := None;
    }

    // Why asking the model may end the turn: its own error, or cancellation.
    ghost predicate GaveUp(e: TurnError)
      reads this
    {
      match e
      case Llm(error) => sent != [] && sent[|sent| - 1].purpose.ForAnswer? && sent[|sent| - 1].outcome == Broke(error)
      case TurnCancelled => cancelFlag
      case _ => false
    }

    /** One call with the instructions appended; a plan is any text that is not blank. */
    method BuildPlan(messages: seq<Message>, instructions: string)
        returns (plan: Option<string>, ghost outcome: LlmCallOutcome)
      requires InTurn() && log.tally.state == Some(Planning) && log.tally.llmCalls == 0
      modifies this`log, this`nextCallIndex, this`sent, this`history, this`requested, this`cancelFlag
      ensures InTurn() && log.past == old(log.past)
      ensures log.tally == old(log.tally).(llmCalls := 1, asking := false)
      ensures plan == PlanIn(outcome)
      ensures sent == old(sent) + [LlmCall(messages + [SystemMessage(instructions)], ForPlan, outcome)]
      ensures history == old(history) + [Called(sent[|sent| - 1])]
      ensures requested == old(requested)
      ensures log.turn == old(log.turn)
                          + [LlmStarted(task, nextCallIndex, TotalImages(messages + [SystemMessage(instructions)]))]
                          + OutcomeEvents(task, nextCallIndex, outcome)
    {
      var got := InstrumentedCallLlm(messages + [SystemMessage(instructions)]);
      outcome := got;
      match got {
        case Finished(response) =>
          match response.text {
            case Some(text) => plan := if IsBlank(text) then None else Some(text);
            case None => plan := None;
          }
        case _ => plan := None;
      }
    }

    // ----- The prompt budget.

    // Only in the rounds is there anything to evict; in the first one the prompt is all prefix.
    ghost predicate MayEvict(messages: seq<Message>, prefix: nat)
      reads this
    {
      |messages| == prefix || (|messages| > prefix && IsWorking(log.tally.state))
    }

    // The model may have been asked for a summary, and nothing else was exchanged.
    ghost predicate OnlySummarised(was: seq<Exchange>, now: seq<Exchange>) {
      was <= now && |now| <= |was| + 1 &&
      (|now| > |was| ==> now[|was|].Called? && now[|was|].call.purpose.ForSummary?)
    }

    // What cutting a prompt does to the counts: no more than it reports, and nothing that goes unreported.
    ghost predicate CutReported(was: Tally, tally: Tally, before: seq<Message>, after: seq<Message>) {
      was.pressed <= tally.pressed && (was.pressed == tally.pressed ==> before == after)
    }

    /** Folds everything evictable but the most recent messages into one summary, if the model gives one. */
    method Compact(list: MessageList, prefix: nat) returns (turns: Option<nat>, ghost summary: Message)
      requires InTurn() && !log.tally.asking && MayEvict(list.messages, prefix)
      modifies list, this`log, this`nextCallIndex, this`sent, this`history, this`requested, this`cancelFlag
      ensures InTurn() && log.past == old(log.past) && requested == old(requested)
      ensures log.tally == old(log.tally).(llmCalls := log.tally.llmCalls)
      ensures log.tally.llmCalls <= old(log.tally.llmCalls) + 1 && SummaryAtMost(old(sent), sent)
      ensures turns.None? ==> list.messages == old(list.messages)
      ensures turns.Some? ==>
                turns.value > 0 && prefix + turns.value + budget.keepRecentUncompacted == |old(list.messages)| &&
                list.messages == old(list.messages)[..prefix] + [summary] + old(list.messages)[prefix + turns.value..]
      ensures OnlySummarised(old(history), history)
      ensures list.messages == Folded(old(list.messages), prefix, budget.keepRecentUncompacted, SummaryIn(history))
      // Nothing to fold, no call; and the summary is of what was folded.
      ensures |sent| == |old(sent)| <==> |old(list.messages)| <= prefix + budget.keepRecentUncompacted
      ensures turns.Some? ==> |sent| > |old(sent)| &&
                              IsSummaryOf(sent[|old(sent)|], old(list.messages)[prefix..prefix + turns.value], summary)
    {
      summary := SystemMessage("");
      var n := |list.messages|;
      var split := if n > budget.keepRecentUncompacted then n - budget.keepRecentUncompacted else 0;
      if split <= prefix {
        return None, summary;
      }
      var instructions: string := *;
      var messages := list.messages[prefix..split] + [SystemMessage(instructions)];
      assert messages[..|messages| - 1] == list.messages[prefix..split];
      var outcome := InstrumentedCallLlm(messages);
      if !outcome.Finished? || outcome.response.text.None? || IsBlank(outcome.response.text.value) {
        return None, summary;
      }
      var folded := SystemMessage("Summary of earlier conversation:\n" + outcome.response.text.value);
      list.messages := list.messages[..prefix] + [folded] + list.messages[split..];
      return Some(split - prefix), folded;
    }

    /**
     Brings the prompt within budget whatever the summarising model does: the protected prefix stays, and what is left
     fits or is the prefix alone. Nothing happens when it fits already.
     */
    method FitToBudget(list: MessageList, prefix: nat)
        returns (report: FitReport, ghost beforeDrop: seq<Message>, ghost summary: Message)
      requires InTurn() && !log.tally.asking && MayEvict(list.messages, prefix)
      modifies list, this`log, this`nextCallIndex, this`sent, this`history, this`requested, this`cancelFlag
      ensures InTurn() && log.past == old(log.past) && requested == old(requested)
      ensures log.tally == old(log.tally).(llmCalls := log.tally.llmCalls, pressed := log.tally.pressed)
      ensures CutReported(old(log.tally), log.tally, old(list.messages), list.messages)
      ensures OnlySummarised(old(history), history)
      ensures list.messages == Fitted(old(list.messages), prefix, SummaryIn(history), budget, cost)
      ensures log.tally.llmCalls <= old(log.tally.llmCalls) + 1 && SummaryAtMost(old(sent), sent)
      ensures prefix <= |list.messages| && list.messages[..prefix] == old(list.messages)[..prefix]
      ensures Estimate(list.messages, cost) <= budget.AvailableTokens() || |list.messages| == prefix
      ensures Estimate(old(list.messages), cost) <= budget.AvailableTokens() ==>
                list.messages == old(list.messages) && log == old(log)
      // With nothing dropped or compacted, every image is accounted for.
      ensures report.compacted.None? && report.dropped == 0 ==>
                TotalImages(list.messages) + report.images == TotalImages(old(list.messages))
      // The steps come in order, each only when the ones before were not enough.
      ensures var trimmed := Trimmed(old(list.messages), prefix, budget, cost);
              Estimate(old(list.messages), cost) > budget.AvailableTokens() ==>
                && (Estimate(trimmed, cost) <= budget.AvailableTokens() ==>
                      list.messages == trimmed && report.compacted.None? && report.dropped == 0)
                && beforeDrop == Compacted(trimmed, prefix, report.compacted, summary)
                && list.messages == (if report.dropped > 0 && prefix + report.dropped <= |beforeDrop| then
                                       Without(beforeDrop, prefix, report.dropped)
                                     else beforeDrop)
      // No smaller drop would have done.
      ensures forall k | 0 <= k < report.dropped ::
                !FitsWithout(beforeDrop, prefix, k, budget.AvailableTokens(), cost)
    {
      report, beforeDrop, summary := FitReport(0, 0, None, 0), list.messages, SystemMessage("");
      if Estimate(list.messages, cost) <= budget.AvailableTokens() {
        return;
      }
      var images, truncated := TrimInPlace(list, prefix);
      report, beforeDrop := FitReport(images, truncated, None, 0), list.messages;
      if Estimate(list.messages, cost) <= budget.AvailableTokens() {
        return;
      }
      var turns, dropped;
      turns, dropped, beforeDrop, summary := Shrink(list, prefix);
      report := FitReport(images, truncated, turns, dropped);
    }

    // The two steps that lose messages: a summary first, then a plain drop if that was not enough.
    method Shrink(list: MessageList, prefix: nat)
        returns (turns: Option<nat>, dropped: nat, ghost beforeDrop: seq<Message>, ghost summary: Message)
      requires InTurn() && !log.tally.asking && MayEvict(list.messages, prefix)
      modifies list, this`log, this`nextCallIndex, this`sent, this`history, this`requested, this`cancelFlag
      ensures InTurn() && log.past == old(log.past) && requested == old(requested)
      ensures log.tally == old(log.tally).(llmCalls := log.tally.llmCalls, pressed := log.tally.pressed)
      ensures CutReported(old(log.tally), log.tally, old(list.messages), list.messages)
      ensures OnlySummarised(old(history), history)
      ensures Estimate(old(list.messages), cost) > budget.AvailableTokens() ==>
                list.messages == Shrunk(old(list.messages), prefix, SummaryIn(history), budget, cost)
      ensures log.tally.llmCalls <= old(log.tally.llmCalls) + 1 && SummaryAtMost(old(sent), sent)
      ensures prefix <= |list.messages| && list.messages[..prefix] == old(list.messages)[..prefix]
      ensures Estimate(list.messages, cost) <= budget.AvailableTokens() || |list.messages| == prefix
      ensures beforeDrop == Compacted(old(list.messages), prefix, turns, summary)
      ensures dropped == 0 ==> list.messages == beforeDrop
      ensures dropped > 0 ==> prefix + dropped <= |beforeDrop| && list.messages == Without(beforeDrop, prefix, dropped)
      ensures forall k | 0 <= k < dropped :: !FitsWithout(beforeDrop, prefix, k, budget.AvailableTokens(), cost)
    {
      turns, summary := CompactAndTell(list, prefix);
      dropped, beforeDrop := 0, list.messages;
      if Estimate(list.messages, cost) > budget.AvailableTokens() {
        dropped := DropAndTell(list, prefix);
        DroppedLeast(beforeDrop, prefix, dropped);
      }
    }

    lemma {:induction false} DroppedLeast(messages: seq<Message>, prefix: nat, dropped: nat)
      requires prefix + dropped <= |messages|
      requires forall k | 0 <= k < dropped :: !FitsWithout(messages, prefix, k, budget.AvailableTokens(), cost)
      requires prefix + dropped == |messages| || FitsWithout(messages, prefix, dropped, budget.AvailableTokens(), cost)
      ensures LeastDrop(messages, prefix, 0, budget.AvailableTokens(), cost) == dropped
      ensures dropped == 0 ==> Without(messages, prefix, 0) == messages
    {
      LeastDropIs(messages, prefix, 0, dropped, budget.AvailableTokens(), cost);
    }

    // The first `turns` evictable messages folded into one, if any were.
    ghost function Compacted(messages: seq<Message>, prefix: nat, turns: Option<nat>, summary: Message): seq<Message> {
      match turns
      case Some(n) =>
        if prefix + n <= |messages| then messages[..prefix] + [summary] + messages[prefix + n..] else messages
      case None => messages
    }

    // One report per step that changed anything.
    ghost function EvictEvents(messages: seq<Message>, prefix: nat, images: nat): seq<Event>
      reads this
    {
      if images == 0 then []
      else
        var evicted := Evicted(messages, prefix, budget.keepRecentImages);
        [BudgetPressure(task, DroppedImages(images), Estimate(evicted, cost))]
    }

    ghost function TrimEvents(messages: seq<Message>, prefix: nat, images: nat, truncated: nat): seq<Event>
      reads this
    {
      EvictEvents(messages, prefix, images) +
      if truncated == 0 then []
      else [BudgetPressure(task, TruncatedText(truncated), Estimate(Trimmed(messages, prefix, budget, cost), cost))]
    }

    // The two steps that keep every message: old images first, then long tool results if that was not enough.
    method TrimInPlace(list: MessageList, prefix: nat) returns (images: nat, truncated: nat)
      requires InTurn() && !log.tally.asking && MayEvict(list.messages, prefix)
      modifies list, this`log
      ensures InTurn() && log.past == old(log.past)
      ensures log.tally == old(log.tally).(pressed := log.tally.pressed)
      ensures CutReported(old(log.tally), log.tally, old(list.messages), list.messages)
      ensures |list.messages| == |old(list.messages)| && list.messages[..prefix] == old(list.messages)[..prefix]
      ensures TotalImages(list.messages) + images == TotalImages(old(list.messages))
      ensures list.messages == Trimmed(old(list.messages), prefix, budget, cost)
      ensures log.turn == old(log.turn) + TrimEvents(old(list.messages), prefix, images, truncated)
    {
      truncated := 0;
      images := EvictAndTell(list, prefix);
      if Estimate(list.messages, cost) <= budget.AvailableTokens() {
        return;
      }
      truncated := TruncateAndTell(list, prefix);
    }

    method EvictAndTell(list: MessageList, prefix: nat) returns (images: nat)
      requires InTurn() && !log.tally.asking && MayEvict(list.messages, prefix)
      modifies list, this`log
      ensures InTurn() && log.past == old(log.past)
      ensures log.tally == old(log.tally).(pressed := log.tally.pressed)
      ensures CutReported(old(log.tally), log.tally, old(list.messages), list.messages)
      ensures list.messages == Evicted(old(list.messages), prefix, budget.keepRecentImages)
      ensures |list.messages| == |old(list.messages)| && list.messages[..prefix] == old(list.messages)[..prefix]
      ensures TotalImages(list.messages) + images == TotalImages(old(list.messages))
      ensures log.turn == old(log.turn) + EvictEvents(old(list.messages), prefix, images)
    {
      PrefixUntouched(list.messages, prefix, budget.keepRecentImages, 0, 0);
      PrefixHasNoneStale(list.messages, prefix, budget.keepRecentImages);
      ghost var was := list.messages;
      images := EvictImages(list, prefix, budget.keepRecentImages);
      NoImagesLost(was, prefix, budget.keepRecentImages);
      if images > 0 {
        Note(BudgetPressure(task, DroppedImages(images), Estimate(list.messages, cost)));
      }
    }

    method TruncateAndTell(list: MessageList, prefix: nat) returns (truncated: nat)
      requires InTurn() && !log.tally.asking && MayEvict(list.messages, prefix)
      modifies list, this`log
      ensures InTurn() && log.past == old(log.past)
      ensures log.tally == old(log.tally).(pressed := log.tally.pressed)
      ensures CutReported(old(log.tally), log.tally, old(list.messages), list.messages)
      ensures list.messages == Truncated(old(list.messages), prefix, budget.truncateHeadChars, budget.truncateTailChars)
      ensures |list.messages| == |old(list.messages)| && list.messages[..prefix] == old(list.messages)[..prefix]
      ensures TotalImages(list.messages) == TotalImages(old(list.messages))
      ensures truncated == LongCount(old(list.messages), prefix, budget.truncateHeadChars, budget.truncateTailChars)
      ensures log.turn == old(log.turn)
                          + if truncated == 0 then []
                            else [BudgetPressure(task, TruncatedText(truncated), Estimate(list.messages, cost))]
    {
      PrefixUntouched(list.messages, prefix, 0, budget.truncateHeadChars, budget.truncateTailChars);
      TruncatedImages(list.messages, prefix, budget.truncateHeadChars, budget.truncateTailChars);
      PrefixHasNoneLong(list.messages, prefix, budget.truncateHeadChars, budget.truncateTailChars);
      NoneLongSame(list.messages, prefix, budget.truncateHeadChars, budget.truncateTailChars);
      truncated := TruncateLongToolResults(list, prefix, budget.truncateHeadChars, budget.truncateTailChars);
      if truncated > 0 {
        Note(BudgetPressure(task, TruncatedText(truncated), Estimate(list.messages, cost)));
      }
    }

    method CompactAndTell(list: MessageList, prefix: nat) returns (turns: Option<nat>, ghost summary: Message)
      requires InTurn() && !log.tally.asking && MayEvict(list.messages, prefix)
      modifies list, this`log, this`nextCallIndex, this`sent, this`history, this`requested, this`cancelFlag
      ensures InTurn() && log.past == old(log.past) && requested == old(requested)
      ensures log.tally == old(log.tally).(llmCalls := log.tally.llmCalls, pressed := log.tally.pressed)
      ensures CutReported(old(log.tally), log.tally, old(list.messages), list.messages)
      ensures MayEvict(list.messages, prefix) && OnlySummarised(old(history), history)
      ensures list.messages == Folded(old(list.messages), prefix, budget.keepRecentUncompacted, SummaryIn(history))
      ensures log.tally.llmCalls <= old(log.tally.llmCalls) + 1 && SummaryAtMost(old(sent), sent)
      ensures prefix <= |list.messages| && list.messages[..prefix] == old(list.messages)[..prefix]
      ensures turns.None? ==> list.messages == old(list.messages)
      ensures turns.Some? ==>
                prefix + turns.value <= |old(list.messages)| &&
                list.messages
                == old(list.messages)[..prefix] + [summary] + old(list.messages)[prefix + turns.value..] &&
                log.turn != [] && log.turn[|log.turn| - 1] == TranscriptCompacted(task, turns.value)
    {
      turns, summary := Compact(list, prefix);
      if turns.Some? {
        Note(TranscriptCompacted(task, turns.value));
      }
    }

    method DropAndTell(list: MessageList, prefix: nat) returns (dropped: nat)
      requires InTurn() && !log.tally.asking && MayEvict(list.messages, prefix)
      modifies list, this`log
      ensures InTurn() && log.past == old(log.past)
      ensures log.tally == old(log.tally).(pressed := log.tally.pressed)
      ensures CutReported(old(log.tally), log.tally, old(list.messages), list.messages)
      ensures prefix <= |list.messages| && list.messages[..prefix] == old(list.messages)[..prefix]
      ensures Estimate(list.messages, cost) <= budget.AvailableTokens() || |list.messages| == prefix
      ensures dropped == 0 ==> list.messages == old(list.messages)
      ensures dropped > 0 ==> prefix + dropped <= |old(list.messages)| &&
                              list.messages == Without(old(list.messages), prefix, dropped)
      ensures forall k | 0 <= k < dropped :: !FitsWithout(old(list.messages), prefix, k, budget.AvailableTokens(), cost)
      ensures log.turn == old(log.turn)
                          + if dropped == 0 then []
                            else [BudgetPressure(task, DroppedTurns(dropped), Estimate(list.messages, cost))]
    {
      dropped := DropOldestUntilFits(list, prefix, budget.AvailableTokens(), cost);
      if dropped > 0 {
        Note(BudgetPressure(task, DroppedTurns(dropped), Estimate(list.messages, cost)));
      }
    }

    // ----- Tool calls.

    // The dispatcher: any outcome, or a refusal.
    method Dispatch(call: ToolCall) returns (result: Result<ToolOutcome, string>)
      modifies this`dispatched, this`history
      ensures dispatched == old(dispatched) + [Dispatched(call, result)]
      ensures history == old(history) + [Ran(Dispatched(call, result))]
    {
      var outcome: ToolOutcome, error: string := *, *;
      if * {
        result := Ok(outcome);
      } else {
        result := Err(error);
      }
      dispatched := dispatched + [Dispatched(call, result)];
      history := history + [Ran(Dispatched(call, result))];
    }

    method StartTool(call: ToolCall, index: nat)
      requires InTurn() && log.tally.state == Some(Executing) && !log.tally.asking && index == |log.tally.calls| + 1
      modifies this`log
      ensures IsDispatching(log, task, call) && Numbered() && Ours() && log.past == old(log.past)
      ensures log.tally == old(log.tally).(calls := old(log.tally.calls) + [call])
      ensures FactsIn(log) == old(FactsIn(log))
      ensures log.turn == old(log.turn) + [ToolStarted(task, index, call.name, call.arguments)]
    {
      ToolBegins(log, task, call);
      Emit(ToolStarted(task, index, call.name, call.arguments));
    }

    // The event that reports a tool's outcome.
    function Completion(index: nat, call: ToolCall, outcome: ToolOutcome): Event
      reads this
    {
      ToolCompleted(task, index, call.name, outcome.text, |outcome.images|, call.arguments, outcome.mutated)
    }

    method CompleteTool(call: ToolCall, index: nat, outcome: ToolOutcome)
      requires IsDispatching(log, task, call) && Numbered() && Ours() && index == |log.tally.calls| && !log.tally.asking
      modifies this`log
      ensures Live(log, task) && Numbered() && Ours() && log.past == old(log.past)
      ensures log.tally == old(log.tally).(mutated := old(log.tally.mutated) + [outcome.mutated])
      ensures FactsIn(log)
              == WithToolFact(old(log), ToolFact(index, call.name, call.arguments, outcome.text, outcome.mutated))
      ensures log.turn == old(log.turn) + [Completion(index, call, outcome)]
    {
      ToolEnds(log, task, call, outcome.text, |outcome.images|, outcome.mutated);
      Emit(Completion(index, call, outcome));
    }

    // Starts, dispatches and completes one call; a refusal becomes an outcome the model can read.
    method RunTool(call: ToolCall, index: nat) returns (outcome: ToolOutcome, fails: bool, ghost d: Dispatched)
      requires InTurn() && log.tally.state == Some(Executing) && !log.tally.asking && index == |log.tally.calls| + 1
      modifies this`log, this`dispatched, this`history
      ensures InTurn() && log.past == old(log.past) && dispatched == old(dispatched) + [d]
      ensures history == old(history) + [Ran(d)]
      ensures d.call == call && outcome == OutcomeOf(d.result) && fails == d.result.Err?
      ensures log.tally == old(log.tally).(calls := old(log.tally.calls) + [call],
                                           mutated := old(log.tally.mutated) + [outcome.mutated])
      ensures log.turn == old(log.turn) + CallEvents(index, call, outcome)
    {
      ghost var before, tally, facts, exchanges := dispatched, log.tally, FactsIn(log), history;
      StartTool(call, index);
      var result := Dispatch(call);
      d := Dispatched(call, result);
      match result {
        case Ok(value) => outcome, fails := value, false;
        case Err(error) => outcome, fails := ToolOutcome("ERROR: " + error, [], false), true;
      }
      CompleteTool(call, index, outcome);
      DispatchedMeans(before, tally.calls, tally.mutated, facts.tools);
      InterleavesAppend(exchanges, sent, before, Ran(d));
      DispatchedAppend(before, d, tally.calls, tally.mutated, facts.tools);
    }

    // What a call adds to the events.
    function CallEvents(index: nat, call: ToolCall, outcome: ToolOutcome): seq<Event>
      reads this
    {
      [ToolStarted(task, index, call.name, call.arguments), Completion(index, call, outcome)]
    }

    /**
     A limit that stops the tools has been reached: the call about to be dispatched, the next one wanted, would make the
     run of equal calls too long; or the last dispatches were refused; or that was the last call allowed.
     */
    ghost predicate StopsRightly(e: TurnError, wanted: seq<ToolCall>)
      reads this
    {
      log.tally.calls <= wanted &&
      match e
      case LoopDetected(n) =>
        n == limits.maxIdenticalRepeats && |log.tally.calls| < |wanted| &&
        RunReaches(wanted[..|log.tally.calls| + 1], n)
      case TooManyConsecutiveToolFailures(n) =>
        n == limits.maxConsecutiveToolFailures && TrailingReaches(RefusalsOf(dispatched), n)
      case ToolCallLimitExceeded => |log.tally.calls| == AtLeastOne(limits.maxToolCalls)
      case TurnCancelled => cancelFlag
      case _ => false
    }

    // One more tool call was run, and came out like this.
    ghost predicate OneMoreRan(was: seq<Exchange>, now: seq<Exchange>, call: ToolCall, outcome: ToolOutcome) {
      |now| == |was| + 1 && now == was + [now[|was|]] && now[|was|].Ran? &&
      now[|was|].run.call == call && OutcomeOf(now[|was|].run.result) == outcome
    }

    /** One requested call: looped, run, or stopped by a limit. */
    method ExecuteToolCall(list: MessageList, call: ToolCall, vars: LoopVars)
        returns (next: LoopVars, stop: Option<TurnError>, ghost outcome: ToolOutcome)
      requires InTurn() && log.tally.state == Some(Executing) && !log.tally.asking
      requires CallsOk(limits, vars, log.tally, dispatched) && StandsAt(list.messages)
      modifies list, this`log, this`dispatched, this`history, this`cancelFlag
      ensures old(list.messages) <= list.messages && log.past == old(log.past)
      ensures SameBut(old(log.tally), log.tally)
      ensures stop.None? ==> InTurn() && CallsOk(limits, next, log.tally, dispatched)
      ensures stop.None? ==> next.toolCalls == vars.toolCalls + 1 && next.empties == 0 && next.gateUsed == vars.gateUsed
      ensures stop.None? ==> log.tally.calls == old(log.tally.calls) + [call]
      ensures stop.None? ==> list.messages == old(list.messages) + CallAndResult(call, outcome)
      ensures stop.None? ==> log.turn == old(log.turn) + CallEvents(next.toolCalls, call, outcome)
      ensures stop.None? ==> StandsAt(list.messages)
      ensures stop.Some? ==> QuestionsRight()
      ensures stop.None? ==> OneMoreDispatched(old(dispatched), dispatched, call, outcome)
      ensures stop.Some? ==> Over(Err(stop.value)) && CallBounds(limits, log.tally, dispatched)
      ensures stop.Some? ==> StopsRightly(stop.value, old(log.tally.calls) + [call])
    {
      next, outcome := vars, ToolOutcome("", [], false);
      EndBounds(limits, vars, log.tally, dispatched);
      ghost var before, stood := history, list.messages;
      StandsAsked(history, preamble, stood, log.tally.pressed, budget, cost);
      var cancelled := CheckCancelled();
      if cancelled {
        var e := CancelTurn();
        return next, Some(e), outcome;
      }
      list.Push(AssistantToolCall(call));
      next := Counted(vars, call);
      if next.repeats >= limits.maxIdenticalRepeats {
        stop := StopAtLoop(call, vars);
        return next, stop, outcome;
      }
      next, stop, outcome := RunCounted(list, call, vars);
      StandsAfterRun(before, call, outcome, stood);
    }

    lemma {:induction false} StandsAfterRun(
        before: seq<Exchange>, call: ToolCall, outcome: ToolOutcome, stood: seq<Message>)
      requires Stands(before, preamble, stood, log.tally.pressed, budget, cost)
      requires OneMoreRan(before, history, call, outcome)
      ensures StandsAt(stood + CallAndResult(call, outcome)) && QuestionsRight()
    {
      StandsAfter(before, history[|before|], preamble, stood, log.tally.pressed, budget, cost);
      StandsAsked(history, preamble, stood + CallAndResult(call, outcome), log.tally.pressed, budget, cost);
    }

    method StopAtLoop(call: ToolCall, vars: LoopVars) returns (stop: Option<TurnError>)
      requires InTurn() && log.tally.state == Some(Executing) && !log.tally.asking
      requires CallsOk(limits, vars, log.tally, dispatched) && Counted(vars, call).repeats >= limits.maxIdenticalRepeats
      modifies this`log
      ensures log.past == old(log.past) && log.tally == old(log.tally)
      ensures stop.Some? && Over(Err(stop.value)) && StopsRightly(stop.value, log.tally.calls + [call])
    {
      RepeatsCounted(limits, vars, log.tally, dispatched, call);
      ghost var wanted := log.tally.calls + [call];
      assert wanted[..|log.tally.calls| + 1] == wanted;
      Abort(LOOP_DETECTED, LoopDetected(limits.maxIdenticalRepeats));
      stop := Some(LoopDetected(limits.maxIdenticalRepeats));
    }

    // The call itself, then the two limits it may reach.
    method RunCounted(list: MessageList, call: ToolCall, vars: LoopVars)
        returns (next: LoopVars, stop: Option<TurnError>, ghost outcome: ToolOutcome)
      requires InTurn() && log.tally.state == Some(Executing) && !log.tally.asking
      requires CallsOk(limits, vars, log.tally, dispatched)
      requires Counted(vars, call).repeats < limits.maxIdenticalRepeats
      modifies list, this`log, this`dispatched, this`history
      ensures old(list.messages) <= list.messages && log.past == old(log.past)
      ensures SameBut(old(log.tally), log.tally)
      ensures stop.None? ==> InTurn() && CallsOk(limits, next, log.tally, dispatched)
      ensures stop.None? ==> next.toolCalls == vars.toolCalls + 1 && next.empties == 0 && next.gateUsed == vars.gateUsed
      ensures log.tally.calls == old(log.tally.calls) + [call]
      ensures OneMoreDispatched(old(dispatched), dispatched, call, outcome)
      ensures OneMoreRan(old(history), history, call, outcome)
      ensures list.messages == old(list.messages) + [ToolResult(call.name, outcome.text, outcome.images)]
      ensures stop.None? ==> log.turn == old(log.turn) + CallEvents(next.toolCalls, call, outcome)
      ensures stop.Some? ==> Over(Err(stop.value)) && CallBounds(limits, log.tally, dispatched)
      ensures stop.Some? ==> StopsRightly(stop.value, log.tally.calls)
    {
      var got;
      next, got := RunAndCount(call, vars);
      outcome := got;
      list.Push(ToolResult(call.name, got.text, got.images));
      stop := StopAtLimit(next);
    }

    method RunAndCount(call: ToolCall, vars: LoopVars) returns (next: LoopVars, outcome: ToolOutcome)
      requires InTurn() && log.tally.state == Some(Executing) && !log.tally.asking
      requires CallsOk(limits, vars, log.tally, dispatched)
      requires Counted(vars, call).repeats < limits.maxIdenticalRepeats
      modifies this`log, this`dispatched, this`history
      ensures InTurn() && log.past == old(log.past) && SameBut(old(log.tally), log.tally)
      ensures CallBounds(limits, log.tally, dispatched) && next.toolCalls == |log.tally.calls|
      ensures TrailingIs(RefusalsOf(dispatched), next.failures)
      ensures next.failures < limits.maxConsecutiveToolFailures && next.toolCalls < limits.maxToolCalls ==>
                CallsOk(limits, next, log.tally, dispatched)
      ensures next.toolCalls == vars.toolCalls + 1 && next.empties == 0 && next.gateUsed == vars.gateUsed
      ensures log.tally.calls == old(log.tally.calls) + [call]
      ensures OneMoreDispatched(old(dispatched), dispatched, call, outcome)
      ensures OneMoreRan(old(history), history, call, outcome)
      ensures log.turn == old(log.turn) + CallEvents(next.toolCalls, call, outcome)
    {
      ghost var tally, was := log.tally, dispatched;
      var fails;
      ghost var d;
      outcome, fails, d := RunTool(call, vars.toolCalls + 1);
      CallCounted(limits, vars, tally, was, d);
      next := AfterCall(vars, call, fails, outcome.mutated);
    }

    // Failures first, then the count of calls.
    method StopAtLimit(vars: LoopVars) returns (stop: Option<TurnError>)
      requires InTurn() && log.tally.state == Some(Executing) && !log.tally.asking
      requires CallBounds(limits, log.tally, dispatched) && vars.toolCalls == |log.tally.calls| > 0
      requires TrailingIs(RefusalsOf(dispatched), vars.failures)
      modifies this`log
      ensures log.past == old(log.past) && log.tally == old(log.tally)
      ensures stop.None? ==> log == old(log) && vars.failures < limits.maxConsecutiveToolFailures &&
                             vars.toolCalls < limits.maxToolCalls
      ensures stop.Some? ==> Over(Err(stop.value)) && StopsRightly(stop.value, log.tally.calls)
    {
      if vars.failures >= limits.maxConsecutiveToolFailures {
        FailuresMean(RefusalsOf(dispatched), vars.failures, 0);
        ReachesMean([], RefusalsOf(dispatched), limits.maxConsecutiveToolFailures);
        Abort(TOO_MANY_FAILURES, TooManyConsecutiveToolFailures(limits.maxConsecutiveToolFailures));
        return Some(TooManyConsecutiveToolFailures(limits.maxConsecutiveToolFailures));
      }
      if vars.toolCalls >= limits.maxToolCalls {
        Abort(LIMIT_EXCEEDED, ToolCallLimitExceeded);
        return Some(ToolCallLimitExceeded);
      }
      stop := None;
    }

    // What stops one of the wanted calls stops them all.
    lemma {:induction false} StillStopsRightly(e: TurnError, wanted: seq<ToolCall>, more: seq<ToolCall>)
      requires StopsRightly(e, wanted) && wanted <= more
      ensures StopsRightly(e, more)
    {
      if |log.tally.calls| < |wanted| {
        assert more[..|log.tally.calls| + 1] == wanted[..|log.tally.calls| + 1];
      }
    }

    method NextTool(list: MessageList, calls: seq<ToolCall>, i: nat, vars: LoopVars, ghost wanted: seq<ToolCall>)
        returns (next: LoopVars, stop: Option<TurnError>)
      requires InTurn() && log.tally.state == Some(Executing) && !log.tally.asking && i < |calls|
      requires CallsOk(limits, vars, log.tally, dispatched) && log.tally.calls + [calls[i]] <= wanted
      requires StandsAt(list.messages)
      modifies list, this`log, this`dispatched, this`history, this`cancelFlag
      ensures old(list.messages) <= list.messages && log.past == old(log.past)
      ensures SameBut(old(log.tally), log.tally)
      ensures stop.None? ==> InTurn() && CallsOk(limits, next, log.tally, dispatched)
      ensures stop.None? ==> next.toolCalls == vars.toolCalls + 1 && next.empties == 0 && next.gateUsed == vars.gateUsed
      ensures stop.None? ==> log.tally.calls == old(log.tally.calls) + [calls[i]]
      ensures stop.Some? ==> Over(Err(stop.value)) && CallBounds(limits, log.tally, dispatched)
      ensures stop.Some? ==> StopsRightly(stop.value, wanted) && QuestionsRight()
      ensures stop.None? ==> StandsAt(list.messages)
    {
      ghost var outcome, before := ToolOutcome("", [], false), log.tally.calls;
      next, stop, outcome := ExecuteToolCall(list, calls[i], vars);
      if stop.Some? {
        StillStopsRightly(stop.value, before + [calls[i]], wanted);
      }
    }

    /** Every requested call in turn, until one stops the turn. */
    method RunTools(list: MessageList, calls: seq<ToolCall>, vars: LoopVars)
        returns (next: LoopVars, stop: Option<TurnError>)
      requires InTurn() && log.tally.state == Some(Executing) && !log.tally.asking
      requires CallsOk(limits, vars, log.tally, dispatched) && calls != [] && StandsAt(list.messages)
      modifies list, this`log, this`dispatched, this`history, this`cancelFlag
      ensures old(list.messages) <= list.messages && log.past == old(log.past)
      ensures SameBut(old(log.tally), log.tally)
      ensures stop.None? ==> InTurn() && CallsOk(limits, next, log.tally, dispatched)
      ensures stop.None? ==>
                next.toolCalls == vars.toolCalls + |calls| && next.empties == 0 &&
                next.gateUsed == vars.gateUsed
      ensures stop.None? ==> log.tally.calls == old(log.tally.calls) + calls
      ensures stop.Some? ==> Over(Err(stop.value)) && CallBounds(limits, log.tally, dispatched)
      ensures stop.Some? ==> StopsRightly(stop.value, old(log.tally.calls) + calls) && QuestionsRight()
      ensures stop.None? ==> StandsAt(list.messages)
    {
      next := vars;
      ghost var before := log.tally.calls;
      for i := 0 to |calls|
        invariant InTurn() && CallsOk(limits, next, log.tally, dispatched) && StandsAt(list.messages)
        invariant old(list.messages) <= list.messages && log.past == old(log.past)
        invariant SameBut(old(log.tally), log.tally)
        invariant log.tally.calls == before + calls[..i]
        invariant next.toolCalls == vars.toolCalls + i && next.gateUsed == vars.gateUsed
        invariant i > 0 ==> next.empties == 0
      {
        assert calls[..i + 1] == calls[..i] + [calls[i]];
        assert before + calls[..i] + [calls[i]] <= before + calls;
        next, stop := NextTool(list, calls, i, next, before + calls);
        if stop.Some? {
          return;
        }
      }
      assert calls[..|calls|] == calls;
      stop := None;
    }

    // ----- Answers.

    // The one nudge, the one mark, or a plain answer.
    method AnswerWith(list: MessageList, text: string, vars: LoopVars) returns (next: LoopVars, done: Option<Answer>)
      requires InTurn() && log.tally.state == Some(Thinking) && !log.tally.asking
      requires transcript.Valid() && GateOk(vars, log.tally) && vars.unverified == LastMutated(log.tally)
      modifies list, transcript, this`log
      ensures transcript.Valid() && old(list.messages) <= list.messages && log.past == old(log.past)
      ensures log.tally == old(log.tally).(verifying := log.tally.verifying, unverified := log.tally.unverified,
                                           state := log.tally.state)
      ensures done.None? ==>
                InTurn() && next == vars.(gateUsed := true) && !vars.gateUsed && GateOk(next, log.tally) &&
                transcript.messages == old(transcript.messages) && log.tally.state == Some(Verifying)
      ensures done.Some? ==>
                done == Some(Ok(text)) && Over(Ok(text)) && log.tally.verifying <= 1 &&
                VerificationOk(Ok(text), log.tally)
      ensures done.Some? ==> Answered(transcript.messages, old(transcript.messages), text)
      ensures done.None? <==> vars.unverified && !vars.gateUsed
      ensures done.None? ==>
                list.messages == old(list.messages) + [SystemMessage(VERIFY_NUDGE)] &&
                log.turn == old(log.turn) + [StateChanged(task, Verifying)]
      ensures done.Some? ==>
                list.messages == old(list.messages) &&
                log.turn == old(log.turn) + (if vars.unverified then [AnsweredUnverified(task)] else [])
                            + [StateChanged(task, Responding), RequestCompleted(task, text)]
    {
      next := vars;
      if vars.unverified && !vars.gateUsed {
        next := next.(gateUsed := true);
        SetState(Verifying);
        list.Push(SystemMessage(VERIFY_NUDGE));
        return next, None;
      }
      Deliver(text, vars.unverified);
      done := Some(Ok(text));
    }

    // The answer goes out, marked when it rests on an unchecked change.
    method Deliver(text: string, unverified: bool)
      requires InTurn() && log.tally.state == Some(Thinking) && !log.tally.asking && transcript.Valid()
      modifies transcript, this`log
      ensures transcript.Valid() && Answered(transcript.messages, old(transcript.messages), text)
      ensures Over(Ok(text)) && log.past == old(log.past)
      ensures log.tally == old(log.tally).(unverified := old(log.tally.unverified) + if unverified then 1 else 0,
                                           state := Some(Responding))
      ensures log.turn == old(log.turn) + (if unverified then [AnsweredUnverified(task)] else [])
                          + [StateChanged(task, Responding), RequestCompleted(task, text)]
    {
      Mark(unverified);
      transcript.Push(AssistantText(text), cost, budget.AvailableTokens());
      TurnCompletes(log, task, text);
      Emit(RequestCompleted(task, text));
    }

    method Mark(unverified: bool)
      requires InTurn() && log.tally.state == Some(Thinking) && !log.tally.asking
      modifies this`log
      ensures InTurn() && log.past == old(log.past)
      ensures log.tally == old(log.tally).(unverified := old(log.tally.unverified) + if unverified then 1 else 0,
                                           state := Some(Responding))
      ensures log.turn == old(log.turn) + (if unverified then [AnsweredUnverified(task)] else [])
                          + [StateChanged(task, Responding)]
    {
      if unverified {
        Note(AnsweredUnverified(task));
      }
      SetState(Responding);
    }

    // The transcript with one more message, pruned to the budget.
    ghost function With(history: seq<Message>, m: Message): (s: seq<Message>)
      requires history != []
      ensures s != []
    {
      Pruned(history[0], history[1..] + [m], budget.AvailableTokens(), cost)
    }

    // The same, for what one side said.
    ghost function WithText(history: seq<Message>, role: string, text: string): (s: seq<Message>)
      requires history != []
      ensures s != []
    {
      With(history, Message(role, text, [], None, None))
    }

    ghost predicate Answered(now: seq<Message>, before: seq<Message>, text: string) {
      before != [] && now == With(before, AssistantText(text))
    }

    // ----- Rounds.

    // At the top of the loop: everything asked for has been dispatched, and only the first prompt is all prefix.
    ghost predicate AtTop(messages: seq<Message>, prefix: nat)
      reads this
    {
      && InTurn() && log.tally.state.Some? && log.tally.state != Some(Responding) && !log.tally.asking
      && MayEvict(messages, prefix) && log.tally.calls == requested && AbandonedLate(sent)
      && |preamble| == prefix && preamble <= messages && StandsAt(messages)
    }

    // With a response to act on.
    ghost predicate HasResponse(response: LlmResponse, messages: seq<Message>)
      reads this
    {
      && InTurn() && log.tally.state == Some(Thinking) && !log.tally.asking
      && requested == log.tally.calls + response.toolCalls && LastAnswer(sent) == Some(response)
      && preamble <= messages && StandsNudged(messages, response)
    }

    // What stands once the response has been answered with a nudge, if it calls for one.
    ghost predicate StandsNudged(messages: seq<Message>, response: LlmResponse)
      reads this
    {
      forall m | SameSeq(m, messages) :: StandsAt(m + Nudge(response))
    }

    lemma {:induction false} StandsNudgedMeans(messages: seq<Message>, response: LlmResponse)
      ensures StandsNudged(messages, response) <==> StandsAt(messages + Nudge(response))
      ensures StandsNudged(messages, response) ==> QuestionsRight()
      ensures StandsNudged(messages, response) && response.toolCalls != [] ==> StandsAt(messages)
    {
      assert SameSeq(messages, messages);
      if StandsNudged(messages, response) {
        StandsAsked(history, preamble, messages + Nudge(response), log.tally.pressed, budget, cost);
        assert messages + [] == messages;
      }
    }

    /** Fits the prompt and asks the model, or stops when cancelled. */
    method Ask(list: MessageList, prefix: nat) returns (r: Result<LlmResponse, TurnError>)
      requires AtTop(list.messages, prefix) && PromptsOk(sent, preamble, budget.AvailableTokens(), cost)
      modifies list, this`log, this`nextCallIndex, this`sent, this`history, this`requested, this`cancelFlag
      ensures log.past == old(log.past) && AbandonedLate(sent) && old(sent) <= sent && preamble <= list.messages
      ensures PromptsOk(sent, preamble, budget.AvailableTokens(), cost)
      ensures Asked(limits, old(log.tally), log.tally)
      ensures r.Ok? ==> HasResponse(r.value, list.messages) && OneRoundMore(limits, old(log.tally), log.tally)
      ensures r.Err? ==> Over(Err(r.error)) && GaveUp(r.error) && requested == old(requested) && QuestionsRight()
    {
      var cancelled := CheckCancelled();
      if cancelled {
        StandsAsked(history, preamble, list.messages, log.tally.pressed, budget, cost);
        var e := CancelTurn();
        return Err(e);
      }
      r := FitAndGenerate(list, prefix);
    }

    /** The question is what stands, fitted to the budget: all of it when it fits. */
    method FitAndGenerate(list: MessageList, prefix: nat) returns (r: Result<LlmResponse, TurnError>)
      requires AtTop(list.messages, prefix) && NoneAbandoned(sent)
      requires PromptsOk(sent, preamble, budget.AvailableTokens(), cost)
      modifies list, this`log, this`nextCallIndex, this`sent, this`history, this`requested, this`cancelFlag
      ensures log.past == old(log.past) && AbandonedLate(sent) && old(sent) <= sent && preamble <= list.messages
      ensures PromptsOk(sent, preamble, budget.AvailableTokens(), cost)
      ensures Asked(limits, old(log.tally), log.tally) && OneRoundMore(limits, old(log.tally), log.tally)
      ensures r.Ok? ==> HasResponse(r.value, list.messages)
      ensures r.Err? ==> Over(Err(r.error)) && GaveUp(r.error) && requested == old(requested) && QuestionsRight()
    {
      ghost var before, stood, was := sent, list.messages, log.tally.pressed;
      Fit(list, prefix);
      SetState(Thinking);
      ghost var fitted := sent;
      r := GenerateWithRetry(list.messages, stood, was);
      NewPromptsOk(before, fitted, sent, list.messages, preamble);
    }

    // What fitting means for the question about to be asked.
    method Fit(list: MessageList, prefix: nat)
      requires InTurn() && !log.tally.asking && MayEvict(list.messages, prefix) && NoneAbandoned(sent)
      requires |preamble| == prefix && preamble <= list.messages && StandsAt(list.messages)
      modifies list, this`log, this`nextCallIndex, this`sent, this`history, this`requested, this`cancelFlag
      ensures InTurn() && log.past == old(log.past) && requested == old(requested)
      ensures log.tally == old(log.tally).(llmCalls := log.tally.llmCalls, pressed := log.tally.pressed)
      ensures log.tally.llmCalls <= old(log.tally.llmCalls) + 1
      ensures SummaryAtMost(old(sent), sent) && OnlySummaryAbandoned(sent)
      ensures preamble <= list.messages && MayAsk(list.messages, old(list.messages), old(log.tally.pressed))
    {
      ghost var before, stood, was := history, list.messages, log.tally;
      var _, _, _ := FitToBudget(list, prefix);
      FittedMayAsk(before, stood, was, list.messages);
    }

    lemma {:induction false} FittedMayAsk(
        before: seq<Exchange>, stood: seq<Message>, was: Tally, messages: seq<Message>)
      requires Stands(before, preamble, stood, was.pressed, budget, cost) && OnlySummarised(before, history)
      requires CutReported(was, log.tally, stood, messages)
      requires messages == Fitted(stood, |preamble|, SummaryIn(history), budget, cost)
      requires preamble <= stood && |preamble| <= |messages| && messages[..|preamble|] == stood[..|preamble|]
      requires Estimate(messages, cost) <= budget.AvailableTokens() || |messages| == |preamble|
      ensures preamble <= messages && MayAsk(messages, stood, was.pressed)
    {
      StillStands(before, stood, was.pressed);
      assert messages[..|preamble|] == preamble;
      if |messages| == |preamble| {
        assert messages == preamble;
      }
    }

    // A summary is no question and adds nothing by itself.
    lemma {:induction false} StillStands(before: seq<Exchange>, stood: seq<Message>, was: nat)
      requires Stands(before, preamble, stood, was, budget, cost) && OnlySummarised(before, history)
      ensures Stands(history, preamble, stood, was, budget, cost)
    {
      if |history| > |before| {
        StandsAfter(before, history[|before|], preamble, stood, was, budget, cost);
        assert history == before + [history[|before|]] && stood + [] == stood;
      } else {
        assert history == before;
      }
    }

    // A summary and then nothing but this prompt.
    lemma {:induction false} NewPromptsOk(
        before: seq<LlmCall>, fitted: seq<LlmCall>, sent: seq<LlmCall>, messages: seq<Message>, prefix: seq<Message>)
      requires SummaryAtMost(before, fitted) && SentUntil(fitted, sent, messages)
      requires PromptOk(messages, prefix, budget.AvailableTokens(), cost)
      requires PromptsOk(before, prefix, budget.AvailableTokens(), cost)
      ensures PromptsOk(sent, prefix, budget.AvailableTokens(), cost)
    {
      forall i | 0 <= i < |sent| && sent[i].purpose.ForAnswer?
        ensures PromptOk(sent[i].messages, prefix, budget.AvailableTokens(), cost)
      {
        if i < |before| {
          assert sent[i] == before[i];
        }
      }
    }

    // What the loop's variables gain in a round that does not end the turn.
    ghost predicate Advances(vars: LoopVars, next: LoopVars) {
      || (next.toolCalls > vars.toolCalls && next.empties == 0 && next.gateUsed == vars.gateUsed)
      || (next == vars.(gateUsed := true) && !vars.gateUsed)
      || next == vars.(empties := vars.empties + 1)
    }

    /** The turn ends for a reason its exchanges bear out. */
    ghost predicate EndsRightly(r: Answer)
      reads this
    {
      log.tally.calls <= requested &&
      match r
      case Ok(text) =>
        LastAnswer(sent).Some? && LastAnswer(sent).value.toolCalls == [] &&
        LastAnswer(sent).value.text == Some(text) && !IsBlank(text)
      case Err(e) =>
        match e
        case Tool(_) => false
        case Llm(_) => GaveUp(e)
        case EmptyResponse => LastAnswer(sent).Some? && IsEmpty(LastAnswer(sent).value)
        case _ => StopsRightly(e, requested)
    }

    /** Acts on the model's response: tool calls, an answer, or nothing at all. */
    method React(list: MessageList, response: LlmResponse, vars: LoopVars)
        returns (next: LoopVars, done: Option<Answer>)
      requires HasResponse(response, list.messages) && transcript.Valid()
      requires CallsOk(limits, vars, log.tally, dispatched) && GateOk(vars, log.tally)
      requires vars.empties < MAX_EMPTY_RESPONSES
      modifies list, transcript, this`log, this`dispatched, this`history, this`cancelFlag
      ensures transcript.Valid() && old(list.messages) <= list.messages && log.past == old(log.past)
      ensures log.tally.thinking == old(log.tally.thinking) && log.tally.llmCalls == old(log.tally.llmCalls)
      ensures log.tally.verifying <= 1
      ensures done.None? ==>
                InTurn() && CallsOk(limits, next, log.tally, dispatched) && GateOk(next, log.tally) &&
                next.empties < MAX_EMPTY_RESPONSES && Advances(vars, next)
      ensures done.None? ==> IsWorking(log.tally.state) && !log.tally.asking && log.tally.calls == requested
      ensures done.None? ==> StandsAt(list.messages)
      ensures done.Some? ==> QuestionsRight()
      ensures done.Some? ==>
                Over(done.value) && CallBounds(limits, log.tally, dispatched) &&
                VerificationOk(done.value, log.tally) && EndsRightly(done.value)
      ensures done.Some? && done.value.Ok? ==> Answered(transcript.messages, old(transcript.messages), done.value.value)
      ensures !(done.Some? && done.value.Ok?) ==> transcript.messages == old(transcript.messages)
      // Which of the three it was.
      ensures response.toolCalls != [] && done.None? ==> log.tally.calls == old(log.tally.calls) + response.toolCalls
      ensures response.toolCalls == [] ==> log.tally.calls == old(log.tally.calls)
      ensures response.toolCalls == [] && response.text.Some? && !IsBlank(response.text.value) ==>
                done == if vars.unverified && !vars.gateUsed then None else Some(Ok(response.text.value))
      ensures IsEmpty(response) ==>
                done == if vars.empties + 1 >= MAX_EMPTY_RESPONSES then Some(Err(EmptyResponse)) else None
    {
      next := vars;
      EndBounds(limits, vars, log.tally, dispatched);
      if response.toolCalls != [] {
        next, done := ReactToCalls(list, response, vars);
      } else if response.text.Some? && !IsBlank(response.text.value) {
        next, done := ReactToText(list, response, vars);
      } else {
        next, done := ReactToNothing(list, response, vars);
      }
    }

    method ReactToText(list: MessageList, response: LlmResponse, vars: LoopVars)
        returns (next: LoopVars, done: Option<Answer>)
      requires HasResponse(response, list.messages) && transcript.Valid() && response.toolCalls == []
      requires response.text.Some? && !IsBlank(response.text.value)
      requires GateOk(vars, log.tally) && vars.unverified == LastMutated(log.tally)
      modifies list, transcript, this`log
      ensures transcript.Valid() && old(list.messages) <= list.messages && log.past == old(log.past)
      ensures log.tally == old(log.tally).(verifying := log.tally.verifying, unverified := log.tally.unverified,
                                           state := log.tally.state)
      ensures done == if vars.unverified && !vars.gateUsed then None else Some(Ok(response.text.value))
      ensures done.None? ==>
                InTurn() && next == vars.(gateUsed := true) && GateOk(next, log.tally) &&
                log.tally.state == Some(Verifying) && StandsAt(list.messages) &&
                transcript.messages == old(transcript.messages)
      ensures done.Some? ==>
                Over(done.value) && log.tally.verifying <= 1 && VerificationOk(done.value, log.tally) &&
                QuestionsRight() && Answered(transcript.messages, old(transcript.messages), done.value.value)
    {
      StandsNudgedMeans(list.messages, response);
      next, done := AnswerWith(list, response.text.value, vars);
    }

    method ReactToNothing(list: MessageList, response: LlmResponse, vars: LoopVars)
        returns (next: LoopVars, done: Option<Answer>)
      requires HasResponse(response, list.messages) && IsEmpty(response)
      modifies list, this`log
      ensures old(list.messages) <= list.messages && log.past == old(log.past) && log.tally == old(log.tally)
      ensures next == vars.(empties := vars.empties + 1)
      ensures done == if vars.empties + 1 >= MAX_EMPTY_RESPONSES then Some(Err(EmptyResponse)) else None
      ensures done.None? ==> InTurn() && StandsAt(list.messages)
      ensures done.Some? ==> Over(Err(EmptyResponse)) && QuestionsRight()
    {
      StandsNudgedMeans(list.messages, response);
      next, done := NudgeEmpty(list, vars);
    }

    method ReactToCalls(list: MessageList, response: LlmResponse, vars: LoopVars)
        returns (next: LoopVars, done: Option<Answer>)
      requires HasResponse(response, list.messages) && response.toolCalls != [] && GateOk(vars, log.tally)
      requires CallsOk(limits, vars, log.tally, dispatched)
      modifies list, this`log, this`dispatched, this`history, this`cancelFlag
      ensures old(list.messages) <= list.messages && log.past == old(log.past)
      ensures SameBut(old(log.tally).(state := Some(Executing)), log.tally)
      ensures done.None? ==> InTurn() && CallsOk(limits, next, log.tally, dispatched) && Advances(vars, next)
      ensures done.None? ==> log.tally.calls == requested && next.empties == 0 && next.gateUsed == vars.gateUsed
      ensures done.Some? ==> done.value.Err? && Over(done.value) && CallBounds(limits, log.tally, dispatched)
      ensures done.Some? ==> StopsRightly(done.value.error, requested) && QuestionsRight()
      ensures done.None? ==> StandsAt(list.messages)
    {
      StandsNudgedMeans(list.messages, response);
      SetState(Executing);
      var stop;
      next, stop := RunTools(list, response.toolCalls, vars);
      done := match stop case Some(e) => Some(Err(e)) case None => None;
    }

    // Neither text nor a tool call: nudged twice, given up on the third time.
    method NudgeEmpty(list: MessageList, vars: LoopVars) returns (next: LoopVars, done: Option<Answer>)
      requires InTurn() && log.tally.state == Some(Thinking) && !log.tally.asking
      modifies list, this`log
      ensures old(list.messages) <= list.messages && log.past == old(log.past) && log.tally == old(log.tally)
      ensures next == vars.(empties := vars.empties + 1)
      ensures done.None? ==>
                log == old(log) && next.empties < MAX_EMPTY_RESPONSES &&
                list.messages == old(list.messages) + [SystemMessage(EMPTY_NUDGE)]
      ensures done.Some? ==>
                next.empties >= MAX_EMPTY_RESPONSES && done == Some(Err(EmptyResponse)) &&
                Over(Err(EmptyResponse))
    {
      next := vars.(empties := vars.empties + 1);
      if next.empties >= MAX_EMPTY_RESPONSES {
        Abort(EMPTY_RESPONSE, EmptyResponse);
        return next, Some(Err(EmptyResponse));
      }
      list.Push(SystemMessage(EMPTY_NUDGE));
      done := None;
    }

    // A round that does not end the turn stays within the count of rounds.
    lemma {:induction false} RoundCounted(vars: LoopVars, next: LoopVars, was: Tally, tally: Tally)
      requires RoundsOk(limits, vars, was) && GateOk(vars, was) && GateOk(next, tally) && Advances(vars, next)
      requires next.empties < MAX_EMPTY_RESPONSES
      requires OneRoundMore(limits, was, tally)
      ensures RoundsOk(limits, next, tally)
    {
      assert tally.thinking * CallsPerRound(limits) == was.thinking * CallsPerRound(limits) + CallsPerRound(limits);
    }

    /** What a turn's log and exchanges add up to when it ends with `r`. */
    ghost predicate EndsWithin(r: Answer)
      reads this
    {
      && Over(r) && CallBounds(limits, log.tally, dispatched) && RoundBounds(limits, log.tally)
      && VerificationOk(r, log.tally) && QuestionsRight()
    }

    // The computer's context could not be read, so nothing was asked of anyone.
    ghost predicate HadNoContext(r: Answer)
      reads this
    {
      r.Err? && r.error.Tool? && sent == [] && dispatched == []
    }

    /** The loop: ends after at most `MaxRounds` rounds, whatever the model and the tools do. */
    method Rounds(list: MessageList, prefix: nat) returns (result: Answer)
      requires AtTop(list.messages, prefix) && transcript.Valid() && dispatched == [] && log.tally.calls == []
      requires log.tally.thinking == 0 && log.tally.verifying == 0 && log.tally.unverified == 0
      requires log.tally.llmCalls <= 1 && PromptsOk(sent, preamble, budget.AvailableTokens(), cost)
      modifies list, transcript
      modifies this`log, this`nextCallIndex, this`sent, this`history, this`requested, this`dispatched, this`cancelFlag
      ensures transcript.Valid() && log.past == old(log.past) && EndsWithin(result) && EndsRightly(result)
      ensures AbandonedLate(sent) && old(sent) <= sent
      ensures PromptsOk(sent, preamble, budget.AvailableTokens(), cost)
      ensures result.Ok? ==> Answered(transcript.messages, old(transcript.messages), result.value)
      ensures result.Err? ==> transcript.messages == old(transcript.messages)
    {
      var vars := LoopVars(None, 0, 0, 0, 0, false, false);
      RunsMean([], 0, AtLeastOne(limits.maxIdenticalRepeats));
      FailuresMean([], 0, AtLeastOne(limits.maxConsecutiveToolFailures));
      while true
        invariant AtTop(list.messages, prefix) && transcript.Valid() && log.past == old(log.past) && old(sent) <= sent
        invariant transcript.messages == old(transcript.messages)
        invariant CallsOk(limits, vars, log.tally, dispatched) && GateOk(vars, log.tally)
        invariant RoundsOk(limits, vars, log.tally)
        invariant PromptsOk(sent, preamble, budget.AvailableTokens(), cost)
        decreases AtLeastOne(limits.maxToolCalls) - vars.toolCalls, !vars.gateUsed, MAX_EMPTY_RESPONSES - vars.empties
      {
        var done;
        vars, done := Round(list, prefix, vars);
        if done.Some? {
          return done.value;
        }
      }
    }

    method Round(list: MessageList, prefix: nat, vars: LoopVars) returns (next: LoopVars, done: Option<Answer>)
      requires AtTop(list.messages, prefix) && transcript.Valid()
      requires PromptsOk(sent, preamble, budget.AvailableTokens(), cost)
      requires CallsOk(limits, vars, log.tally, dispatched) && GateOk(vars, log.tally)
      requires RoundsOk(limits, vars, log.tally)
      modifies list, transcript
      modifies this`log, this`nextCallIndex, this`sent, this`history, this`requested, this`dispatched, this`cancelFlag
      ensures transcript.Valid() && log.past == old(log.past) && AbandonedLate(sent) && old(sent) <= sent
      ensures PromptsOk(sent, preamble, budget.AvailableTokens(), cost)
      ensures done.None? ==>
                AtTop(list.messages, prefix) && CallsOk(limits, next, log.tally, dispatched) &&
                GateOk(next, log.tally) && RoundsOk(limits, next, log.tally) && Advances(vars, next)
      ensures done.Some? ==> EndsWithin(done.value) && EndsRightly(done.value)
      ensures done.Some? && done.value.Ok? ==> Answered(transcript.messages, old(transcript.messages), done.value.value)
      ensures !(done.Some? && done.value.Ok?) ==> transcript.messages == old(transcript.messages)
    {
      ghost var was := log.tally;
      var response := Ask(list, prefix);
      match response {
        case Err(error) =>
          AskFailed(vars, was, error);
          next, done := vars, Some(Err(error));
        case Ok(answer) =>
          next, done := Continue(list, prefix, answer, vars, was);
      }
    }

    lemma {:induction false} AskFailed(vars: LoopVars, was: Tally, e: TurnError)
      requires CallsOk(limits, vars, was, dispatched) && GateOk(vars, was) && RoundsOk(limits, vars, was)
      requires Asked(limits, was, log.tally) && Over(Err(e)) && GaveUp(e) && log.tally.calls <= requested
      requires QuestionsRight()
      ensures EndsWithin(Err(e)) && EndsRightly(Err(e))
    {
      EndBounds(limits, vars, was, dispatched);
      LastRound(limits, vars, was, log.tally);
    }

    // The second half of a round, with the model's response in hand.
    method Continue(list: MessageList, prefix: nat, response: LlmResponse, vars: LoopVars, ghost was: Tally)
        returns (next: LoopVars, done: Option<Answer>)
      requires HasResponse(response, list.messages) && transcript.Valid() && AbandonedLate(sent)
      requires |preamble| == prefix
      requires CallsOk(limits, vars, log.tally, dispatched) && GateOk(vars, log.tally)
      requires RoundsOk(limits, vars, was) && GateOk(vars, was) && vars.toolCalls < AtLeastOne(limits.maxToolCalls)
      requires OneRoundMore(limits, was, log.tally)
      modifies list, transcript, this`log, this`dispatched, this`history, this`cancelFlag
      ensures transcript.Valid() && log.past == old(log.past)
      ensures done.None? ==>
                AtTop(list.messages, prefix) && CallsOk(limits, next, log.tally, dispatched) &&
                GateOk(next, log.tally) && RoundsOk(limits, next, log.tally) && Advances(vars, next)
      ensures done.Some? ==> EndsWithin(done.value) && EndsRightly(done.value)
      ensures done.Some? && done.value.Ok? ==> Answered(transcript.messages, old(transcript.messages), done.value.value)
      ensures !(done.Some? && done.value.Ok?) ==> transcript.messages == old(transcript.messages)
    {
      next, done := React(list, response, vars);
      if done.Some? {
        LastRound(limits, vars, was, log.tally);
      } else {
        RoundCounted(vars, next, was, log.tally);
      }
    }

    // ----- Turns.

    // A turn that has begun, and nothing more.
    ghost predicate HasBegun()
      reads this
    {
      InTurn() && log.tally == Zero().(state := Some(Receiving)) && sent == [] && dispatched == [] && requested == [] &&
      history == [] && preamble == []
    }

    method StartTurn(input: string, source: RequestSource)
      requires Valid()
      modifies this, transcript
      ensures HasBegun() && transcript.Valid() && log.past == old(log.Trace()) && task == old(nextTask)
      ensures log.monitor.current.value.phase.Running?
      ensures transcript.messages == With(old(transcript.messages), UserMessage(input))
      ensures asked == input && askedBy == source
      ensures log.turn == [RequestStarted(task, input, source), StateChanged(task, Receiving)]
    {
      Begin(input, source);
      transcript.Push(UserMessage(input), cost, budget.AvailableTokens());
    }

    // The next task, and its first two events.
    method Begin(input: string, source: RequestSource)
      requires Valid()
      modifies this
      ensures HasBegun() && log.past == old(log.Trace()) && task == old(nextTask)
      ensures log.monitor.current.value.phase.Running? && asked == input && askedBy == source
      ensures log.turn == [RequestStarted(task, input, source), StateChanged(task, Receiving)]
    {
      asked, askedBy := input, source;
      task, nextTask, nextCallIndex := nextTask, nextTask + 1, 0;
      Announce(input, source);
      SetState(Receiving);
    }

    // The turn's first event, with nothing exchanged yet.
    method Announce(input: string, source: RequestSource)
      requires Good(log) && task !in log.monitor.used && nextCallIndex == 0
      requires log.monitor.current.Some? ==> Resting(log.monitor.current.value)
      requires asked == input && askedBy == source && (forall u | u in log.monitor.used + {task} :: u < nextTask)
      modifies this`log, this`sent, this`history, this`dispatched, this`requested, this`preamble
      ensures InTurn() && log.tally == Zero() && sent == [] && dispatched == [] && requested == [] &&
              history == [] && preamble == []
      ensures log.past == old(log.Trace()) && log.turn == [RequestStarted(task, input, source)]
    {
      sent, dispatched, requested, history, preamble := [], [], [], [], [];
      TurnStarts(log, task, input, source);
      SentMeans([], [], []);
      DispatchedMeans([], [], [], []);
      InterleavesMeans([], [], []);
      Emit(RequestStarted(task, input, source));
    }

    method BuildPromptMessages()
        returns (r: Result<seq<Message>, TurnError>, ghost context: string, ghost facts: string)
      requires transcript.Valid()
      ensures r.Err? ==> r.error.Tool?
      ensures r.Ok? ==> r.value == PromptMessages(context, facts, transcript.messages)
    {
      var gotContext: string, gotFacts: string := *, *;
      context, facts := gotContext, gotFacts;
      if * {
        return Err(Tool(gotContext)), context, facts;
      }
      var messages := [SystemMessage("Computer context:\n" + gotContext + CONTEXT_NOTE)];
      if gotFacts != "" {
        messages := messages + [SystemMessage("Remembered facts:\n" + gotFacts)];
      }
      var history := transcript.Snapshot();
      r := Ok(messages + history);
    }

    // The plan's message, when the planning call gave one.
    ghost function PlanMessages(): seq<Message>
      reads this
    {
      if sent == [] || PlanIn(sent[0].outcome).None? then []
      else [AssistantText("Plan:\n" + PlanIn(sent[0].outcome).value)]
    }

    // Before the first question the prompt is its prefix.
    lemma {:induction false} PlannedStands()
      requires |history| <= 1 && forall e | e in history :: e.Called? && e.call.purpose.ForPlan?
      ensures Stands(history, preamble, preamble, 0, budget, cost)
    {
      StandsAtFirst(preamble, budget, cost);
      if |history| == 1 {
        StandsAfter([], history[0], preamble, preamble, 0, budget, cost);
        assert [] + [history[0]] == history && preamble + [] == preamble;
      }
    }

    method PlanAhead(messages: seq<Message>) returns (prompt: seq<Message>)
      requires HasBegun()
      modifies this`log, this`nextCallIndex, this`sent, this`history, this`requested, this`cancelFlag
      modifies this`preamble
      ensures AtTop(prompt, |prompt|) && log.past == old(log.past) && prompt == preamble == messages + PlanMessages()
      ensures log.tally == Zero().(llmCalls := log.tally.llmCalls, state := log.tally.state)
      ensures log.tally.llmCalls == |sent| == if planningEnabled then 1 else 0
      ensures forall c | c in sent :: c.purpose.ForPlan? && |c.messages| == |messages| + 1 && messages <= c.messages
    {
      prompt := messages;
      if planningEnabled {
        var plan := MakePlan(messages);
        if plan.Some? {
          prompt := prompt + [AssistantText("Plan:\n" + plan.value)];
        }
      }
      preamble := prompt;
      PlannedStands();
    }

    // The planning call, and the plan announced if there is one.
    method MakePlan(messages: seq<Message>) returns (plan: Option<string>)
      requires HasBegun()
      modifies this`log, this`nextCallIndex, this`sent, this`history, this`requested, this`cancelFlag
      ensures InTurn() && log.past == old(log.past) && requested == []
      ensures log.tally == Zero().(llmCalls := 1, state := Some(Planning))
      ensures |sent| == 1 && history == [Called(sent[0])] && plan == PlanIn(sent[0].outcome)
      ensures sent[0].purpose.ForPlan? && |sent[0].messages| == |messages| + 1 && messages <= sent[0].messages
    {
      SetState(Planning);
      var instructions: string := *;
      ghost var outcome;
      plan, outcome := BuildPlan(messages, instructions);
      if plan.Some? {
        Note(PlanCreated(task, plan.value));
      }
    }

    /**
     What a finished turn's events add up to, and its exchanges with the model and the dispatcher: all of them are in
     the events; every limit held; every prompt kept the prefix and the budget; cancellation took effect; the tool
     calls are those the model asked for, in order; and the turn ended for the reason it gives.
     */
    ghost predicate TurnOk(r: Answer, prefix: seq<Message>)
      reads this
    {
      && log.tally == TallyOf(log.turn) && requested == Requested(sent)
      && |sent| == log.tally.llmCalls && CallsOf(dispatched) == log.tally.calls
      && MutationsOf(dispatched) == log.tally.mutated
      && EndsWithin(r) && (HadNoContext(r) || EndsRightly(r)) && AbandonedLate(sent)
      && PromptsOk(sent, prefix, budget.AvailableTokens(), cost)
      && SentIn(history) == sent && RanIn(history) == dispatched && QuestionsOk(history, prefix, budget, cost)
      && ((forall e | e in log.turn :: !IsPressure(e)) ==> Unreduced(history, prefix))
    }

    /**
     One turn, against any model and any tools. It ends; it keeps every bound; its events are accepted by the automaton
     and say how it ended and what was exchanged on the way; its prompts start with the context, the facts, the
     transcript with the user's message, and the plan; and the transcript gains that message and, on success, the
     answer.
     */
    method ProcessFrom(input: string, source: RequestSource)
        returns (result: Answer, ghost prefix: seq<Message>, ghost context: string, ghost facts: string)
      requires Valid()
      modifies this, transcript
      ensures Valid() && IsTurns(log.Trace()) && task == old(nextTask)
      ensures log.past == old(log.Trace()) && TurnOk(result, prefix)
      ensures Endings(log.Trace())
              == Endings(old(log.Trace())) + [EndingOf(input, source, result, Exchanges(sent, dispatched))]
      ensures !(result.Err? && result.error.Tool?) ==>
                prefix == PromptMessages(context, facts, WithText(old(transcript.messages), "user", input))
                          + if planningEnabled then PlanMessages() else []
      ensures result.Ok? ==>
                transcript.messages
                == WithText(WithText(old(transcript.messages), "user", input), "assistant", result.value)
      ensures result.Err? ==> transcript.messages == WithText(old(transcript.messages), "user", input)
    {
      StartTurn(input, source);
      var built;
      built, context, facts := BuildPromptMessages();
      match built {
        case Err(e) =>
          result, prefix := Err(e), [];
          TurnStops(log, task);
          ZeroBounds(limits);
          AskedRightlyMeans([], [], log.tally.pressed, budget, cost);
        case Ok(messages) =>
          result, prefix := Converse(messages);
      }
      TurnAddsUp(result, prefix);
    }

    // The log of an ended turn, read as its events.
    lemma {:induction false} TurnAddsUp(r: Answer, prefix: seq<Message>)
      requires EndsWithin(r) && (HadNoContext(r) || EndsRightly(r)) && AbandonedLate(sent)
      requires PromptsOk(sent, prefix, budget.AvailableTokens(), cost) && prefix == preamble
      ensures TurnOk(r, prefix) && IsTurns(log.Trace()) && Good(log)
      ensures log.monitor.current.Some? && Resting(log.monitor.current.value)
      ensures Endings(log.Trace()) == Endings(log.past) + [EndingOf(asked, askedBy, r, Exchanges(sent, dispatched))]
    {
      EndedTrace(log, task, StatusOf(r), ReasonOf(r), ReplyOf(r));
      SentMeans(sent, requested, FactsIn(log).calls);
      InterleavesMeans(history, sent, dispatched);
      AskedRightlyMeans(history, preamble, log.tally.pressed, budget, cost);
      PressedMeans(log.turn);
      DispatchedMeans(dispatched, log.tally.calls, log.tally.mutated, FactsIn(log).tools);
      EndingsAppend(Summaries(Observed(log.past).value), Conclude(log.monitor.current.value));
    }

    /** Any number of turns: whole turns of events, one by one telling what was asked, exchanged and answered. */
    method ProcessAll(inputs: seq<string>, source: RequestSource)
        returns (results: seq<Answer>, ghost exchanges: seq<Exchanges>)
      requires Valid()
      modifies this, transcript
      ensures Valid() && IsTurns(log.Trace()) && |exchanges| == |results| == |inputs|
      ensures Endings(log.Trace()) == Endings(old(log.Trace())) + EndingsOf(inputs, source, results, exchanges)
      ensures forall e | e in exchanges :: AbandonedLate(e.sent)
    {
      results, exchanges := [], [];
      ghost var endings := Endings(log.Trace());
      assert endings + EndingsOf([], source, [], []) == endings;
      EndsAsMeans(log, endings);
      for i := 0 to |inputs|
        invariant Valid() && |exchanges| == |results| == i
        invariant EndsAs(log, endings + EndingsOf(inputs[..i], source, results, exchanges))
        invariant forall e | e in exchanges :: AbandonedLate(e.sent)
      {
        var result;
        ghost var e;
        result, e := ProcessNext(inputs[i], source, endings + EndingsOf(inputs[..i], source, results, exchanges));
        assert inputs[..i + 1] == inputs[..i] + [inputs[i]];
        OneMoreEnding(endings, inputs[..i], inputs[i], source, results, result, exchanges, e);
        results, exchanges := results + [result], exchanges + [e];
      }
      assert inputs[..|inputs|] == inputs;
      EndsAsMeans(log, endings + EndingsOf(inputs, source, results, exchanges));
      GoodMeans(log);
    }

    // The next turn starts with the flag down.
    method ProcessNext(input: string, source: RequestSource, ghost before: seq<Ending>)
        returns (result: Answer, ghost e: Exchanges)
      requires Valid() && EndsAs(log, before)
      modifies this, transcript
      ensures Valid() && EndsAs(log, before + [EndingOf(input, source, result, e)]) && AbandonedLate(e.sent)
    {
      EndsAsMeans(log, before);
      cancelFlag := false;
      ghost var prefix, context, facts;
      result, prefix, context, facts := ProcessFrom(input, source);
      e := Exchanges(sent, dispatched);
      EndsAsMeans(log, before + [EndingOf(input, source, result, e)]);
    }

    static lemma {:induction false} OneMoreEnding(
        before: seq<Ending>, inputs: seq<string>, input: string, source: RequestSource, results: seq<Answer>, r: Answer,
        exchanges: seq<Exchanges>, e: Exchanges)
      requires |inputs| == |results| == |exchanges|
      ensures before + EndingsOf(inputs + [input], source, results + [r], exchanges + [e])
              == before + EndingsOf(inputs, source, results, exchanges) + [EndingOf(input, source, r, e)]
    {
    }

    lemma {:induction false} ZeroBounds(limits: LoopLimits)
      ensures var tally := Zero().(state := Some(Receiving));
              CallBounds(limits, tally, []) && RoundBounds(limits, tally) && tally.unverified == 0
    {
      assert MaxRounds(limits) * CallsPerRound(limits) >= 0;
      assert RefusalsOf([]) == [];
      RunsMean([], 0, AtLeastOne(limits.maxIdenticalRepeats));
      FailuresMean([], 0, AtLeastOne(limits.maxConsecutiveToolFailures));
    }

    method Converse(messages: seq<Message>) returns (result: Answer, ghost prefix: seq<Message>)
      requires HasBegun() && transcript.Valid()
      modifies this`log, this`nextCallIndex, this`sent, this`history, this`requested, this`dispatched, this`cancelFlag
      modifies this`preamble, transcript
      ensures transcript.Valid() && log.past == old(log.past) && EndsWithin(result) && EndsRightly(result)
      ensures AbandonedLate(sent) && prefix == preamble == messages + (if planningEnabled then PlanMessages() else [])
      ensures PromptsOk(sent, prefix, budget.AvailableTokens(), cost)
      ensures result.Ok? ==> Answered(transcript.messages, old(transcript.messages), result.value)
      ensures result.Err? ==> transcript.messages == old(transcript.messages)
    {
      var prompt := PlanAhead(messages);
      var list := new MessageList(prompt);
      prefix := prompt;
      assert prompt[..|prompt|] == prompt;
      result := Rounds(list, |prompt|);
    }
  }
}
