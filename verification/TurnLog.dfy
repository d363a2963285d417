/** What a turn's events add up to, and runs of equal or failing tool calls. */
module TurnLogs {
  import opened Wrappers
  import opened Prompt
  import opened TurnEvents

  /** Counts over one turn's events, and its tool calls in order. */
  datatype Tally = Tally(
    thinking: nat, verifying: nat, unverified: nat, llmCalls: nat, calls: seq<ToolCall>, mutated: seq<bool>,
    // The turn's state, and whether the loop is about to ask the model.
    state: Option<TurnState>, asking: bool,
    // Reports of prompts cut to the budget.
    pressed: nat)

  function Tallied(t: Tally, e: Event): Tally {
    CountedIn(t, e).(asking := (e.StateChanged? && e.state == Thinking) || e.Retrying?)
  }

  function CountedIn(t: Tally, e: Event): Tally {
    match e
    case StateChanged(_, state) =>
      t.(state := Some(state), thinking := t.thinking + if state == Thinking then 1 else 0,
         verifying := t.verifying + if state == Verifying then 1 else 0)
    case BudgetPressure(_, _, _) => t.(pressed := t.pressed + 1)
    case TranscriptCompacted(_, _) => t.(pressed := t.pressed + 1)
    case AnsweredUnverified(_) => t.(unverified := t.unverified + 1)
    case LlmStarted(_, _, _) => t.(llmCalls := t.llmCalls + 1)
    case ToolStarted(_, _, name, arguments) => t.(calls := t.calls + [ToolCall(name, arguments)])
    case ToolCompleted(_, _, _, _, _, _, mutated) => t.(mutated := t.mutated + [mutated])
    case _ => t
  }

  function Zero(): Tally {
    Tally(0, 0, 0, 0, [], [], None, false, 0)
  }

  function TallyOf(turn: seq<Event>): Tally {
    if turn == [] then Zero()
    else Tallied(TallyOf(turn[..|turn| - 1]), turn[|turn| - 1])
  }

  predicate IsPressure(e: Event) {
    e.BudgetPressure? || e.TranscriptCompacted?
  }

  lemma {:induction false} PressedMeans(turn: seq<Event>)
    ensures TallyOf(turn).pressed == 0 <==> forall e | e in turn :: !IsPressure(e)
  {
    if turn != [] {
      var front, last := turn[..|turn| - 1], turn[|turn| - 1];
      PressedMeans(front);
      assert TallyOf(turn).pressed == TallyOf(front).pressed + if IsPressure(last) then 1 else 0;
      assert turn == front + [last] && last in turn;
      forall e | e in front ensures e in turn {
      }
    }
  }

  /** The events of earlier turns, those of the current one, and what they amount to. */
  datatype Log = Log(past: seq<Event>, turn: seq<Event>, monitor: Monitor, tally: Tally)
  {
    function Trace(): seq<Event> {
      past + turn
    }
  }

  predicate IsTraceOf(trace: seq<Event>, log: Log) {
    trace == log.Trace()
  }

  predicate Explains(log: Log, trace: seq<Event>) {
    && Observed(trace) == Some(log.monitor) && TallyOf(log.turn) == log.tally
    && (log.monitor.current.Some? ==> log.turn != [])
    && (log.turn != [] ==> Observed(log.past).Some? && log.monitor.done == Summaries(Observed(log.past).value))
  }

  // Stated for every name of the trace, so that it is only looked into where the trace is named.
  ghost predicate Good(log: Log) {
    forall trace | IsTraceOf(trace, log) :: Explains(log, trace)
  }

  /** The automaton has accepted the trace, the tally is the turn's, and the turns before it are done. */
  lemma {:induction false} GoodMeans(log: Log)
    ensures Good(log) <==> Explains(log, log.Trace())
  {
    assert IsTraceOf(log.Trace(), log);
  }

  function EmptyLog(): Log {
    Log([], [], Quiet(), Zero())
  }

  function Logged(log: Log, e: Event): Log
    requires Observe(log.monitor, e).Some?
  {
    var monitor := Observe(log.monitor, e).value;
    if e.RequestStarted? then Log(log.Trace(), [e], monitor, Zero())
    else Log(log.past, log.turn + [e], monitor, Tallied(log.tally, e))
  }

  lemma {:induction false} LoggedGood(log: Log, e: Event)
    requires Good(log) && Observe(log.monitor, e).Some?
    ensures Good(Logged(log, e)) && Logged(log, e).Trace() == log.Trace() + [e]
  {
    GoodMeans(log);
    ObservedAppend(log.Trace(), e);
    assert Logged(log, e).Trace() == log.Trace() + [e];
    if e.RequestStarted? {
      StartExplained(log, e);
    } else {
      StepExplained(log, e);
    }
    GoodMeans(Logged(log, e));
  }

  lemma {:induction false} StartExplained(log: Log, e: Event)
    requires Explains(log, log.Trace()) && e.RequestStarted? && Observe(log.monitor, e).Some?
    requires Observed(log.Trace() + [e]) == Observe(log.monitor, e)
    ensures Explains(Logged(log, e), log.Trace() + [e])
  {
    assert [e][..|[e]| - 1] == [];
    assert TallyOf([e]) == Tallied(TallyOf([]), e) == Zero();
  }

  lemma {:induction false} StepExplained(log: Log, e: Event)
    requires Explains(log, log.Trace()) && !e.RequestStarted? && Observe(log.monitor, e).Some?
    requires Observed(log.Trace() + [e]) == Observe(log.monitor, e)
    ensures Explains(Logged(log, e), log.Trace() + [e])
  {
    assert (log.turn + [e])[..|log.turn|] == log.turn;
    SameDone(log.monitor, e);
  }

  lemma {:induction false} SameDone(m: Monitor, e: Event)
    requires Observe(m, e).Some? && !e.RequestStarted?
    ensures m.current.Some? && Observe(m, e).value.current.Some? && Observe(m, e).value.done == m.done
  {
  }

  /** A turn is running; its LLM calls and tool calls are numbered so far without a gap. */
  ghost predicate Live(log: Log, task: nat) {
    && Good(log) && log.monitor.current.Some?
    && var t := log.monitor.current.value;
       && t.task == task && t.llmCalls == log.tally.llmCalls && t.toolCalls == |log.tally.calls| == |log.tally.mutated|
       && (t.phase.Running? || t.phase.Answering?) && t.facts.reply.None? && t.state == log.tally.state
  }

  // What the current turn's events say so far.
  function FactsIn(log: Log): Facts
    requires log.monitor.current.Some?
  {
    log.monitor.current.value.facts
  }

  /** The same turn, and what is now known about it. */
  predicate SameTurn(a: Log, b: Log, facts: Facts) {
    a.past == b.past && a.monitor.used == b.monitor.used && b.monitor.current.Some? && FactsIn(b) == facts
  }

  // Events that neither start or answer a call nor end the turn.
  predicate IsPlain(e: Event) {
    e.StateChanged? || e.PlanCreated? || e.Retrying? || e.BudgetPressure? || e.TranscriptCompacted? ||
    e.AnsweredUnverified?
  }

  lemma {:induction false} PlainAccepted(log: Log, task: nat, e: Event)
    requires Live(log, task) && IsPlain(e) && e.task == task && InPlace(log.monitor.current.value, e)
    ensures Observe(log.monitor, e).Some? && Live(Logged(log, e), task)
    ensures Logged(log, e).monitor.current.value.phase.Running?
    ensures Logged(log, e).tally == Tallied(log.tally, e)
    ensures SameTurn(log, Logged(log, e), FactsIn(log))
  {
    PlainObserved(log.monitor, e);
    LoggedGood(log, e);
    PlainLive(log, Logged(log, e), task, e);
  }

  lemma {:induction false} PlainLive(log: Log, log': Log, task: nat, e: Event)
    requires Live(log, task) && Good(log') && IsPlain(e) && log'.tally == Tallied(log.tally, e)
    requires log'.monitor == log.monitor.(current := Some(RunsOn(log.monitor.current.value, e)))
    ensures Live(log', task)
  {
  }

  // The turn after a plain event.
  function RunsOn(t: Turn, e: Event): Turn {
    t.(phase := Running, state := if e.StateChanged? then Some(e.state) else t.state)
  }

  lemma {:induction false} PlainObserved(m: Monitor, e: Event)
    requires m.current.Some? && m.current.value.task == e.task && IsPlain(e) && InPlace(m.current.value, e)
    requires m.current.value.phase.Running? || m.current.value.phase.Answering?
    ensures Observe(m, e) == Some(m.(current := Some(RunsOn(m.current.value, e))))
  {
  }

  // An event that leaves the turn running in the same state, with the given phase, counts and facts.
  lemma {:induction false} MovesOn(log: Log, task: nat, e: Event, t': Turn)
    requires Good(log) && !e.RequestStarted? && Observe(log.monitor, e) == Some(log.monitor.(current := Some(t')))
    requires t'.task == task && (t'.phase.Running? || t'.phase.Answering?) && t'.facts.reply.None?
    requires t'.llmCalls == Tallied(log.tally, e).llmCalls && t'.state == Tallied(log.tally, e).state
    requires t'.toolCalls == |Tallied(log.tally, e).calls| == |Tallied(log.tally, e).mutated|
    ensures Live(Logged(log, e), task) && SameTurn(log, Logged(log, e), t'.facts)
    ensures Logged(log, e).monitor.current.value.phase == t'.phase
  {
    LoggedGood(log, e);
  }

  // Where an LLM call may start: in the rounds, or as the plan.
  predicate MayCall(tally: Tally) {
    IsWorking(tally.state) || (tally.state == Some(Planning) && tally.llmCalls == 0)
  }

  // The next LLM call gets the next index.
  lemma {:induction false} CallStarts(log: Log, task: nat, images: nat)
    requires Live(log, task) && MayCall(log.tally)
    ensures var i := log.tally.llmCalls + 1;
            var e := LlmStarted(task, i, images);
            && Observe(log.monitor, e)
               == Some(log.monitor.(current := Some(log.monitor.current.value.(phase := Answering(i), llmCalls := i))))
            && Live(Logged(log, e), task) && SameTurn(log, Logged(log, e), FactsIn(log))
  {
    var i := log.tally.llmCalls + 1;
    MovesOn(log, task, LlmStarted(task, i, images), log.monitor.current.value.(phase := Answering(i), llmCalls := i));
  }

  // What is known once a call has its outcome.
  function WithLlmFact(log: Log, call: LlmFact): Facts
    requires log.monitor.current.Some?
  {
    FactsIn(log).(calls := FactsIn(log).calls + [call])
  }

  function WithToolFact(log: Log, tool: ToolFact): Facts
    requires log.monitor.current.Some?
  {
    FactsIn(log).(tools := FactsIn(log).tools + [tool])
  }

  lemma {:induction false} CallAnswered(log: Log, task: nat, input: Option<nat>, output: Option<nat>)
    requires Live(log, task) && log.monitor.current.value.phase == Answering(log.tally.llmCalls)
    ensures var i := log.tally.llmCalls;
            var e := LlmCompleted(task, i);
            && Observe(log.monitor, e).Some? && Good(Logged(log, e))
            && var counting := Logged(log, e);
               && Observe(counting.monitor, TokensUsed(task, i, input, output)).Some?
               && var log' := Logged(counting, TokensUsed(task, i, input, output));
                  && Live(log', task) && log'.tally == log.tally.(asking := false)
                  && log'.monitor.current.value.phase.Running?
                  && SameTurn(log, log', WithLlmFact(log, LlmFact(i, input, output, None)))
  {
    var i, t := log.tally.llmCalls, log.monitor.current.value;
    var e := LlmCompleted(task, i);
    assert Observe(log.monitor, e) == Some(log.monitor.(current := Some(t.(phase := Counting(i)))));
    LoggedGood(log, e);
    MovesOn(Logged(log, e), task, TokensUsed(task, i, input, output),
            WithCall(t.(phase := Counting(i)), LlmFact(i, input, output, None)));
  }

  lemma {:induction false} CallFails(log: Log, task: nat, error: string)
    requires Live(log, task) && log.monitor.current.value.phase == Answering(log.tally.llmCalls)
    ensures var e := LlmFailed(task, log.tally.llmCalls, error);
            && Observe(log.monitor, e).Some?
            && Live(Logged(log, e), task) && Logged(log, e).tally == log.tally.(asking := false)
            && Logged(log, e).monitor.current.value.phase.Running?
            && SameTurn(log, Logged(log, e), WithLlmFact(log, LlmFact(log.tally.llmCalls, None, None, Some(error))))
  {
    MovesOn(log, task, LlmFailed(task, log.tally.llmCalls, error),
            WithCall(log.monitor.current.value, LlmFact(log.tally.llmCalls, None, None, Some(error))));
  }

  // Between a tool call's two events.
  ghost predicate IsDispatching(log: Log, task: nat, call: ToolCall) {
    && Good(log) && log.tally.calls != [] && |log.tally.mutated| == |log.tally.calls| - 1
    && log.monitor.current.Some?
    && var t, n := log.monitor.current.value, |log.tally.calls|;
       && t.task == task && t.llmCalls == log.tally.llmCalls && t.toolCalls == n && t.state == log.tally.state
       && t.phase == Dispatching(n, call.name, call.arguments) && t.facts.reply.None?
  }

  lemma {:induction false} ToolBegins(log: Log, task: nat, call: ToolCall)
    requires Live(log, task) && log.tally.state == Some(Executing)
    ensures var e := ToolStarted(task, |log.tally.calls| + 1, call.name, call.arguments);
            && Observe(log.monitor, e).Some? && IsDispatching(Logged(log, e), task, call)
            && Logged(log, e).tally == log.tally.(calls := log.tally.calls + [call], asking := false)
            && SameTurn(log, Logged(log, e), FactsIn(log))
  {
    LoggedGood(log, ToolStarted(task, |log.tally.calls| + 1, call.name, call.arguments));
  }

  lemma {:induction false} ToolEnds(
      log: Log, task: nat, call: ToolCall, output: string, images: nat, mutated: bool)
    requires IsDispatching(log, task, call)
    ensures var n := |log.tally.calls|;
            var e := ToolCompleted(task, n, call.name, output, images, call.arguments, mutated);
            && Observe(log.monitor, e).Some? && Live(Logged(log, e), task)
            && Logged(log, e).tally == log.tally.(mutated := log.tally.mutated + [mutated], asking := false)
            && SameTurn(log, Logged(log, e),
                        WithToolFact(log, ToolFact(n, call.name, call.arguments, output, mutated)))
  {
    var n := |log.tally.calls|;
    MovesOn(log, task, ToolCompleted(task, n, call.name, output, images, call.arguments, mutated),
            WithTool(log.monitor.current.value, ToolFact(n, call.name, call.arguments, output, mutated)));
  }

  /** The turn is over, or its method returns without a word. */
  ghost predicate Ended(log: Log, task: nat, status: string, error: Option<string>, reply: Option<string>) {
    && Good(log) && log.monitor.current.Some?
    && var t := log.monitor.current.value;
       && t.task == task && Resting(t) && t.facts.reply == reply
       && Conclude(t) == Summary(task, status, error, log.tally.llmCalls, |log.tally.calls|, t.facts)
  }

  lemma {:induction false} EndedTrace(log: Log, task: nat, status: string, error: Option<string>, reply: Option<string>)
    requires Ended(log, task, status, error, reply)
    ensures IsTurns(log.Trace()) && TallyOf(log.turn) == log.tally
    ensures Observed(log.past).Some? && Observed(log.Trace()).Some?
    ensures Summaries(Observed(log.Trace()).value)
            == Summaries(Observed(log.past).value)
               + [Summary(task, status, error, log.tally.llmCalls, |log.tally.calls|, FactsIn(log))]
  {
    GoodMeans(log);
  }

  lemma {:induction false} TurnCompletes(log: Log, task: nat, reply: string)
    requires Live(log, task) && log.tally.state == Some(Responding)
    ensures var e := RequestCompleted(task, reply);
            && Observe(log.monitor, e).Some? && Ended(Logged(log, e), task, OK, None, Some(reply))
            && Logged(log, e).tally == log.tally.(asking := false)
            && SameTurn(log, Logged(log, e), FactsIn(log).(reply := Some(reply)))
  {
    LoggedGood(log, RequestCompleted(task, reply));
  }

  lemma {:induction false} TurnFails(log: Log, task: nat, error: string)
    requires Live(log, task) && (log.tally.state == Some(Executing) || log.tally.state == Some(Thinking))
    ensures var e := RequestFailed(task, error);
            && Observe(log.monitor, e).Some? && Ended(Logged(log, e), task, ERROR, Some(error), None)
            && Logged(log, e).tally == log.tally.(asking := false) && SameTurn(log, Logged(log, e), FactsIn(log))
  {
    LoggedGood(log, RequestFailed(task, error));
  }

  // A turn whose method returns the model's error, or has no context for its prompt, says nothing more.
  lemma {:induction false} TurnStops(log: Log, task: nat)
    requires Live(log, task) && log.monitor.current.value.phase.Running?
    requires log.tally.state == Some(Receiving) || log.tally.state == Some(Thinking)
    ensures Ended(log, task, ERROR, Some(NO_TERMINAL_EVENT), None)
  {
  }

  // Between a turn's `Cancelled` and its `RequestFailed`.
  ghost predicate IsCancelling(log: Log, task: nat) {
    && Good(log) && log.monitor.current.Some?
    && var t := log.monitor.current.value;
       && t.task == task && t.phase.Cancelling? && t.facts.reply.None?
       && t.llmCalls == log.tally.llmCalls && t.toolCalls == |log.tally.calls|
  }

  lemma {:induction false} CancelBegins(log: Log, task: nat)
    requires Live(log, task) && log.tally.state.Some? && log.tally.state != Some(Responding)
    ensures var e := Cancelled(task);
            && Observe(log.monitor, e).Some? && IsCancelling(Logged(log, e), task)
            && Logged(log, e).tally == log.tally.(asking := false) && SameTurn(log, Logged(log, e), FactsIn(log))
  {
    LoggedGood(log, Cancelled(task));
  }

  lemma {:induction false} CancelEnds(log: Log, task: nat)
    requires IsCancelling(log, task)
    ensures var e := RequestFailed(task, CANCELLED);
            && Observe(log.monitor, e).Some? && Ended(Logged(log, e), task, CANCELLED, None, None)
            && Logged(log, e).tally == log.tally.(asking := false) && SameTurn(log, Logged(log, e), FactsIn(log))
  {
    LoggedGood(log, RequestFailed(task, CANCELLED));
  }

  lemma {:induction false} TurnStarts(log: Log, task: nat, prompt: string, source: RequestSource)
    requires Good(log) && task !in log.monitor.used
    requires log.monitor.current.Some? ==> Resting(log.monitor.current.value)
    ensures var e := RequestStarted(task, prompt, source);
            && Observe(log.monitor, e).Some? && Live(Logged(log, e), task)
            && Logged(log, e).tally == Zero() && Logged(log, e).monitor.used == log.monitor.used + {task}
            && FactsIn(Logged(log, e)) == Facts(prompt, source, None, [], [])
  {
    var e := RequestStarted(task, prompt, source);
    LoggedGood(log, e);
  }

  // ----- Runs.

  /** The length of the run of equal elements at the end. */
  function Run<T(==)>(s: seq<T>): (n: nat)
    ensures n <= |s| && (s != [] ==> n >= 1)
  {
    if |s| == 0 then 0
    else if |s| == 1 || s[|s| - 2] != s[|s| - 1] then 1
    else Run(s[..|s| - 1]) + 1
  }

  function LongestRun<T(==)>(s: seq<T>): (n: nat)
    ensures n >= Run(s)
  {
    if s == [] then 0
    else
      var front := LongestRun(s[..|s| - 1]);
      if Run(s) > front then Run(s) else front
  }

  predicate EqualBlock<T(==)>(s: seq<T>, i: nat, n: nat) {
    i + n <= |s| && forall k | i <= k < i + n :: s[k] == s[i]
  }

  lemma {:induction false} RunIsBlock<T>(s: seq<T>, n: nat)
    requires 1 <= n <= |s|
    ensures Run(s) >= n <==> EqualBlock(s, |s| - n, n)
  {
    if n > 1 {
      BlockShrinks(s, n);
      RunIsBlock(s[..|s| - 1], n - 1);
    }
  }

  lemma {:induction false} BlockShrinks<T>(s: seq<T>, n: nat)
    requires 2 <= n <= |s|
    ensures EqualBlock(s, |s| - n, n) <==> s[|s| - 2] == s[|s| - 1] && EqualBlock(s[..|s| - 1], |s| - n, n - 1)
  {
    var front, i := s[..|s| - 1], |s| - n;
    assert forall k | i <= k < |front| :: front[k] == s[k];
    assert EqualBlock(front, i, n - 1) <==> forall k | i <= k < |front| :: s[k] == s[i];
  }

  /** The longest run is shorter than `n` exactly when no `n` adjacent elements are equal. */
  lemma {:induction false} LongestRunMeans<T>(s: seq<T>, n: nat)
    requires n >= 1
    ensures LongestRun(s) < n <==> forall i | 0 <= i <= |s| - n :: !EqualBlock(s, i, n)
  {
    if s != [] {
      var front := s[..|s| - 1];
      LongestRunMeans(front, n);
      forall i | 0 <= i <= |front| - n ensures EqualBlock(s, i, n) <==> EqualBlock(front, i, n) {
        assert forall k | i <= k < i + n :: s[k] == front[k];
      }
      if n <= |s| {
        RunIsBlock(s, n);
      }
    }
  }

  function Trailing(s: seq<bool>): (n: nat)
    ensures n <= |s|
  {
    if s == [] || !s[|s| - 1] then 0 else Trailing(s[..|s| - 1]) + 1
  }

  /** The longest block of `true`. */
  function LongestTrue(s: seq<bool>): (n: nat)
    ensures n >= Trailing(s)
  {
    if s == [] then 0
    else
      var front := LongestTrue(s[..|s| - 1]);
      if Trailing(s) > front then Trailing(s) else front
  }

  lemma {:induction false} RunAppend<T>(s: seq<T>, x: T)
    ensures Run(s + [x]) == if s != [] && s[|s| - 1] == x then Run(s) + 1 else 1
    ensures LongestRun(s + [x]) == if Run(s + [x]) > LongestRun(s) then Run(s + [x]) else LongestRun(s)
  {
    assert (s + [x])[..|s|] == s;
  }

  lemma {:induction false} TrailingAppend(s: seq<bool>, x: bool)
    ensures Trailing(s + [x]) == if x then Trailing(s) + 1 else 0
    ensures LongestTrue(s + [x]) == if Trailing(s + [x]) > LongestTrue(s) then Trailing(s + [x]) else LongestTrue(s)
  {
    assert (s + [x])[..|s|] == s;
  }

  predicate AllTrue(s: seq<bool>, i: nat, n: nat) {
    i + n <= |s| && forall k | i <= k < i + n :: s[k]
  }

  lemma {:induction false} TrailingIsBlock(s: seq<bool>, n: nat)
    requires 1 <= n <= |s|
    ensures Trailing(s) >= n <==> AllTrue(s, |s| - n, n)
  {
    var front := s[..|s| - 1];
    if n > 1 {
      TrailingIsBlock(front, n - 1);
      assert AllTrue(front, |s| - n, n - 1) <==> forall k | |s| - n <= k < |front| :: s[k];
    }
  }

  /** The longest block of `true` is shorter than `n` exactly when no `n` adjacent elements are all true. */
  lemma {:induction false} LongestTrueMeans(s: seq<bool>, n: nat)
    requires n >= 1
    ensures LongestTrue(s) < n <==> forall i | 0 <= i <= |s| - n :: !AllTrue(s, i, n)
  {
    if s != [] {
      var front := s[..|s| - 1];
      LongestTrueMeans(front, n);
      forall i | 0 <= i <= |front| - n ensures AllTrue(s, i, n) <==> AllTrue(front, i, n) {
        assert forall k | i <= k < i + n :: s[k] == front[k];
      }
      if n <= |s| {
        TrailingIsBlock(s, n);
      }
    }
  }

  // ----- The same, stated for every name of the sequence, so that it is only looked into where it is named.

  predicate SameSeq<T(==)>(a: seq<T>, b: seq<T>) {
    a == b
  }

  ghost predicate RunIs(calls: seq<ToolCall>, n: nat) {
    forall s | SameSeq(s, calls) :: Run(s) == n
  }

  /** No run of equal calls reaches `n`. */
  ghost predicate RunsBelow(calls: seq<ToolCall>, n: nat) {
    forall s | SameSeq(s, calls) :: LongestRun(s) < n
  }

  ghost predicate TrailingIs(failed: seq<bool>, n: nat) {
    forall s | SameSeq(s, failed) :: Trailing(s) == n
  }

  /** No block of failures is longer than `n`. */
  ghost predicate FailuresWithin(failed: seq<bool>, n: nat) {
    forall s | SameSeq(s, failed) :: LongestTrue(s) <= n
  }

  /** The run of equal calls at the end reaches `n`. */
  ghost predicate RunReaches(calls: seq<ToolCall>, n: nat) {
    forall s | SameSeq(s, calls) :: Run(s) >= n
  }

  /** The failures at the end reach `n`. */
  ghost predicate TrailingReaches(failed: seq<bool>, n: nat) {
    forall s | SameSeq(s, failed) :: Trailing(s) >= n
  }

  lemma {:induction false} ReachesMean(calls: seq<ToolCall>, failed: seq<bool>, n: nat)
    ensures RunReaches(calls, n) <==> Run(calls) >= n
    ensures TrailingReaches(failed, n) <==> Trailing(failed) >= n
  {
    assert SameSeq(calls, calls) && SameSeq(failed, failed);
  }

  lemma {:induction false} RunsMean(calls: seq<ToolCall>, run: nat, limit: nat)
    ensures RunIs(calls, run) <==> Run(calls) == run
    ensures RunsBelow(calls, limit) <==> LongestRun(calls) < limit
  {
    assert SameSeq(calls, calls);
  }

  lemma {:induction false} FailuresMean(failed: seq<bool>, trailing: nat, limit: nat)
    ensures TrailingIs(failed, trailing) <==> Trailing(failed) == trailing
    ensures FailuresWithin(failed, limit) <==> LongestTrue(failed) <= limit
  {
    assert SameSeq(failed, failed);
  }
}
