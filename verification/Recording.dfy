/**
 What the metrics keep of the agent loop's turns: the prompt, the result and every exchange with an outcome; and which
 call numbers go missing.
 */
module Recording {
  import opened Wrappers
  import opened Prompt
  import opened TurnEvents
  import opened TurnExchanges
  import opened AgentLoop
  import MetricsSinks
  import TurnLogs

  // ----- Which call numbers are recorded.

  // Calls that were given up on.
  function Lost(sent: seq<LlmCall>): nat {
    if sent == [] then 0
    else Lost(sent[..|sent| - 1]) + if sent[|sent| - 1].outcome.Abandoned? then 1 else 0
  }

  predicate HasIndex(calls: seq<LlmFact>, k: nat) {
    exists c | c in calls :: c.callIndex == k
  }

  function Indices(calls: seq<LlmFact>): seq<nat> {
    seq(|calls|, i requires 0 <= i < |calls| => calls[i].callIndex)
  }

  // 1, 2, ..., n.
  function Numbers(n: nat): seq<nat> {
    seq(n, i requires 0 <= i < n => i + 1)
  }

  /** A call's number is recorded exactly when the call was not abandoned, and no other number is. */
  lemma {:induction false} RecordedExactly(sent: seq<LlmCall>, k: nat)
    ensures HasIndex(Recorded(sent), k) <==> 1 <= k <= |sent| && !sent[k - 1].outcome.Abandoned?
  {
    if sent != [] {
      var front, last := sent[..|sent| - 1], OutcomeFacts(|sent|, sent[|sent| - 1].outcome);
      RecordedExactly(front, k);
      IndexConcat(Recorded(front), last, k);
      assert HasIndex(last, k) <==> k == |sent| && !sent[|sent| - 1].outcome.Abandoned? by {
        assert last != [] ==> last[0] in last;
      }
    }
  }

  lemma {:induction false} IndexConcat(a: seq<LlmFact>, b: seq<LlmFact>, k: nat)
    ensures HasIndex(a + b, k) <==> HasIndex(a, k) || HasIndex(b, k)
  {
    if HasIndex(a, k) {
      var c :| c in a && c.callIndex == k;
      assert c in a + b;
    }
    if HasIndex(b, k) {
      var c :| c in b && c.callIndex == k;
      assert c in a + b;
    }
  }

  lemma {:induction false} EveryCallAccounted(sent: seq<LlmCall>)
    ensures |Recorded(sent)| + Lost(sent) == |sent|
    ensures Lost(sent) == 0 <==> NoneAbandoned(sent)
  {
    if sent != [] {
      EveryCallAccounted(sent[..|sent| - 1]);
      assert forall i | 0 <= i < |sent| - 1 :: sent[i] == sent[..|sent| - 1][i];
    }
  }

  /** The recorded numbers run 1, 2, ... up to the number of calls exactly when no call of the turn was abandoned. */
  lemma {:induction false} NoGapExactly(sent: seq<LlmCall>)
    ensures Indices(Recorded(sent)) == Numbers(|sent|) <==> NoneAbandoned(sent)
  {
    EveryCallAccounted(sent);
    if NoneAbandoned(sent) {
      AllRecorded(sent);
    } else {
      assert |Indices(Recorded(sent))| < |Numbers(|sent|)|;
    }
  }

  lemma {:induction false} AllRecorded(sent: seq<LlmCall>)
    requires NoneAbandoned(sent)
    ensures Indices(Recorded(sent)) == Numbers(|sent|)
  {
    if sent != [] {
      AllRecorded(sent[..|sent| - 1]);
      RecordedNext(sent);
    }
  }

  lemma {:induction false} RecordedNext(sent: seq<LlmCall>)
    requires sent != []
    ensures var n := |sent| - 1;
            Indices(Recorded(sent))
            == Indices(Recorded(sent[..n])) + if sent[n].outcome.Abandoned? then [] else [n + 1]
  {
  }

  // The turn's next to last call was abandoned, and its last was not.
  predicate SkipsOne(sent: seq<LlmCall>) {
    |sent| >= 2 && sent[|sent| - 2].outcome.Abandoned? && !sent[|sent| - 1].outcome.Abandoned?
  }

  /**
   Where numbers go missing: at most the last two, and there is a hole, a recorded number above a missing one, exactly
   when the next to last call was abandoned and the last was not. The one missing is then a summary's.
   */
  lemma {:induction false} HoleExactly(sent: seq<LlmCall>)
    requires AbandonedLate(sent)
    ensures |Recorded(sent)| + 2 >= |sent|
    ensures Indices(Recorded(sent)) != Numbers(|Recorded(sent)|) <==> SkipsOne(sent)
    ensures SkipsOne(sent) ==>
              sent[|sent| - 2].purpose.ForSummary? && Indices(Recorded(sent)) == Numbers(|sent| - 2) + [|sent|]
  {
    var n := |sent|;
    if n == 1 {
      RecordedNext(sent);
      assert Indices(Recorded(sent[..0])) == [];
    } else if n >= 2 {
      assert NoneAbandoned(sent[..n - 2]);
      LastTwo(sent);
      var lost, last := sent[n - 2].outcome.Abandoned?, sent[n - 1].outcome.Abandoned?;
      assert |Indices(Recorded(sent))| == |Recorded(sent)|;
      if !lost {
        assert Numbers(n - 1) == Numbers(n - 2) + [n - 1] && Numbers(n) == Numbers(n - 1) + [n];
      } else if !last {
        assert Indices(Recorded(sent))[n - 2] == n && Numbers(n - 1)[n - 2] == n - 1;
      }
    }
  }

  lemma {:induction false} LastTwo(sent: seq<LlmCall>)
    requires |sent| >= 2 && NoneAbandoned(sent[..|sent| - 2])
    ensures var n := |sent|;
            Indices(Recorded(sent))
            == Numbers(n - 2) + (if sent[n - 2].outcome.Abandoned? then [] else [n - 1])
               + (if sent[n - 1].outcome.Abandoned? then [] else [n])
  {
    var n := |sent|;
    RecordedNext(sent);
    RecordedNext(sent[..n - 1]);
    assert sent[..n - 1][..n - 2] == sent[..n - 2];
    AllRecorded(sent[..n - 2]);
  }

  // ----- A turn with a hole.

  // The first turn of a trace, as far as it has come. Stated for every name of the trace.
  ghost predicate Leads(trace: seq<Event>, t: Turn) {
    forall s | TurnLogs.SameSeq(s, trace) :: Observed(s) == Some(Monitor([], Some(t), {t.task}))
  }

  lemma {:induction false} LeadsMeans(trace: seq<Event>, t: Turn)
    ensures Leads(trace, t) <==> Observed(trace) == Some(Monitor([], Some(t), {t.task}))
  {
    assert TurnLogs.SameSeq(trace, trace);
  }

  lemma {:induction false} LeadsOn(trace: seq<Event>, t: Turn, e: Event, t': Turn)
    requires Leads(trace, t) && !e.RequestStarted? && e.task == t.task && Within(t, e) == Some(t') && t'.task == t.task
    ensures Leads(trace + [e], t')
  {
    LeadsMeans(trace, t);
    ObservedAppend(trace, e);
    LeadsMeans(trace + [e], t');
  }

  lemma {:induction false} TurnBegins(task: nat, input: string, source: RequestSource)
    ensures Leads([RequestStarted(task, input, source)], NewTurn(task, input, source))
  {
    var e := RequestStarted(task, input, source);
    ObservedAppend([], e);
    assert [] + [e] == [e] && {} + {task} == {task};
    assert Observe(Quiet(), e).value.done == [];
    LeadsMeans([e], NewTurn(task, input, source));
  }

  lemma {:induction false} StateMoves(trace: seq<Event>, t: Turn, state: TurnState)
    requires Leads(trace, t) && t.phase.Running? && MayFollow(t.state, state)
    ensures Leads(trace + [StateChanged(t.task, state)], t.(state := Some(state)))
  {
    LeadsOn(trace, t, StateChanged(t.task, state), t.(state := Some(state)));
  }

  lemma {:induction false} CallGoesOut(trace: seq<Event>, t: Turn)
    requires Leads(trace, t) && t.phase.Running? && IsWorking(t.state)
    ensures var i := t.llmCalls + 1;
            Leads(trace + [LlmStarted(t.task, i, 0)], t.(phase := Answering(i), llmCalls := i))
  {
    var i := t.llmCalls + 1;
    LeadsOn(trace, t, LlmStarted(t.task, i, 0), t.(phase := Answering(i), llmCalls := i));
  }

  lemma {:induction false} CallComesBack(trace: seq<Event>, t: Turn, r: LlmResponse)
    requires Leads(trace, t) && t.phase == Answering(t.llmCalls)
    ensures Leads(trace + OutcomeEvents(t.task, t.llmCalls, Finished(r)),
                  WithCall(t, LlmFact(t.llmCalls, r.promptTokens, r.completionTokens, None)))
  {
    var i := t.llmCalls;
    var e, e' := LlmCompleted(t.task, i), TokensUsed(t.task, i, r.promptTokens, r.completionTokens);
    LeadsOn(trace, t, e, t.(phase := Counting(i)));
    LeadsOn(trace + [e], t.(phase := Counting(i)), e',
            WithCall(t, LlmFact(i, r.promptTokens, r.completionTokens, None)));
    assert trace + [e] + [e'] == trace + OutcomeEvents(t.task, i, Finished(r));
  }

  lemma {:induction false} ToolRuns(trace: seq<Event>, t: Turn, call: ToolCall, output: string)
    requires Leads(trace, t) && t.phase.Running? && t.state == Some(Executing) && t.toolCalls == 0
    ensures Leads(trace + ToolEvents(t.task, call, output),
                  WithTool(t, ToolFact(1, call.name, call.arguments, output, false)).(toolCalls := 1))
  {
    var e := ToolStarted(t.task, 1, call.name, call.arguments);
    var e' := ToolCompleted(t.task, 1, call.name, output, 0, call.arguments, false);
    var t' := t.(phase := Dispatching(1, call.name, call.arguments), toolCalls := 1);
    LeadsOn(trace, t, e, t');
    LeadsOn(trace + [e], t', e', WithTool(t', ToolFact(1, call.name, call.arguments, output, false)));
    assert trace + [e] + [e'] == trace + ToolEvents(t.task, call, output);
  }

  // The events of the one tool call.
  function ToolEvents(task: nat, call: ToolCall, output: string): seq<Event> {
    [ToolStarted(task, 1, call.name, call.arguments),
     ToolCompleted(task, 1, call.name, output, 0, call.arguments, false)]
  }

  lemma {:induction false} DropTold(trace: seq<Event>, t: Turn, estimate: nat)
    requires Leads(trace, t) && t.phase.Answering? && IsWorking(t.state)
    ensures Leads(trace + [BudgetPressure(t.task, DroppedTurns(2), estimate)], t.(phase := Running))
  {
    LeadsOn(trace, t, BudgetPressure(t.task, DroppedTurns(2), estimate), t.(phase := Running));
  }

  lemma {:induction false} ReplyGoesOut(trace: seq<Event>, t: Turn, reply: string)
    requires Leads(trace, t) && t.phase.Running? && t.state == Some(Responding)
    ensures Leads(trace + [RequestCompleted(t.task, reply)],
                  t.(phase := Phase.Over(OK, None), facts := t.facts.(reply := Some(reply))))
  {
    LeadsOn(trace, t, RequestCompleted(t.task, reply),
            t.(phase := Phase.Over(OK, None), facts := t.facts.(reply := Some(reply))));
  }

  // The first answer asks for the tool call, and the second, after a summary that never came, is the reply.
  function Asking(call: ToolCall): LlmResponse {
    LlmResponse(None, [call], None, None)
  }

  function Replying(reply: string): LlmResponse {
    LlmResponse(Some(reply), [], None, None)
  }

  function HoleySent(prompt: seq<Message>, evicted: seq<Message>, call: ToolCall, reply: string): seq<LlmCall> {
    [LlmCall(prompt, ForAnswer, Finished(Asking(call))), LlmCall(evicted, ForSummary, Abandoned),
     LlmCall(prompt, ForAnswer, Finished(Replying(reply)))]
  }

  /**
   What the loop emits for a turn whose first round asks for one tool call and whose next prompt is over budget: a
   summary is asked for and given up on, the two old messages are dropped, and the model still answers.
   */
  function FirstRound(task: nat, input: string, source: RequestSource, call: ToolCall, output: string): seq<Event> {
    [RequestStarted(task, input, source)] + [StateChanged(task, Receiving)] + [StateChanged(task, Thinking)]
    + [LlmStarted(task, 1, 0)] + OutcomeEvents(task, 1, Finished(Asking(call))) + [StateChanged(task, Executing)]
    + ToolEvents(task, call, output)
  }

  function SecondRound(before: seq<Event>, task: nat, estimate: nat, reply: string): seq<Event> {
    before + [LlmStarted(task, 2, 0)] + [BudgetPressure(task, DroppedTurns(2), estimate)]
    + [StateChanged(task, Thinking)] + [LlmStarted(task, 3, 0)] + OutcomeEvents(task, 3, Finished(Replying(reply)))
    + [StateChanged(task, Responding)] + [RequestCompleted(task, reply)]
  }

  /** Such a turn is accepted; its calls are numbered 1, 2 and 3, and what is recorded of it are calls 1 and 3. */
  lemma {:induction false} AbandonedSummaryLeavesHole(
      task: nat, input: string, source: RequestSource, call: ToolCall, output: string, estimate: nat, reply: string,
      prompt: seq<Message>, evicted: seq<Message>)
    ensures var trace := SecondRound(FirstRound(task, input, source, call, output), task, estimate, reply);
            var sent := HoleySent(prompt, evicted, call, reply);
            var tools := ToolFactsOf([Dispatched(call, Ok(ToolOutcome(output, [], false)))]);
            && IsTurns(trace) && AbandonedLate(sent) && SkipsOne(sent) && Requested(sent) == [call]
            && Summaries(Observed(trace).value)
               == [Summary(task, OK, None, 3, 1, Facts(input, source, Some(reply), Recorded(sent), tools))]
            && Indices(Recorded(sent)) == [1, 3]
  {
    HoleySays(prompt, evicted, call, reply);
    FirstRoundLeads(task, input, source, call, output);
    var first, t := FirstRound(task, input, source, call, output), AfterTool(task, input, source, call, output);
    SecondRoundLeads(first, t, estimate, reply);
    LeadsMeans(SecondRound(first, task, estimate, reply), AfterReply(t, reply));
    var done: seq<Summary> := [];
    assert done + [Conclude(AfterReply(t, reply))] == [Conclude(AfterReply(t, reply))];
    assert t.facts.calls + [LlmFact(3, None, None, None)] == Recorded(HoleySent(prompt, evicted, call, reply));
    assert ToolFactsOf([Dispatched(call, Ok(ToolOutcome(output, [], false)))]) == t.facts.tools;
  }

  lemma {:induction false} HoleySays(prompt: seq<Message>, evicted: seq<Message>, call: ToolCall, reply: string)
    ensures var sent := HoleySent(prompt, evicted, call, reply);
            && Recorded(sent) == [LlmFact(1, None, None, None), LlmFact(3, None, None, None)]
            && Requested(sent) == [call]
  {
    var sent := HoleySent(prompt, evicted, call, reply);
    var one := LlmFact(1, None, None, None);
    SentMeans([], [], []);
    SentAppend([], sent[0], [], []);
    assert [] + [sent[0]] == [sent[0]] && [] + [call] == [call] && [] + [one] == [one];
    SentAppend([sent[0]], sent[1], [call], [one]);
    assert [call] + [] == [call] && [one] + [] == [one];
    SentAppend([sent[0]] + [sent[1]], sent[2], [call], [one]);
    assert [sent[0]] + [sent[1]] + [sent[2]] == sent;
    SentMeans(sent, [call], [one] + [LlmFact(3, None, None, None)]);
  }

  // The turn after its first round, and at its end.
  function AfterTool(task: nat, input: string, source: RequestSource, call: ToolCall, output: string): Turn {
    Turn(task, Running, Some(Executing), 1, 1,
         Facts(input, source, None, [LlmFact(1, None, None, None)],
               [ToolFact(1, call.name, call.arguments, output, false)]))
  }

  function AfterReply(t: Turn, reply: string): Turn {
    t.(phase := Phase.Over(OK, None), state := Some(Responding), llmCalls := 3,
       facts := t.facts.(calls := t.facts.calls + [LlmFact(3, None, None, None)], reply := Some(reply)))
  }

  lemma {:induction false} FirstRoundLeads(
      task: nat, input: string, source: RequestSource, call: ToolCall, output: string)
    ensures Leads(FirstRound(task, input, source, call, output), AfterTool(task, input, source, call, output))
  {
    TurnBegins(task, input, source);
    var trace, t := [RequestStarted(task, input, source)], NewTurn(task, input, source);
    StateMoves(trace, t, Receiving);
    trace, t := trace + [StateChanged(task, Receiving)], t.(state := Some(Receiving));
    StateMoves(trace, t, Thinking);
    trace, t := trace + [StateChanged(task, Thinking)], t.(state := Some(Thinking));
    CallGoesOut(trace, t);
    trace, t := trace + [LlmStarted(task, 1, 0)], t.(phase := Answering(1), llmCalls := 1);
    CallComesBack(trace, t, Asking(call));
    trace := trace + OutcomeEvents(task, 1, Finished(Asking(call)));
    t := WithCall(t, LlmFact(1, None, None, None));
    StateMoves(trace, t, Executing);
    trace, t := trace + [StateChanged(task, Executing)], t.(state := Some(Executing));
    ToolRuns(trace, t, call, output);
    var none: seq<LlmFact> := [];
    var noTools: seq<ToolFact> := [];
    var tool := ToolFact(1, call.name, call.arguments, output, false);
    assert none + [LlmFact(1, None, None, None)] == [LlmFact(1, None, None, None)] && noTools + [tool] == [tool];
  }

  lemma {:induction false} SecondRoundLeads(first: seq<Event>, start: Turn, estimate: nat, reply: string)
    requires Leads(first, start) && start.phase.Running? && start.state == Some(Executing) && start.llmCalls == 1
    ensures Leads(SecondRound(first, start.task, estimate, reply), AfterReply(start, reply))
  {
    var trace, t, task := first, start, start.task;
    CallGoesOut(trace, t);
    trace, t := trace + [LlmStarted(task, 2, 0)], t.(phase := Answering(2), llmCalls := 2);
    DropTold(trace, t, estimate);
    trace, t := trace + [BudgetPressure(task, DroppedTurns(2), estimate)], t.(phase := Running);
    StateMoves(trace, t, Thinking);
    trace, t := trace + [StateChanged(task, Thinking)], t.(state := Some(Thinking));
    CallGoesOut(trace, t);
    trace, t := trace + [LlmStarted(task, 3, 0)], t.(phase := Answering(3), llmCalls := 3);
    CallComesBack(trace, t, Replying(reply));
    trace := trace + OutcomeEvents(task, 3, Finished(Replying(reply)));
    t := WithCall(t, LlmFact(3, None, None, None));
    StateMoves(trace, t, Responding);
    trace, t := trace + [StateChanged(task, Responding)], t.(state := Some(Responding));
    ReplyGoesOut(trace, t, reply);
  }

  // ----- The loop and the sinks together.

  /** The row and the record of a turn: what was asked, how it ended, and every exchange that had an outcome. */
  predicate TellTurn(
    row: MetricsSinks.TaskRow, record: MetricsSinks.TaskRecord, input: string, source: RequestSource, r: Answer,
    e: Exchanges)
  {
    && row == MetricsSinks.RowOf(record)
    && row.status == record.status == StatusOf(r)
    && row.status == (if r.Ok? then "ok" else if r.error.TurnCancelled? then "cancelled" else "error")
    && record.error == ReasonOf(r) && row.error == ReasonOf(r).GetOr("")
    && record.prompt == input && record.source == source && record.reply == ReplyOf(r)
    && record.llmCalls == MetricsSinks.LlmRecords(Recorded(e.sent))
    && MetricsSinks.InCallOrder(record.llmCalls, |e.sent|)
    && record.toolCalls == MetricsSinks.ToolRecords(ToolFactsOf(e.dispatched))
  }

  /** A turn's record has every call number of the turn exactly when no call was abandoned. */
  lemma {:induction false} RecordGapless(
      row: MetricsSinks.TaskRow, record: MetricsSinks.TaskRecord, input: string, source: RequestSource, r: Answer,
      e: Exchanges)
    requires TellTurn(row, record, input, source, r, e)
    ensures (forall k | 1 <= k <= |e.sent| :: MetricsSinks.HasIndex(record.llmCalls, k)) <==> NoneAbandoned(e.sent)
  {
    MetricsSinks.GaplessExactly(record.llmCalls, |e.sent|);
    EveryCallAccounted(e.sent);
    RecordCount(Recorded(e.sent));
  }

  lemma {:induction false} RecordCount(calls: seq<LlmFact>)
    ensures |MetricsSinks.LlmRecords(calls)| == |calls|
  {
    if calls != [] {
      RecordCount(calls[..|calls| - 1]);
    }
  }

  predicate TellTurns(
    rows: seq<MetricsSinks.TaskRow>, records: seq<MetricsSinks.TaskRecord>, inputs: seq<string>,
    source: RequestSource, results: seq<Answer>, exchanges: seq<Exchanges>)
  {
    && |rows| == |records| == |results| == |inputs| == |exchanges|
    && forall i | 0 <= i < |rows| :: TellTurn(rows[i], records[i], inputs[i], source, results[i], exchanges[i])
  }

  lemma {:induction false} RecordsTellTurns(
      trace: seq<Event>, rows: seq<MetricsSinks.TaskRow>, records: seq<MetricsSinks.TaskRecord>, inputs: seq<string>,
      source: RequestSource, results: seq<Answer>, exchanges: seq<Exchanges>)
    requires Observed(trace).Some? && |inputs| == |results| == |exchanges|
    requires MetricsSinks.AllMatch(rows, records, Summaries(Observed(trace).value))
    requires MetricsSinks.TellsAll(records, Summaries(Observed(trace).value))
    requires Endings(trace) == EndingsOf(inputs, source, results, exchanges)
    ensures TellTurns(rows, records, inputs, source, results, exchanges)
  {
    var summaries := Summaries(Observed(trace).value);
    assert |Endings(trace)| == |summaries|;
    forall i | 0 <= i < |rows| ensures TellTurn(rows[i], records[i], inputs[i], source, results[i], exchanges[i]) {
      assert MetricsSinks.Matches(rows[i], records[i], summaries[i]);
      assert MetricsSinks.TellsRecord(records[i], summaries[i]);
      assert EndingIn(summaries[i]) == Endings(trace)[i]
             == EndingOf(inputs[i], source, results[i], exchanges[i]);
    }
  }

  /**
   Any number of turns, with both sinks seeing every event from the first: once the sinks are dropped there is a row
   and a record for each turn, with what was asked, the status, reason and reply of its result, and its exchanges.
   */
  method CloseSinks(
      assistant: Assistant, csv: MetricsSinks.CsvMetricsSink, json: MetricsSinks.JsonlMetricsSink,
      ghost inputs: seq<string>, ghost source: RequestSource, ghost results: seq<Answer>,
      ghost exchanges: seq<Exchanges>)
    requires csv.Valid() && json.Valid() && csv.trace == json.trace == assistant.log.Trace()
    requires IsTurns(assistant.log.Trace()) && |inputs| == |results| == |exchanges|
    requires Endings(assistant.log.Trace()) == EndingsOf(inputs, source, results, exchanges)
    modifies csv, json
    ensures TellTurns(csv.taskRows, json.records, inputs, source, results, exchanges)
    ensures MetricsSinks.RowsAddUp(csv.taskRows, json.records)
    ensures MetricsSinks.FilesTell(csv.llmRows, csv.toolRows, json.records)
  {
    ghost var trace := assistant.log.Trace();
    MetricsSinks.DropBoth(csv, json);
    RecordsTellTurns(trace, csv.taskRows, json.records, inputs, source, results, exchanges);
  }
}
