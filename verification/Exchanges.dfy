/** What a turn asks of the model and of the tools, what comes back, and what the events tell of it. */
module TurnExchanges {
  import opened Wrappers
  import opened Prompt
  import opened TurnEvents
  import opened TurnLogs

  datatype LlmError = Request(text: string) | InvalidResponse(text: string) | ModelNotFound(text: string)

  predicate IsRetryable(e: LlmError) {
    e.Request?
  }

  datatype LlmResponse = LlmResponse(
    text: Option<string>, toolCalls: seq<ToolCall>, promptTokens: Option<nat>, completionTokens: Option<nat>)

  datatype LlmCallOutcome = Finished(response: LlmResponse) | Broke(error: LlmError) | Abandoned

  datatype ToolOutcome = ToolOutcome(text: string, images: seq<string>, mutated: bool)

  /** Why the model was called: for the plan, for the turn itself, or to summarise old messages. */
  datatype Purpose = ForPlan | ForAnswer | ForSummary

  /** One LLM call: what the model was sent, why, and how it went. */
  datatype LlmCall = LlmCall(messages: seq<Message>, purpose: Purpose, outcome: LlmCallOutcome)

  /** One dispatched tool call, and what the dispatcher answered. */
  datatype Dispatched = Dispatched(call: ToolCall, result: Result<ToolOutcome, string>)

  /** What a turn asked of the model and of the tools, and what came back. */
  datatype Exchanges = Exchanges(sent: seq<LlmCall>, dispatched: seq<Dispatched>)

  // Unicode white space, as `trim` strips it.
  predicate IsBlank(text: string) {
    forall c | c in text ::
      '\t' <= c <= '\r' || c == ' ' || c == 0x85 as char || c == 0xA0 as char || c == 0x1680 as char ||
      0x2000 as char <= c <= 0x200A as char || c == 0x2028 as char || c == 0x2029 as char || c == 0x202F as char ||
      c == 0x205F as char || c == 0x3000 as char
  }

  function ErrorText(error: LlmError): string {
    match error
    case Request(text) => "request failed: " + text
    case InvalidResponse(text) => "invalid response: " + text
    case ModelNotFound(text) => "model '" + text + "' not found"
  }

  // ----- What a turn's exchanges add up to.

  // What the events tell of an LLM call.
  function OutcomeFacts(index: nat, outcome: LlmCallOutcome): seq<LlmFact> {
    match outcome
    case Finished(r) => [LlmFact(index, r.promptTokens, r.completionTokens, None)]
    case Broke(error) => [LlmFact(index, None, None, Some(ErrorText(error)))]
    case Abandoned => []
  }

  /** Every call with an outcome, under its number. */
  function Recorded(sent: seq<LlmCall>): seq<LlmFact> {
    if sent == [] then []
    else Recorded(sent[..|sent| - 1]) + OutcomeFacts(|sent|, sent[|sent| - 1].outcome)
  }

  function RequestedBy(call: LlmCall): seq<ToolCall> {
    if call.purpose.ForAnswer? && call.outcome.Finished? then call.outcome.response.toolCalls else []
  }

  /** The tool calls the model asked for, in order. */
  function Requested(sent: seq<LlmCall>): seq<ToolCall> {
    if sent == [] then [] else Requested(sent[..|sent| - 1]) + RequestedBy(sent[|sent| - 1])
  }

  // Stated for every name of the calls, so that they are only looked into where they are named.
  ghost predicate SentSays(sent: seq<LlmCall>, requested: seq<ToolCall>, recorded: seq<LlmFact>) {
    forall s | SameSeq(s, sent) :: Requested(s) == requested && Recorded(s) == recorded
  }

  lemma {:induction false} SentMeans(sent: seq<LlmCall>, requested: seq<ToolCall>, recorded: seq<LlmFact>)
    ensures SentSays(sent, requested, recorded) <==> Requested(sent) == requested && Recorded(sent) == recorded
  {
    assert SameSeq(sent, sent);
  }

  lemma {:induction false} SentAppend(
      sent: seq<LlmCall>, call: LlmCall, requested: seq<ToolCall>, recorded: seq<LlmFact>)
    requires SentSays(sent, requested, recorded)
    ensures SentSays(sent + [call], requested + RequestedBy(call), recorded + OutcomeFacts(|sent| + 1, call.outcome))
  {
    SentMeans(sent, requested, recorded);
    assert (sent + [call])[..|sent|] == sent;
    SentMeans(sent + [call], requested + RequestedBy(call), recorded + OutcomeFacts(|sent| + 1, call.outcome));
  }

  // A refusal becomes an outcome the model can read.
  function OutcomeOf(result: Result<ToolOutcome, string>): ToolOutcome {
    match result
    case Ok(outcome) => outcome
    case Err(error) => ToolOutcome("ERROR: " + error, [], false)
  }

  function CallsOf(dispatched: seq<Dispatched>): seq<ToolCall> {
    seq(|dispatched|, i requires 0 <= i < |dispatched| => dispatched[i].call)
  }

  function MutationsOf(dispatched: seq<Dispatched>): seq<bool> {
    seq(|dispatched|, i requires 0 <= i < |dispatched| => OutcomeOf(dispatched[i].result).mutated)
  }

  /** Which of the calls the dispatcher refused. */
  function RefusalsOf(dispatched: seq<Dispatched>): seq<bool> {
    seq(|dispatched|, i requires 0 <= i < |dispatched| => dispatched[i].result.Err?)
  }

  function ToolFactOf(index: nat, d: Dispatched): ToolFact {
    ToolFact(index, d.call.name, d.call.arguments, OutcomeOf(d.result).text, OutcomeOf(d.result).mutated)
  }

  function ToolFactsOf(dispatched: seq<Dispatched>): seq<ToolFact> {
    seq(|dispatched|, i requires 0 <= i < |dispatched| => ToolFactOf(i + 1, dispatched[i]))
  }

  ghost predicate DispatchedSays(
    dispatched: seq<Dispatched>, calls: seq<ToolCall>, mutated: seq<bool>, tools: seq<ToolFact>)
  {
    forall s | SameSeq(s, dispatched) :: CallsOf(s) == calls && MutationsOf(s) == mutated && ToolFactsOf(s) == tools
  }

  lemma {:induction false} DispatchedMeans(
      dispatched: seq<Dispatched>, calls: seq<ToolCall>, mutated: seq<bool>, tools: seq<ToolFact>)
    ensures DispatchedSays(dispatched, calls, mutated, tools)
            <==> CallsOf(dispatched) == calls && MutationsOf(dispatched) == mutated && ToolFactsOf(dispatched) == tools
  {
    assert SameSeq(dispatched, dispatched);
  }

  lemma {:induction false} DispatchedAppend(
      dispatched: seq<Dispatched>, d: Dispatched, calls: seq<ToolCall>, mutated: seq<bool>, tools: seq<ToolFact>)
    requires DispatchedSays(dispatched, calls, mutated, tools)
    ensures DispatchedSays(dispatched + [d], calls + [d.call], mutated + [OutcomeOf(d.result).mutated],
                           tools + [ToolFactOf(|dispatched| + 1, d)])
  {
    DispatchedMeans(dispatched, calls, mutated, tools);
    DispatchedMeans(dispatched + [d], calls + [d.call], mutated + [OutcomeOf(d.result).mutated],
                    tools + [ToolFactOf(|dispatched| + 1, d)]);
  }

  // ----- Cancelled calls.

  predicate NoneAbandoned(sent: seq<LlmCall>) {
    forall i | 0 <= i < |sent| :: !sent[i].outcome.Abandoned?
  }

  // Only a summary just asked for may have been abandoned.
  predicate OnlySummaryAbandoned(sent: seq<LlmCall>) {
    forall i | 0 <= i < |sent| :: sent[i].outcome.Abandoned? ==> i == |sent| - 1 && sent[i].purpose.ForSummary?
  }

  /** Cancellation takes effect: an abandoned call is the last one, or a summary followed by one more. */
  predicate AbandonedLate(sent: seq<LlmCall>) {
    forall i | 0 <= i < |sent| - 1 ::
      sent[i].outcome.Abandoned? ==> i == |sent| - 2 && sent[i].purpose.ForSummary?
  }

  // One more call was dispatched, and came out like this.
  predicate OneMoreDispatched(was: seq<Dispatched>, now: seq<Dispatched>, call: ToolCall, outcome: ToolOutcome) {
    was <= now && |now| == |was| + 1 && now[|was|].call == call && OutcomeOf(now[|was|].result) == outcome
  }

  // A summary of just these messages, as the model gave it.
  predicate IsSummaryOf(call: LlmCall, folded: seq<Message>, summary: Message) {
    && call.messages != [] && call.messages[..|call.messages| - 1] == folded && call.outcome.Finished?
    && call.outcome.response.text.Some? && !IsBlank(call.outcome.response.text.value)
    && summary == SystemMessage("Summary of earlier conversation:\n" + call.outcome.response.text.value)
  }

  // The model may have been asked for a summary, and for nothing else.
  predicate SummaryAtMost(was: seq<LlmCall>, sent: seq<LlmCall>) {
    was <= sent && |sent| <= |was| + 1 && (|sent| > |was| ==> sent[|was|].purpose.ForSummary?)
  }

  /** The last answer the turn got, if its last call was for one and brought it. */
  function LastAnswer(sent: seq<LlmCall>): Option<LlmResponse> {
    if sent != [] && sent[|sent| - 1].purpose.ForAnswer? && sent[|sent| - 1].outcome.Finished? then
      Some(sent[|sent| - 1].outcome.response)
    else None
  }

  predicate IsEmpty(response: LlmResponse) {
    response.toolCalls == [] && (response.text.None? || IsBlank(response.text.value))
  }
}
