/**
 What a question to the model consists of: the protected prefix and everything the turn added since, in order, fitted to
 the budget.
 */
module Questions {
  import opened Wrappers
  import opened Prompt
  import opened ContextBudget
  import opened TurnLogs
  import opened TurnExchanges

  // What the loop says to the model when it has changed something unchecked, and when it gave no answer at all.
  const VERIFY_NUDGE := "You performed an action that changes state without confirming the result afterwards. " +
                        "Verify using the evidence already attached to that tool's result — e.g. the before/after " +
                        "system state for a command. That evidence is already enough in most cases; do NOT take a " +
                        "new action to re-check unless the attached evidence genuinely does not show the outcome."
  const EMPTY_NUDGE := "Your last response had no text and no tool call. Either call a tool or answer the user's " +
                       "request in natural language."

  /** A call of the model or of a tool, in the order they were made. */
  datatype Exchange = Called(call: LlmCall) | Ran(run: Dispatched)

  predicate IsQuestion(e: Exchange) {
    e.Called? && e.call.purpose.ForAnswer?
  }

  // ----- The calls of either kind.

  function SentIn(history: seq<Exchange>): seq<LlmCall> {
    if history == [] then []
    else
      var last := history[|history| - 1];
      SentIn(history[..|history| - 1]) + if last.Called? then [last.call] else []
  }

  function RanIn(history: seq<Exchange>): seq<Dispatched> {
    if history == [] then []
    else
      var last := history[|history| - 1];
      RanIn(history[..|history| - 1]) + if last.Ran? then [last.run] else []
  }

  ghost predicate Interleaves(history: seq<Exchange>, sent: seq<LlmCall>, dispatched: seq<Dispatched>) {
    forall h | SameSeq(h, history) :: SentIn(h) == sent && RanIn(h) == dispatched
  }

  lemma {:induction false} InterleavesMeans(history: seq<Exchange>, sent: seq<LlmCall>, dispatched: seq<Dispatched>)
    ensures Interleaves(history, sent, dispatched) <==> SentIn(history) == sent && RanIn(history) == dispatched
  {
    assert SameSeq(history, history);
  }

  lemma {:induction false} InterleavesAppend(
      history: seq<Exchange>, sent: seq<LlmCall>, dispatched: seq<Dispatched>, e: Exchange)
    requires Interleaves(history, sent, dispatched)
    ensures e.Called? ==> Interleaves(history + [e], sent + [e.call], dispatched)
    ensures e.Ran? ==> Interleaves(history + [e], sent, dispatched + [e.run])
  {
    InterleavesMeans(history, sent, dispatched);
    assert (history + [e])[..|history|] == history;
    if e.Called? {
      InterleavesMeans(history + [e], sent + [e.call], dispatched);
    } else {
      InterleavesMeans(history + [e], sent, dispatched + [e.run]);
    }
  }

  // ----- What the turn adds to its prompt.

  // After an answer that calls no tool and does not end the turn.
  function Nudge(r: LlmResponse): seq<Message> {
    if r.toolCalls != [] then [] else [SystemMessage(if IsEmpty(r) then EMPTY_NUDGE else VERIFY_NUDGE)]
  }

  // A call, and its result under the tool's name.
  function CallAndResult(call: ToolCall, outcome: ToolOutcome): seq<Message> {
    [AssistantToolCall(call), ToolResult(call.name, outcome.text, outcome.images)]
  }

  function AddedBy(e: Exchange): seq<Message> {
    match e
    case Called(c) => if c.purpose.ForAnswer? && c.outcome.Finished? then Nudge(c.outcome.response) else []
    case Ran(d) => CallAndResult(d.call, OutcomeOf(d.result))
  }

  function Flattened<T>(xs: seq<T>, f: T -> seq<Message>): seq<Message> {
    if xs == [] then [] else Flattened(xs[..|xs| - 1], f) + f(xs[|xs| - 1])
  }

  /** Everything the turn has added since its prefix. */
  function Additions(history: seq<Exchange>): seq<Message> {
    Flattened(history, AddedBy)
  }

  /** The prompt as it stands: the last question, and what the turn added since. */
  function Standing(history: seq<Exchange>, prefix: seq<Message>): seq<Message> {
    if history == [] then prefix
    else
      var last := history[|history| - 1];
      (if IsQuestion(last) then last.call.messages else Standing(history[..|history| - 1], prefix)) + AddedBy(last)
  }

  // ----- The budget's steps, on values.

  // The summary the model has just given, if it has.
  function SummaryIn(history: seq<Exchange>): Option<Message> {
    if history == [] || !history[|history| - 1].Called? then None
    else
      var c := history[|history| - 1].call;
      if c.purpose.ForSummary? && c.outcome.Finished? && c.outcome.response.text.Some? &&
         !IsBlank(c.outcome.response.text.value) then
        Some(SystemMessage("Summary of earlier conversation:\n" + c.outcome.response.text.value))
      else None
  }

  function Trimmed(messages: seq<Message>, prefix: nat, budget: Budget, cost: Cost): (s: seq<Message>)
    ensures |s| == |messages|
  {
    var evicted := Evicted(messages, prefix, budget.keepRecentImages);
    if Estimate(evicted, cost) <= budget.AvailableTokens() then evicted
    else Truncated(evicted, prefix, budget.truncateHeadChars, budget.truncateTailChars)
  }

  // Everything evictable but the most recent messages in one summary, if there is one and anything to fold.
  function Folded(messages: seq<Message>, prefix: nat, keep: nat, summary: Option<Message>): seq<Message> {
    if summary.Some? && |messages| > prefix + keep then
      messages[..prefix] + [summary.value] + messages[|messages| - keep..]
    else messages
  }

  // How many of the oldest evictable messages have to go, from `n` on: the fewest that make the rest fit, or all.
  function LeastDrop(messages: seq<Message>, prefix: nat, n: nat, available: nat, cost: Cost): (d: nat)
    requires prefix + n <= |messages|
    ensures n <= d && prefix + d <= |messages|
    decreases |messages| - n
  {
    if prefix + n == |messages| || FitsWithout(messages, prefix, n, available, cost) then n
    else LeastDrop(messages, prefix, n + 1, available, cost)
  }

  function Shrunk(messages: seq<Message>, prefix: nat, summary: Option<Message>, budget: Budget, cost: Cost):
    seq<Message>
  {
    var folded := Folded(messages, prefix, budget.keepRecentUncompacted, summary);
    if Estimate(folded, cost) <= budget.AvailableTokens() || |folded| <= prefix then folded
    else Without(folded, prefix, LeastDrop(folded, prefix, 0, budget.AvailableTokens(), cost))
  }

  /** What fitting leaves of a prompt: each step only when the ones before were not enough. */
  function Fitted(messages: seq<Message>, prefix: nat, summary: Option<Message>, budget: Budget, cost: Cost):
    seq<Message>
  {
    if Estimate(messages, cost) <= budget.AvailableTokens() then messages
    else
      var trimmed := Trimmed(messages, prefix, budget, cost);
      if Estimate(trimmed, cost) <= budget.AvailableTokens() then trimmed
      else Shrunk(trimmed, prefix, summary, budget, cost)
  }

  lemma {:induction false} LeastDropIs(
      messages: seq<Message>, prefix: nat, n: nat, d: nat, available: nat, cost: Cost)
    requires n <= d && prefix + d <= |messages|
    requires forall k | n <= k < d :: !FitsWithout(messages, prefix, k, available, cost)
    requires prefix + d == |messages| || FitsWithout(messages, prefix, d, available, cost)
    ensures LeastDrop(messages, prefix, n, available, cost) == d
    decreases d - n
  {
    if n < d {
      LeastDropIs(messages, prefix, n + 1, d, available, cost);
    }
  }

  // The prefix alone is never cut, nor a prompt that fits.
  lemma {:induction false} FittedAlready(
      messages: seq<Message>, prefix: nat, summary: Option<Message>, budget: Budget, cost: Cost)
    requires Estimate(messages, cost) <= budget.AvailableTokens() || |messages| == prefix
    ensures Fitted(messages, prefix, summary, budget, cost) == messages
  {
    if Estimate(messages, cost) > budget.AvailableTokens() {
      assert Evicted(messages, prefix, budget.keepRecentImages) == messages;
      assert Truncated(messages, prefix, budget.truncateHeadChars, budget.truncateTailChars) == messages;
    }
  }

  // ----- Every question.

  /** Question `i` is the prompt as it stood, fitted. */
  predicate QuestionOk(history: seq<Exchange>, i: nat, prefix: seq<Message>, budget: Budget, cost: Cost)
    requires i < |history|
  {
    IsQuestion(history[i]) ==>
      history[i].call.messages
      == Fitted(Standing(history[..i], prefix), |prefix|, SummaryIn(history[..i]), budget, cost)
  }

  predicate QuestionsOk(history: seq<Exchange>, prefix: seq<Message>, budget: Budget, cost: Cost) {
    forall i | 0 <= i < |history| :: QuestionOk(history, i, prefix, budget, cost)
  }

  /** Question `i` is the prefix and all the turn has added since. */
  predicate WholeAt(history: seq<Exchange>, i: nat, prefix: seq<Message>)
    requires i < |history|
  {
    IsQuestion(history[i]) ==> history[i].call.messages == prefix + Additions(history[..i])
  }

  predicate Unreduced(history: seq<Exchange>, prefix: seq<Message>) {
    forall i | 0 <= i < |history| :: WholeAt(history, i, prefix)
  }

  // The questions so far; all of them whole while no budget step has been reported.
  predicate AsksRightly(history: seq<Exchange>, prefix: seq<Message>, pressed: nat, budget: Budget, cost: Cost) {
    && QuestionsOk(history, prefix, budget, cost)
    && (pressed == 0 ==> Unreduced(history, prefix))
  }

  ghost predicate AskedRightly(
    history: seq<Exchange>, prefix: seq<Message>, pressed: nat, budget: Budget, cost: Cost)
  {
    forall h | SameSeq(h, history) :: AsksRightly(h, prefix, pressed, budget, cost)
  }

  // The same, and what stands now.
  ghost predicate Stands(
    history: seq<Exchange>, prefix: seq<Message>, messages: seq<Message>, pressed: nat, budget: Budget, cost: Cost)
  {
    forall h | SameSeq(h, history) ::
      && AsksRightly(h, prefix, pressed, budget, cost) && Standing(h, prefix) == messages
      && (pressed == 0 ==> messages == prefix + Additions(h))
  }

  lemma {:induction false} AskedRightlyMeans(
      history: seq<Exchange>, prefix: seq<Message>, pressed: nat, budget: Budget, cost: Cost)
    ensures AskedRightly(history, prefix, pressed, budget, cost)
            <==> AsksRightly(history, prefix, pressed, budget, cost)
  {
    assert SameSeq(history, history);
  }

  lemma {:induction false} StandsMeans(
      history: seq<Exchange>, prefix: seq<Message>, messages: seq<Message>, pressed: nat, budget: Budget, cost: Cost)
    ensures Stands(history, prefix, messages, pressed, budget, cost) <==>
            && AsksRightly(history, prefix, pressed, budget, cost) && Standing(history, prefix) == messages
            && (pressed == 0 ==> messages == prefix + Additions(history))
  {
    assert SameSeq(history, history);
  }

  lemma {:induction false} StandsAsked(
      history: seq<Exchange>, prefix: seq<Message>, messages: seq<Message>, pressed: nat, budget: Budget, cost: Cost)
    requires Stands(history, prefix, messages, pressed, budget, cost)
    ensures AskedRightly(history, prefix, pressed, budget, cost)
  {
    StandsMeans(history, prefix, messages, pressed, budget, cost);
    AskedRightlyMeans(history, prefix, pressed, budget, cost);
  }

  lemma {:induction false} StandsAtFirst(prefix: seq<Message>, budget: Budget, cost: Cost)
    ensures Stands([], prefix, prefix, 0, budget, cost)
  {
    assert prefix + Additions([]) == prefix;
    StandsMeans([], prefix, prefix, 0, budget, cost);
  }

  // One more exchange leaves the questions before it as they were.
  lemma {:induction false} QuestionsStay(
      history: seq<Exchange>, e: Exchange, prefix: seq<Message>, pressed: nat, budget: Budget, cost: Cost)
    requires AsksRightly(history, prefix, pressed, budget, cost)
    requires QuestionOk(history + [e], |history|, prefix, budget, cost)
    requires pressed == 0 ==> WholeAt(history + [e], |history|, prefix)
    ensures AsksRightly(history + [e], prefix, pressed, budget, cost)
  {
    var longer := history + [e];
    forall i | 0 <= i < |history|
      ensures QuestionOk(longer, i, prefix, budget, cost) && (pressed == 0 ==> WholeAt(longer, i, prefix))
    {
      assert longer[..i] == history[..i];
      assert QuestionOk(history, i, prefix, budget, cost) && (pressed == 0 ==> WholeAt(history, i, prefix));
    }
  }

  // An exchange that is no question.
  lemma {:induction false} StandsAfter(
      history: seq<Exchange>, e: Exchange, prefix: seq<Message>, messages: seq<Message>, pressed: nat, budget: Budget,
      cost: Cost)
    requires Stands(history, prefix, messages, pressed, budget, cost) && !IsQuestion(e)
    ensures Stands(history + [e], prefix, messages + AddedBy(e), pressed, budget, cost)
  {
    StandsMeans(history, prefix, messages, pressed, budget, cost);
    assert (history + [e])[..|history|] == history;
    QuestionsStay(history, e, prefix, pressed, budget, cost);
    assert prefix + Additions(history) + AddedBy(e) == prefix + (Additions(history) + AddedBy(e));
    StandsMeans(history + [e], prefix, messages + AddedBy(e), pressed, budget, cost);
  }

  // A question, asked of what stood once that had been fitted; more steps may have been reported meanwhile.
  lemma {:induction false} StandsAfterQuestion(
      history: seq<Exchange>, c: LlmCall, prefix: seq<Message>, stood: seq<Message>, was: nat, pressed: nat,
      budget: Budget, cost: Cost)
    requires Stands(history, prefix, stood, was, budget, cost) && c.purpose.ForAnswer? && was <= pressed
    requires c.messages == Fitted(stood, |prefix|, SummaryIn(history), budget, cost)
    requires pressed == was ==> c.messages == stood
    ensures Stands(history + [Called(c)], prefix, c.messages + AddedBy(Called(c)), pressed, budget, cost)
  {
    StandsMeans(history, prefix, stood, was, budget, cost);
    assert (history + [Called(c)])[..|history|] == history;
    QuestionsStay(history, Called(c), prefix, pressed, budget, cost);
    assert prefix + Additions(history) + AddedBy(Called(c)) == prefix + (Additions(history) + AddedBy(Called(c)));
    StandsMeans(history + [Called(c)], prefix, c.messages + AddedBy(Called(c)), pressed, budget, cost);
  }

  // ----- What reaches the model.

  // The call stands at `k`, and its result right behind it: the tool's text, or the refusal.
  predicate ResultStandsAt(messages: seq<Message>, k: nat, d: Dispatched) {
    && k + 1 < |messages|
    && messages[k] == Message("assistant", "", [], Some(d.call), None)
    && match d.result
       case Ok(o) => messages[k + 1] == Message("tool", o.text, o.images, None, Some(d.call.name))
       case Err(e) => messages[k + 1] == Message("tool", "ERROR: " + e, [], None, Some(d.call.name))
  }

  // What `xs[j]` adds stands behind what those before it add.
  lemma {:induction false} FlattenedStands<T>(xs: seq<T>, f: T -> seq<Message>, j: nat) returns (rest: seq<Message>)
    requires j < |xs|
    ensures Flattened(xs, f) == Flattened(xs[..j], f) + f(xs[j]) + rest
  {
    var last := |xs| - 1;
    if j == last {
      rest := [];
    } else {
      assert xs[..last][..j] == xs[..j];
      rest := FlattenedStands(xs[..last], f, j);
      Regrouped(Flattened(xs[..j], f) + f(xs[j]), rest, f(xs[last]));
      rest := rest + f(xs[last]);
    }
  }

  lemma {:induction false} Regrouped(a: seq<Message>, b: seq<Message>, c: seq<Message>)
    ensures a + b + c == a + (b + c)
  {
  }

  lemma {:induction false} ResultStands(
      prefix: seq<Message>, before: seq<Message>, added: seq<Message>, rest: seq<Message>, d: Dispatched)
    requires added == AddedBy(Ran(d))
    ensures ResultStandsAt(prefix + (before + added + rest), |prefix| + |before|, d)
  {
    assert (prefix + (before + added + rest))[|prefix| + |before|..][..2] == added;
  }

  // The results stand one behind the other.
  lemma {:induction false} ResultsInOrder(history: seq<Exchange>, i: nat, j: nat)
    requires i < j < |history| && history[i].Ran?
    ensures |Additions(history[..i])| + 2 <= |Additions(history[..j])|
  {
    assert history[..j][..i] == history[..i];
    var rest := FlattenedStands(history[..j], AddedBy, i);
  }

  lemma {:induction false} ResultReaches(before: seq<Exchange>, prefix: seq<Message>, j: nat)
    requires j < |before| && before[j].Ran?
    ensures ResultStandsAt(prefix + Additions(before), |prefix| + |Additions(before[..j])|, before[j].run)
  {
    var rest := FlattenedStands(before, AddedBy, j);
    ResultStands(prefix, Additions(before[..j]), AddedBy(before[j]), rest, before[j].run);
  }

  /**
   While the budget has cut nothing, every tool call of the turn and its result stand in every later question, behind
   the prefix and in the order they were made.
   */
  lemma {:induction false} ResultsReachTheModel(
      history: seq<Exchange>, prefix: seq<Message>, question: nat, j: nat)
    requires Unreduced(history, prefix) && j < question < |history| && IsQuestion(history[question]) && history[j].Ran?
    ensures prefix <= history[question].call.messages
    ensures ResultStandsAt(history[question].call.messages, |prefix| + |Additions(history[..j])|, history[j].run)
    ensures forall i | 0 <= i < j && history[i].Ran? :: |Additions(history[..i])| + 2 <= |Additions(history[..j])|
  {
    assert WholeAt(history, question, prefix);
    assert history[..question][..j] == history[..j];
    ResultReaches(history[..question], prefix, j);
    forall i | 0 <= i < j && history[i].Ran? ensures |Additions(history[..i])| + 2 <= |Additions(history[..j])| {
      ResultsInOrder(history, i, j);
    }
  }
}
