/**
 The two metrics sinks: one keeps running counts per task for its CSV rows, the other keeps every call for its JSON
 records. They see the same events and must tell the same story.
 */
module MetricsSinks {
  import opened Wrappers
  import opened TurnEvents

  // ----- What the sinks write.

  datatype LlmRow = LlmRow(
    task: nat, callIndex: nat, input: Option<nat>, output: Option<nat>, total: Option<nat>, status: string,
    error: string)

  datatype ToolRow = ToolRow(task: nat, toolIndex: nat, name: string, status: string, error: string)

  datatype TaskRow = TaskRow(
    task: nat, llmCalls: nat, input: Option<nat>, output: Option<nat>, total: Option<nat>, toolCalls: nat,
    toolsUsed: set<string>, status: string, error: string)

  datatype LlmRecord = LlmRecord(
    callIndex: nat, input: Option<nat>, output: Option<nat>, status: string, error: Option<string>)

  datatype ToolRecord = ToolRecord(
    index: nat, name: string, arguments: string, status: string, output: string, mutated: bool, error: Option<string>)

  datatype TaskRecord = TaskRecord(
    task: nat, source: RequestSource, prompt: string, status: string, error: Option<string>, reply: Option<string>,
    llmCalls: seq<LlmRecord>, toolCalls: seq<ToolRecord>)

  // ----- Their states.

  datatype CsvTask = CsvTask(
    llmCalls: nat, input: Option<nat>, output: Option<nat>, total: Option<nat>, toolCalls: nat, toolsUsed: set<string>,
    pendingError: Option<string>)

  datatype PendingCompletion = PendingCompletion(task: nat, callIndex: nat)

  datatype CsvView = CsvView(
    tasks: map<nat, CsvTask>, pending: Option<PendingCompletion>, llmRows: seq<LlmRow>, toolRows: seq<ToolRow>,
    taskRows: seq<TaskRow>)

  datatype JsonTask = JsonTask(
    prompt: string, source: RequestSource, reply: Option<string>, pendingError: Option<string>,
    llmCalls: seq<LlmRecord>, toolCalls: seq<ToolRecord>)

  datatype PendingTokens = PendingTokens(task: nat, callIndex: nat, position: nat)

  datatype JsonView = JsonView(tasks: map<nat, JsonTask>, pending: Option<PendingTokens>, records: seq<TaskRecord>)

  function NewCsvTask(): CsvTask {
    CsvTask(0, None, None, None, 0, {}, None)
  }

  function NewJsonTask(prompt: string, source: RequestSource): JsonTask {
    JsonTask(prompt, source, None, None, [], [])
  }

  function Added(total: Option<nat>, value: Option<nat>): Option<nat> {
    match value
    case Some(v) => Some(total.GetOr(0) + v)
    case None => total
  }

  // Never guesses a total from a partial count.
  function Total(input: Option<nat>, output: Option<nat>): Option<nat> {
    if input.Some? && output.Some? then Some(input.value + output.value) else None
  }

  predicate IsErrorOutput(output: string) {
    "ERROR:" <= output
  }

  function StatusOf(output: string): string {
    if IsErrorOutput(output) then ERROR else OK
  }

  // ----- The CSV sink, event by event.

  function CsvFinalized(v: CsvView, task: nat, status: string, error: Option<string>): CsvView {
    if task !in v.tasks then v
    else
      var a := v.tasks[task];
      v.(tasks := v.tasks - {task},
         taskRows := v.taskRows + [TaskRow(task, a.llmCalls, a.input, a.output, a.total, a.toolCalls, a.toolsUsed,
                                           status, error.GetOr(""))])
  }

  function CsvAbandoned(v: CsvView, task: nat): CsvView {
    var hint := if task in v.tasks then v.tasks[task].pendingError else None;
    CsvFinalized(v, task, ERROR, Some(hint.GetOr(NO_TERMINAL_EVENT)))
  }

  // The abandoned tasks in the order the hash map happens to give them.
  function CsvFlushed(v: CsvView, order: seq<nat>): CsvView
    decreases |order|
  {
    if order == [] then v else CsvFlushed(CsvAbandoned(v, order[0]), order[1..])
  }

  function CsvTokens(v: CsvView, task: nat, callIndex: nat, input: Option<nat>, output: Option<nat>): CsvView {
    if v.pending.None? then v
    else
      var taken := v.(pending := None);
      if v.pending.value != PendingCompletion(task, callIndex) then taken
      else
        var total := Total(input, output);
        var written := taken.(llmRows := v.llmRows + [LlmRow(task, callIndex, input, output, total, OK, "")]);
        if task !in v.tasks then written
        else
          var a := v.tasks[task];
          written.(tasks := v.tasks[task := a.(llmCalls := a.llmCalls + 1, input := Added(a.input, input),
                                               output := Added(a.output, output), total := Added(a.total, total))])
  }

  function CsvFailedCall(v: CsvView, task: nat, callIndex: nat, error: string): CsvView {
    var written := v.(llmRows := v.llmRows + [LlmRow(task, callIndex, None, None, None, ERROR, error)]);
    if task !in v.tasks then written
    else written.(tasks := v.tasks[task := v.tasks[task].(llmCalls := v.tasks[task].llmCalls + 1)])
  }

  function CsvTool(v: CsvView, task: nat, toolIndex: nat, name: string, output: string): CsvView {
    var row := ToolRow(task, toolIndex, name, StatusOf(output), if IsErrorOutput(output) then output else "");
    var written := v.(toolRows := v.toolRows + [row]);
    if task !in v.tasks then written
    else
      var a := v.tasks[task];
      written.(tasks := v.tasks[task := a.(toolCalls := a.toolCalls + 1, toolsUsed := a.toolsUsed + {name})])
  }

  function CsvHint(v: CsvView, task: nat, error: string): CsvView {
    if task !in v.tasks then v else v.(tasks := v.tasks[task := v.tasks[task].(pendingError := Some(error))])
  }

  function CsvRecorded(v: CsvView, e: Event, order: seq<nat>): CsvView {
    match e
    case RequestStarted(task, _, _) =>
      var flushed := CsvFlushed(v, order);
      flushed.(tasks := flushed.tasks[task := NewCsvTask()])
    case LlmCompleted(task, i) => v.(pending := Some(PendingCompletion(task, i)))
    case TokensUsed(task, i, input, output) => CsvTokens(v, task, i, input, output)
    case LlmFailed(task, i, error) => CsvFailedCall(v, task, i, error)
    case ToolCompleted(task, i, name, output, _, _, _) => CsvTool(v, task, i, name, output)
    case RequestFailed(task, error) => CsvHint(v, task, error)
    case RequestCompleted(task, _) => CsvFinalized(v, task, OK, None)
    case Cancelled(task) => CsvFinalized(v, task, CANCELLED, None)
    case _ => v
  }

  // ----- The JSONL sink, event by event.

  function JsonFinalized(v: JsonView, task: nat, status: string, error: Option<string>): JsonView {
    if task !in v.tasks then v
    else
      var a := v.tasks[task];
      v.(tasks := v.tasks - {task},
         records := v.records + [TaskRecord(task, a.source, a.prompt, status,
                   if error.Some? then error else a.pendingError,
                                            a.reply, a.llmCalls, a.toolCalls)])
  }

  function JsonAbandoned(v: JsonView, task: nat): JsonView {
    var hint := if task in v.tasks then v.tasks[task].pendingError else None;
    JsonFinalized(v, task, ERROR, Some(hint.GetOr(NO_TERMINAL_EVENT)))
  }

  function JsonFlushed(v: JsonView, order: seq<nat>): JsonView
    decreases |order|
  {
    if order == [] then v else JsonFlushed(JsonAbandoned(v, order[0]), order[1..])
  }

  function JsonTokens(v: JsonView, task: nat, callIndex: nat, input: Option<nat>, output: Option<nat>): JsonView {
    if v.pending.None? then v
    else
      var p, taken := v.pending.value, v.(pending := None);
      if p.task != task || p.callIndex != callIndex then taken
      else if task !in v.tasks || p.position >= |v.tasks[task].llmCalls| then taken
      else
        var a := v.tasks[task];
        var call := a.llmCalls[p.position].(input := input, output := output);
        taken.(tasks := v.tasks[task := a.(llmCalls := a.llmCalls[p.position := call])])
  }

  function JsonCall(v: JsonView, task: nat, call: LlmRecord): JsonView {
    if task !in v.tasks then v
    else v.(tasks := v.tasks[task := v.tasks[task].(llmCalls := v.tasks[task].llmCalls + [call])])
  }

  function JsonCompleted(v: JsonView, task: nat, callIndex: nat): JsonView {
    if task !in v.tasks then v
    else
      var position := |v.tasks[task].llmCalls|;
      JsonCall(v, task, LlmRecord(callIndex, None, None, OK, None)).(
        pending := Some(PendingTokens(task, callIndex, position)))
  }

  function JsonFailedCall(v: JsonView, task: nat, callIndex: nat, error: string): JsonView {
    JsonCall(v, task, LlmRecord(callIndex, None, None, ERROR, Some(error)))
  }

  function ToolRecordOf(toolIndex: nat, name: string, output: string, arguments: string, mutated: bool): ToolRecord {
    ToolRecord(toolIndex, name, arguments, StatusOf(output), output, mutated,
               if IsErrorOutput(output) then Some(output) else None)
  }

  function JsonTool(v: JsonView, task: nat, tool: ToolRecord): JsonView {
    if task !in v.tasks then v
    else v.(tasks := v.tasks[task := v.tasks[task].(toolCalls := v.tasks[task].toolCalls + [tool])])
  }

  function JsonHint(v: JsonView, task: nat, error: string): JsonView {
    if task !in v.tasks then v else v.(tasks := v.tasks[task := v.tasks[task].(pendingError := Some(error))])
  }

  function JsonReply(v: JsonView, task: nat, reply: string): JsonView {
    if task !in v.tasks then v else v.(tasks := v.tasks[task := v.tasks[task].(reply := Some(reply))])
  }

  function JsonRecorded(v: JsonView, e: Event, order: seq<nat>): JsonView {
    match e
    case RequestStarted(task, prompt, source) =>
      var flushed := JsonFlushed(v, order);
      flushed.(tasks := flushed.tasks[task := NewJsonTask(prompt, source)])
    case LlmCompleted(task, i) => JsonCompleted(v, task, i)
    case TokensUsed(task, i, input, output) => JsonTokens(v, task, i, input, output)
    case LlmFailed(task, i, error) => JsonFailedCall(v, task, i, error)
    case ToolCompleted(task, i, name, output, _, arguments, mutated) =>
      JsonTool(v, task, ToolRecordOf(i, name, output, arguments, mutated))
    case RequestFailed(task, error) => JsonHint(v, task, error)
    case RequestCompleted(task, reply) => JsonFinalized(JsonReply(v, task, reply), task, OK, None)
    case Cancelled(task) => JsonFinalized(v, task, CANCELLED, None)
    case _ => v
  }

  // ----- Runs.

  function Stale(tasks: set<nat>, e: Event): set<nat> {
    if e.RequestStarted? then tasks - {e.task} else {}
  }

  // Each of the tasks once.
  ghost predicate Enumerates(order: seq<nat>, tasks: set<nat>) {
    |order| == |tasks| && forall t :: t in order <==> t in tasks
  }

  ghost function CsvAfter(trace: seq<Event>, orders: seq<seq<nat>>): Option<CsvView>
    requires |orders| == |trace|
  {
    if trace == [] then Some(CsvView(map[], None, [], [], []))
    else
      var n := |trace| - 1;
      match CsvAfter(trace[..n], orders[..n])
      case Some(v) =>
        if Enumerates(orders[n], Stale(v.tasks.Keys, trace[n])) then Some(CsvRecorded(v, trace[n], orders[n])) else None
      case None => None
  }

  ghost function JsonAfter(trace: seq<Event>, orders: seq<seq<nat>>): Option<JsonView>
    requires |orders| == |trace|
  {
    if trace == [] then Some(JsonView(map[], None, []))
    else
      var n := |trace| - 1;
      match JsonAfter(trace[..n], orders[..n])
      case Some(v) =>
        if !Enumerates(orders[n], Stale(v.tasks.Keys, trace[n])) then None
        else Some(JsonRecorded(v, trace[n], orders[n]))
      case None => None
  }

  // ----- What a record's lists add up to.

  function SumInput(calls: seq<LlmRecord>): Option<nat> {
    if calls == [] then None else Added(SumInput(calls[..|calls| - 1]), calls[|calls| - 1].input)
  }

  function SumOutput(calls: seq<LlmRecord>): Option<nat> {
    if calls == [] then None else Added(SumOutput(calls[..|calls| - 1]), calls[|calls| - 1].output)
  }

  function SumTotal(calls: seq<LlmRecord>): Option<nat> {
    if calls == [] then None
    else Added(SumTotal(calls[..|calls| - 1]), Total(calls[|calls| - 1].input, calls[|calls| - 1].output))
  }

  function ToolNames(calls: seq<ToolRecord>): set<string> {
    if calls == [] then {} else ToolNames(calls[..|calls| - 1]) + {calls[|calls| - 1].name}
  }

  function LlmRows(task: nat, calls: seq<LlmRecord>): seq<LlmRow> {
    if calls == [] then []
    else
      var c := calls[|calls| - 1];
      LlmRows(task, calls[..|calls| - 1]) +
      [LlmRow(task, c.callIndex, c.input, c.output, Total(c.input, c.output), c.status, c.error.GetOr(""))]
  }

  function ToolRows(task: nat, calls: seq<ToolRecord>): seq<ToolRow> {
    if calls == [] then []
    else
      var c := calls[|calls| - 1];
      ToolRows(task, calls[..|calls| - 1]) + [ToolRow(task, c.index, c.name, c.status, c.error.GetOr(""))]
  }

  function AllLlmRows(records: seq<TaskRecord>): seq<LlmRow> {
    if records == [] then []
    else AllLlmRows(records[..|records| - 1]) + LlmRows(records[|records| - 1].task, records[|records| - 1].llmCalls)
  }

  function AllToolRows(records: seq<TaskRecord>): seq<ToolRow> {
    if records == [] then []
    else AllToolRows(records[..|records| - 1]) + ToolRows(records[|records| - 1].task, records[|records| - 1].toolCalls)
  }

  // The CSV row a record's lists call for.
  function RowOf(r: TaskRecord): TaskRow {
    TaskRow(r.task, |r.llmCalls|, SumInput(r.llmCalls), SumOutput(r.llmCalls), SumTotal(r.llmCalls), |r.toolCalls|,
            ToolNames(r.toolCalls), r.status, r.error.GetOr(""))
  }

  // Calls recorded in the order they were made, among the first `n`.
  predicate InCallOrder(calls: seq<LlmRecord>, n: nat) {
    && (forall i | 0 <= i < |calls| :: 1 <= calls[i].callIndex <= n)
    && (forall i, j | 0 <= i < j < |calls| :: calls[i].callIndex < calls[j].callIndex)
  }

  predicate NumberedTools(calls: seq<ToolRecord>) {
    forall i | 0 <= i < |calls| :: calls[i].index == i + 1
  }

  /** A row and a record that tell the same story, the one the turn's events tell. */
  predicate Matches(row: TaskRow, r: TaskRecord, s: Summary) {
    && row == RowOf(r)
    && r.task == s.task && r.status == s.status && r.error == s.error
    && InCallOrder(r.llmCalls, s.llmCalls)
    && NumberedTools(r.toolCalls) && |r.toolCalls| == s.toolCalls
  }

  predicate AllMatch(rows: seq<TaskRow>, records: seq<TaskRecord>, summaries: seq<Summary>) {
    |rows| == |records| == |summaries| && forall i | 0 <= i < |rows| :: Matches(rows[i], records[i], summaries[i])
  }

  // ----- The invariant of a run.

  // Whether the turn's row has been written already.
  predicate IsFiled(t: Turn) {
    t.phase.Cancelling? || (t.phase.Over? && t.phase.status != ERROR)
  }

  // The current turn, while its row is outstanding.
  predicate IsOpen(m: Monitor) {
    m.current.Some? && !IsFiled(m.current.value)
  }

  function Filed(m: Monitor): seq<Summary> {
    m.done + if m.current.Some? && IsFiled(m.current.value) then [Conclude(m.current.value)] else []
  }

  // The JSON calls the CSV sink has counted: a completed call counts once its tokens are known.
  function Settled(t: Turn, calls: seq<LlmRecord>): seq<LlmRecord> {
    if t.phase.Counting? && calls != [] then calls[..|calls| - 1] else calls
  }

  function CsvTaskOf(calls: seq<LlmRecord>, tools: seq<ToolRecord>, pendingError: Option<string>): CsvTask {
    CsvTask(|calls|, SumInput(calls), SumOutput(calls), SumTotal(calls), |tools|, ToolNames(tools), pendingError)
  }

  function PendingErrorOf(t: Turn): Option<string> {
    if t.phase.Over? then t.phase.error else None
  }

  predicate TurnOk(t: Turn) {
    && (t.phase.Over? ==> (t.phase.status == OK && t.phase.error.None?) ||
                          (t.phase.status == CANCELLED && t.phase.error.None?) ||
                          (t.phase.status == ERROR && t.phase.error.Some?))
    && (t.phase.Dispatching? ==> t.phase.index == t.toolCalls > 0)
    && (t.phase.Counting? ==> t.phase.index <= t.llmCalls)
    && (t.phase.Answering? ==> t.phase.index == t.llmCalls)
  }

  predicate TaskAgrees(t: Turn, c: CsvTask, j: JsonTask) {
    && c == CsvTaskOf(Settled(t, j.llmCalls), j.toolCalls, PendingErrorOf(t))
    && j.pendingError == PendingErrorOf(t)
    && (t.phase.Counting? ==>
          j.llmCalls != [] &&
          j.llmCalls[|j.llmCalls| - 1] == LlmRecord(t.phase.index, None, None, OK, None))
    && InCallOrder(j.llmCalls, t.llmCalls)
    && (t.phase.Answering? ==> t.llmCalls > 0 && InCallOrder(j.llmCalls, t.llmCalls - 1))
    && NumberedTools(j.toolCalls) && |j.toolCalls| == if t.phase.Dispatching? then t.toolCalls - 1 else t.toolCalls
  }

  // Both sinks wait for the token counts of the same call, or for none.
  predicate PendingOk(t: Turn, csv: Option<PendingCompletion>, json: Option<PendingTokens>, calls: nat) {
    if t.phase.Counting? then
      calls > 0 && csv == Some(PendingCompletion(t.task, t.phase.index)) &&
      json == Some(PendingTokens(t.task, t.phase.index, calls - 1))
    else csv.None? && json.None?
  }

  // The open turn in both sinks, and the rows written for it so far.
  predicate TurnAgrees(t: Turn, c: CsvTask, j: JsonTask, csv: CsvView, json: JsonView) {
    && csv.tasks == map[t.task := c] && json.tasks == map[t.task := j]
    && TurnOk(t) && TaskAgrees(t, c, j)
    && PendingOk(t, csv.pending, json.pending, |j.llmCalls|)
    && csv.llmRows == AllLlmRows(json.records) + LlmRows(t.task, Settled(t, j.llmCalls))
    && csv.toolRows == AllToolRows(json.records) + ToolRows(t.task, j.toolCalls)
  }

  predicate NothingOpen(csv: CsvView, json: JsonView) {
    && csv.tasks == map[] && json.tasks == map[] && csv.pending.None? && json.pending.None?
    && csv.llmRows == AllLlmRows(json.records) && csv.toolRows == AllToolRows(json.records)
  }

  predicate Agreement(m: Monitor, csv: CsvView, json: JsonView) {
    && (m.current.Some? ==> m.current.value.task in m.used)
    && (if IsOpen(m) then
          var t := m.current.value;
          t.task in csv.tasks && t.task in json.tasks && TurnAgrees(t, csv.tasks[t.task], json.tasks[t.task], csv, json)
        else NothingOpen(csv, json))
    && AllMatch(csv.taskRows, json.records, Filed(m))
  }

  predicate AreSinks(sinks: (CsvView, JsonView), csv: CsvView, json: JsonView) {
    sinks == (csv, json)
  }

  // Stated for every name of the pair, so that it is only looked into where the pair is named.
  ghost predicate Agrees(m: Monitor, csv: CsvView, json: JsonView) {
    forall sinks | AreSinks(sinks, csv, json) :: Agreement(m, sinks.0, sinks.1)
  }

  lemma {:induction false} AgreesMeans(m: Monitor, csv: CsvView, json: JsonView)
    ensures Agrees(m, csv, json) <==> Agreement(m, csv, json)
  {
    assert AreSinks((csv, json), csv, json);
  }

  // ----- Every event of a turn keeps it.

  // Events neither sink looks at.
  predicate IsIdle(e: Event) {
    e.StateChanged? || e.PlanCreated? || e.Retrying? || e.BudgetPressure? || e.TranscriptCompacted? ||
    e.AnsweredUnverified? || e.LlmStarted? || e.ToolStarted?
  }

  // An idle event only moves a turn between phases in which nothing is being counted.
  lemma {:induction false} IdleTurn(t: Turn, e: Event)
    requires IsIdle(e) && e.task == t.task && Within(t, e).Some? && TurnOk(t)
    ensures var t' := Within(t, e).value;
            && t'.task == t.task && TurnOk(t') && !IsFiled(t) && !IsFiled(t')
            && !t.phase.Counting? && !t'.phase.Counting? && !t.phase.Dispatching? && !t.phase.Over? && !t'.phase.Over?
            && t.llmCalls <= t'.llmCalls && (t'.phase.Answering? ==> t'.llmCalls == t.llmCalls + 1)
            && t'.toolCalls == (if t'.phase.Dispatching? then t.toolCalls + 1 else t.toolCalls)
            && t'.facts == t.facts
  {
  }

  lemma {:induction false} IdleStep(t: Turn, e: Event, c: CsvTask, j: JsonTask, csv: CsvView, json: JsonView)
    requires TurnAgrees(t, c, j, csv, json)
    requires IsIdle(e) && e.task == t.task && Within(t, e).Some?
    ensures TurnAgrees(Within(t, e).value, c, j, csv, json)
  {
    IdleTurn(t, e);
  }

  lemma {:induction false} CompletedStep(t: Turn, i: nat, c: CsvTask, j: JsonTask, csv: CsvView, json: JsonView)
    requires TurnAgrees(t, c, j, csv, json) && t.phase == Answering(i)
    ensures TurnAgrees(t.(phase := Counting(i)), c, j.(llmCalls := j.llmCalls + [LlmRecord(i, None, None, OK, None)]),
                       csv.(pending := Some(PendingCompletion(t.task, i))), JsonCompleted(json, t.task, i))
  {
    CompletedTask(t, i, c, j);
    var calls := j.llmCalls + [LlmRecord(i, None, None, OK, None)];
    assert Settled(t.(phase := Counting(i)), calls) == j.llmCalls == Settled(t, j.llmCalls);
    assert JsonCompleted(json, t.task, i).tasks == map[t.task := j.(llmCalls := calls)];
  }

  lemma {:induction false} CompletedTask(t: Turn, i: nat, c: CsvTask, j: JsonTask)
    requires TurnOk(t) && TaskAgrees(t, c, j) && t.phase == Answering(i)
    ensures TaskAgrees(t.(phase := Counting(i)), c,
                       j.(llmCalls := j.llmCalls + [LlmRecord(i, None, None, OK, None)]))
  {
    assert (j.llmCalls + [LlmRecord(i, None, None, OK, None)])[..|j.llmCalls|] == j.llmCalls;
  }

  // A call's token counts reach both sinks at once.
  function Counted(t: Turn, j: JsonTask, input: Option<nat>, output: Option<nat>): JsonTask
    requires t.phase.Counting? && j.llmCalls != []
  {
    j.(llmCalls := j.llmCalls[|j.llmCalls| - 1 := LlmRecord(t.phase.index, input, output, OK, None)])
  }

  lemma {:induction false} TokensStep(
      t: Turn, input: Option<nat>, output: Option<nat>, c: CsvTask, j: JsonTask, csv: CsvView, json: JsonView)
    requires t.phase.Counting? && TurnAgrees(t, c, j, csv, json)
    ensures var j' := Counted(t, j, input, output);
            TurnAgrees(WithCall(t, LlmFact(t.phase.index, input, output, None)),
                       CsvTaskOf(j'.llmCalls, j.toolCalls, None), j',
                       CsvTokens(csv, t.task, t.phase.index, input, output),
                       JsonTokens(json, t.task, t.phase.index, input, output))
  {
    TokensTask(t, input, output, c, j);
    TokensViews(t, input, output, c, j, csv, json);
    Regroup(AllLlmRows(json.records), LlmRows(t.task, Settled(t, j.llmCalls)),
            LlmRow(t.task, t.phase.index, input, output, Total(input, output), OK, ""));
  }

  lemma {:induction false} Regroup<T>(a: seq<T>, b: seq<T>, x: T)
    ensures a + b + [x] == a + (b + [x])
  {
  }

  // What the counts do to each sink, with one open task.
  lemma {:induction false} TokensViews(
      t: Turn, input: Option<nat>, output: Option<nat>, c: CsvTask, j: JsonTask, csv: CsvView, json: JsonView)
    requires t.phase.Counting? && csv.tasks == map[t.task := c] && json.tasks == map[t.task := j]
    requires PendingOk(t, csv.pending, json.pending, |j.llmCalls|)
    requires j.llmCalls[|j.llmCalls| - 1] == LlmRecord(t.phase.index, None, None, OK, None)
    ensures var total := Total(input, output);
            CsvTokens(csv, t.task, t.phase.index, input, output)
            == csv.(pending := None,
                    llmRows := csv.llmRows + [LlmRow(t.task, t.phase.index, input, output, total, OK, "")],
                    tasks := map[t.task := c.(llmCalls := c.llmCalls + 1, input := Added(c.input, input),
                                              output := Added(c.output, output), total := Added(c.total, total))])
    ensures JsonTokens(json, t.task, t.phase.index, input, output)
            == json.(pending := None, tasks := map[t.task := Counted(t, j, input, output)])
  {
  }

  lemma {:induction false} TokensTask(t: Turn, input: Option<nat>, output: Option<nat>, c: CsvTask, j: JsonTask)
    requires t.phase.Counting? && TaskAgrees(t, c, j)
    ensures var j', total := Counted(t, j, input, output), Total(input, output);
            && CsvTaskOf(j'.llmCalls, j.toolCalls, None)
               == c.(llmCalls := c.llmCalls + 1, input := Added(c.input, input), output := Added(c.output, output),
                     total := Added(c.total, total))
            && TaskAgrees(WithCall(t, LlmFact(t.phase.index, input, output, None)),
                          CsvTaskOf(j'.llmCalls, j.toolCalls, None), j')
            && LlmRows(t.task, j'.llmCalls)
               == LlmRows(t.task, Settled(t, j.llmCalls))
                  + [LlmRow(t.task, t.phase.index, input, output, total, OK, "")]
  {
    var n := |j.llmCalls| - 1;
    assert Counted(t, j, input, output).llmCalls[..n] == j.llmCalls[..n];
  }

  lemma {:induction false} FailedCallStep(t: Turn, error: string, c: CsvTask, j: JsonTask, csv: CsvView, json: JsonView)
    requires t.phase.Answering? && TurnAgrees(t, c, j, csv, json)
    ensures var j' := j.(llmCalls := j.llmCalls + [LlmRecord(t.phase.index, None, None, ERROR, Some(error))]);
            TurnAgrees(WithCall(t, LlmFact(t.phase.index, None, None, Some(error))),
                       CsvTaskOf(j'.llmCalls, j.toolCalls, None), j',
                       CsvFailedCall(csv, t.task, t.phase.index, error), JsonFailedCall(json, t.task, t.phase.index,
                                 error))
  {
    var calls := j.llmCalls + [LlmRecord(t.phase.index, None, None, ERROR, Some(error))];
    assert calls[..|j.llmCalls|] == j.llmCalls;
    assert CsvFailedCall(csv, t.task, t.phase.index, error).tasks == map[t.task := CsvTaskOf(calls, j.toolCalls, None)];
    Regroup(AllLlmRows(json.records), LlmRows(t.task, j.llmCalls),
            LlmRow(t.task, t.phase.index, None, None, None, ERROR, error));
  }

  lemma {:induction false} ToolStep(
      t: Turn, output: string, mutated: bool, c: CsvTask, j: JsonTask, csv: CsvView, json: JsonView)
    requires t.phase.Dispatching? && TurnAgrees(t, c, j, csv, json)
    ensures var p := t.phase;
            var tool := ToolRecordOf(p.index, p.name, output, p.arguments, mutated);
            var j' := j.(toolCalls := j.toolCalls + [tool]);
            TurnAgrees(WithTool(t, ToolFact(p.index, p.name, p.arguments, output, mutated)),
                       CsvTaskOf(j.llmCalls, j'.toolCalls, None), j',
                       CsvTool(csv, t.task, p.index, p.name, output), JsonTool(json, t.task, tool))
  {
    var fact := ToolFact(t.phase.index, t.phase.name, t.phase.arguments, output, mutated);
    var tool := ToolRecordOf(fact.index, fact.name, output, fact.arguments, mutated);
    ToolTask(t, fact, c, j);
    assert CsvTool(csv, t.task, t.phase.index, t.phase.name, output).tasks
           == map[t.task := CsvTaskOf(j.llmCalls, j.toolCalls + [tool], None)];
    Regroup(AllToolRows(json.records), ToolRows(t.task, j.toolCalls),
            ToolRow(t.task, tool.index, tool.name, tool.status, tool.error.GetOr("")));
  }

  lemma {:induction false} ToolTask(t: Turn, fact: ToolFact, c: CsvTask, j: JsonTask)
    requires TaskAgrees(t, c, j) && TurnOk(t) && t.phase.Dispatching? && fact.index == t.phase.index
    ensures var tool := ToolRecordOf(fact.index, fact.name, fact.output, fact.arguments, fact.mutated);
            var tools := j.toolCalls + [tool];
            && CsvTaskOf(j.llmCalls, tools, None)
               == c.(toolCalls := c.toolCalls + 1, toolsUsed := c.toolsUsed + {tool.name})
            && TaskAgrees(WithTool(t, fact), CsvTaskOf(j.llmCalls, tools, None), j.(toolCalls := tools))
            && ToolRows(t.task, tools)
               == ToolRows(t.task, j.toolCalls)
                  + [ToolRow(t.task, tool.index, tool.name, tool.status, tool.error.GetOr(""))]
  {
    var tool := ToolRecordOf(fact.index, fact.name, fact.output, fact.arguments, fact.mutated);
    assert (j.toolCalls + [tool])[..|j.toolCalls|] == j.toolCalls;
  }

  lemma {:induction false} HintStep(t: Turn, error: string, c: CsvTask, j: JsonTask, csv: CsvView, json: JsonView)
    requires TurnAgrees(t, c, j, csv, json) && (t.phase.Running? || t.phase.Answering?)
    ensures TurnAgrees(t.(phase := Over(ERROR, Some(error))), c.(pendingError := Some(error)),
                       j.(pendingError := Some(error)), CsvHint(csv, t.task, error), JsonHint(json, t.task, error))
  {
  }

  // Filing the open turn writes a matching row and record and leaves nothing open.
  lemma {:induction false} FileTurn(
      t: Turn, status: string, error: Option<string>, c: CsvTask, j: JsonTask, csv: CsvView, json: JsonView)
    requires TurnAgrees(t, c, j, csv, json) && !t.phase.Counting? && !t.phase.Dispatching?
    requires error.Some? || PendingErrorOf(t).None?
    ensures var csv', json' := CsvFinalized(csv, t.task, status, error), JsonFinalized(json, t.task, status, error);
            && NothingOpen(csv', json')
            && |csv'.taskRows| == |csv.taskRows| + 1 && csv'.taskRows[..|csv.taskRows|] == csv.taskRows
            && |json'.records| == |json.records| + 1 && json'.records[..|json.records|] == json.records
            && Matches(csv'.taskRows[|csv.taskRows|], json'.records[|json.records|],
                       Summary(t.task, status, error, t.llmCalls, t.toolCalls, t.facts))
  {
    assert csv.tasks - {t.task} == map[] && json.tasks - {t.task} == map[];
    var record := TaskRecord(t.task, j.source, j.prompt, status, error, j.reply, j.llmCalls, j.toolCalls);
    assert JsonFinalized(json, t.task, status, error).records == json.records + [record];
    assert (json.records + [record])[..|json.records|] == json.records;
  }

  lemma {:induction false} OneMoreMatches(
      rows: seq<TaskRow>, records: seq<TaskRecord>, rows': seq<TaskRow>, records': seq<TaskRecord>,
      filed: seq<Summary>, s: Summary)
    requires AllMatch(rows, records, filed)
    requires |rows'| == |rows| + 1 && rows'[..|rows|] == rows
    requires |records'| == |records| + 1 && records'[..|records|] == records
    requires Matches(rows'[|rows|], records'[|records|], s)
    ensures AllMatch(rows', records', filed + [s])
  {
    forall i | 0 <= i < |rows'| ensures Matches(rows'[i], records'[i], (filed + [s])[i]) {
      if i < |rows| {
        assert rows'[i] == rows'[..|rows|][i] && records'[i] == records'[..|records|][i];
      }
    }
  }

  // The two abandon a turn alike: with the error it last failed with, or with the stock one.
  lemma {:induction false} AbandonTurn(t: Turn, c: CsvTask, j: JsonTask, csv: CsvView, json: JsonView,
      filed: seq<Summary>)
    requires TurnAgrees(t, c, j, csv, json) && Resting(t) && !IsFiled(t)
    requires AllMatch(csv.taskRows, json.records, filed)
    ensures var csv', json' := CsvAbandoned(csv, t.task), JsonAbandoned(json, t.task);
            NothingOpen(csv', json') && AllMatch(csv'.taskRows, json'.records, filed + [Conclude(t)])
  {
    var error := Some(PendingErrorOf(t).GetOr(NO_TERMINAL_EVENT));
    assert csv.tasks[t.task] == c && json.tasks[t.task] == j;
    FileTurn(t, ERROR, error, c, j, csv, json);
    OneMoreMatches(csv.taskRows, json.records, CsvFinalized(csv, t.task, ERROR, error).taskRows,
                   JsonFinalized(json, t.task, ERROR, error).records, filed, Conclude(t));
  }

  lemma {:induction false} OnlyOrder(order: seq<nat>, task: nat)
    requires Enumerates(order, {task})
    ensures order == [task]
  {
    assert order[0] in order;
  }

  // Whatever order the hash maps give, flushing files the turn left open, if any.
  lemma {:induction false} FlushAgrees(m: Monitor, csv: CsvView, json: JsonView, csvOrder: seq<nat>,
      jsonOrder: seq<nat>)
    requires Agrees(m, csv, json) && (m.current.Some? ==> Resting(m.current.value))
    requires Enumerates(csvOrder, csv.tasks.Keys) && Enumerates(jsonOrder, json.tasks.Keys)
    ensures var csv', json' := CsvFlushed(csv, csvOrder), JsonFlushed(json, jsonOrder);
            NothingOpen(csv', json') && AllMatch(csv'.taskRows, json'.records, Summaries(m))
  {
    AgreesMeans(m, csv, json);
    if IsOpen(m) {
      var t := m.current.value;
      OnlyOrder(csvOrder, t.task);
      OnlyOrder(jsonOrder, t.task);
      assert csvOrder[1..] == [] && jsonOrder[1..] == [];
      assert CsvFlushed(csv, csvOrder) == CsvAbandoned(csv, t.task);
      assert JsonFlushed(json, jsonOrder) == JsonAbandoned(json, t.task);
      AbandonTurn(t, csv.tasks[t.task], json.tasks[t.task], csv, json, m.done);
      assert Filed(m) == m.done;
    } else {
      assert csvOrder == [] && jsonOrder == [];
    }
  }

  lemma {:induction false} StartStep(
      m: Monitor, csv: CsvView, json: JsonView, e: Event, csvOrder: seq<nat>, jsonOrder: seq<nat>)
    requires Agrees(m, csv, json) && e.RequestStarted? && Observe(m, e).Some?
    requires Enumerates(csvOrder, Stale(csv.tasks.Keys, e)) && Enumerates(jsonOrder, Stale(json.tasks.Keys, e))
    ensures Agrees(Observe(m, e).value, CsvRecorded(csv, e, csvOrder), JsonRecorded(json, e, jsonOrder))
  {
    NewTaskUnknown(m, csv, json, e.task);
    assert Stale(csv.tasks.Keys, e) == csv.tasks.Keys && Stale(json.tasks.Keys, e) == json.tasks.Keys;
    FlushAgrees(m, csv, json, csvOrder, jsonOrder);
    StartFlushed(m, CsvFlushed(csv, csvOrder), JsonFlushed(json, jsonOrder), e);
  }

  lemma {:induction false} NewTaskUnknown(m: Monitor, csv: CsvView, json: JsonView, task: nat)
    requires Agrees(m, csv, json) && task !in m.used
    ensures task !in csv.tasks && task !in json.tasks
  {
    AgreesMeans(m, csv, json);
  }

  lemma {:induction false} StartFlushed(m: Monitor, csv: CsvView, json: JsonView, e: Event)
    requires NothingOpen(csv, json) && AllMatch(csv.taskRows, json.records, Summaries(m))
    requires e.RequestStarted? && Observe(m, e).Some?
    ensures Agrees(Observe(m, e).value, csv.(tasks := csv.tasks[e.task := NewCsvTask()]),
                   json.(tasks := json.tasks[e.task := NewJsonTask(e.prompt, e.source)]))
  {
    FreshTurn(NewTurn(e.task, e.prompt, e.source), e, csv, json);
    assert Filed(Observe(m, e).value) == Summaries(m);
    AgreesMeans(Observe(m, e).value, csv.(tasks := csv.tasks[e.task := NewCsvTask()]),
                json.(tasks := json.tasks[e.task := NewJsonTask(e.prompt, e.source)]));
  }

  lemma {:induction false} FreshTurn(t: Turn, e: Event, csv: CsvView, json: JsonView)
    requires NothingOpen(csv, json) && e.RequestStarted? && t == NewTurn(e.task, e.prompt, e.source)
    ensures TurnAgrees(t, NewCsvTask(), NewJsonTask(e.prompt, e.source),
                       csv.(tasks := csv.tasks[t.task := NewCsvTask()]),
                       json.(tasks := json.tasks[t.task := NewJsonTask(e.prompt, e.source)]))
  {
    assert AllLlmRows(json.records) + [] == AllLlmRows(json.records);
    assert AllToolRows(json.records) + [] == AllToolRows(json.records);
  }

  // A finished or cancelled turn is filed at once: `t` is the turn with its reply, if any, and `t'` the filed turn.
  lemma {:induction false} EndTurn(m: Monitor, t: Turn, t': Turn, status: string, j: JsonTask, csv: CsvView,
      json: JsonView)
    requires t.task in m.used && t.task in csv.tasks && (t.phase.Running? || t.phase.Answering?)
    requires TurnAgrees(t, csv.tasks[t.task], j, csv, json)
    requires AllMatch(csv.taskRows, json.records, m.done)
    requires t'.task == t.task && IsFiled(t')
    requires Conclude(t') == Summary(t'.task, status, None, t.llmCalls, t.toolCalls, t.facts)
    ensures Agrees(m.(current := Some(t')), CsvFinalized(csv, t'.task, status, None), JsonFinalized(json, t'.task,
              status, None))
  {
    FileTurn(t, status, None, csv.tasks[t.task], j, csv, json);
    OneMoreMatches(csv.taskRows, json.records, CsvFinalized(csv, t.task, status, None).taskRows,
                   JsonFinalized(json, t.task, status, None).records, m.done, Conclude(t'));
    assert Filed(m.(current := Some(t'))) == m.done + [Conclude(t')];
    AgreesMeans(m.(current := Some(t')), CsvFinalized(csv, t'.task, status, None), JsonFinalized(json, t'.task,
              status, None));
  }

  // What being accepted says about the event and the turn it belongs to.
  lemma {:induction false} TurnFacts(m: Monitor, e: Event)
    requires Observe(m, e).Some? && !e.RequestStarted?
    ensures m.current.Some? && m.current.value.task == e.task && Within(m.current.value, e).Some?
    ensures Observe(m, e) == Some(m.(current := Within(m.current.value, e)))
  {
  }

  function WithReply(t: Turn, reply: string): Turn {
    t.(facts := t.facts.(reply := Some(reply)))
  }

  lemma {:induction false} EndFacts(t: Turn, e: Event)
    requires (e.RequestCompleted? || e.Cancelled?) && Within(t, e).Some?
    ensures !IsFiled(t) && (t.phase.Running? || t.phase.Answering?)
    ensures e.Cancelled? ==> Within(t, e) == Some(t.(phase := Cancelling))
    ensures e.RequestCompleted? ==> Within(t, e) == Some(WithReply(t, e.reply).(phase := Over(OK, None)))
  {
  }

  lemma {:induction false} CompletedEvent(m: Monitor, csv: CsvView, json: JsonView, task: nat, reply: string)
    requires Agrees(m, csv, json) && Observe(m, RequestCompleted(task, reply)).Some?
    ensures Agrees(Observe(m, RequestCompleted(task, reply)).value, CsvFinalized(csv, task, OK, None),
                   JsonFinalized(JsonReply(json, task, reply), task, OK, None))
  {
    AgreesMeans(m, csv, json);
    var e := RequestCompleted(task, reply);
    TurnFacts(m, e);
    var t := m.current.value;
    EndFacts(t, e);
    var c, j, replied := csv.tasks[task], json.tasks[task], JsonReply(json, task, reply);
    assert replied.tasks == map[task := j.(reply := Some(reply))];
    var t' := WithReply(t, reply);
    assert TaskAgrees(t', c, j.(reply := Some(reply)));
    assert Filed(m) == m.done;
    EndTurn(m, t', t'.(phase := Over(OK, None)), OK, j.(reply := Some(reply)), csv, replied);
  }

  lemma {:induction false} CancelledEvent(m: Monitor, csv: CsvView, json: JsonView, task: nat)
    requires Agrees(m, csv, json) && Observe(m, Cancelled(task)).Some?
    ensures Agrees(Observe(m, Cancelled(task)).value, CsvFinalized(csv, task, CANCELLED, None),
                   JsonFinalized(json, task, CANCELLED, None))
  {
    AgreesMeans(m, csv, json);
    var e := Cancelled(task);
    TurnFacts(m, e);
    var t := m.current.value;
    EndFacts(t, e);
    assert Filed(m) == m.done;
    EndTurn(m, t, t.(phase := Cancelling), CANCELLED, json.tasks[task], csv, json);
  }

  lemma {:induction false} LateFailureStep(m: Monitor, csv: CsvView, json: JsonView, e: Event)
    requires Agrees(m, csv, json) && e.RequestFailed? && Observe(m, e).Some? && m.current.value.phase.Cancelling?
    ensures Agrees(Observe(m, e).value, CsvHint(csv, e.task, e.error), JsonHint(json, e.task, e.error))
  {
    AgreesMeans(m, csv, json);
    TurnFacts(m, e);
    assert Filed(Observe(m, e).value) == Filed(m);
    AgreesMeans(Observe(m, e).value, CsvHint(csv, e.task, e.error), JsonHint(json, e.task, e.error));
  }

  // One event of an open turn, once its effect on the turn is known.
  lemma {:induction false} StillOpen(m: Monitor, t': Turn, c': CsvTask, j': JsonTask, csv: CsvView, json: JsonView,
                                     csv': CsvView, json': JsonView)
    requires Agrees(m, csv, json) && IsOpen(m) && t'.task == m.current.value.task && !IsFiled(t')
    requires TurnAgrees(t', c', j', csv', json') && csv'.taskRows == csv.taskRows && json'.records == json.records
    ensures Agrees(m.(current := Some(t')), csv', json')
  {
    AgreesMeans(m, csv, json);
    assert Filed(m.(current := Some(t'))) == Filed(m);
    AgreesMeans(m.(current := Some(t')), csv', json');
  }

  // What each event says about an open turn.
  lemma {:induction false} OpenFacts(t: Turn, e: Event)
    requires Within(t, e).Some? && !t.phase.Cancelling?
    ensures e.LlmCompleted? ==>
              t.phase == Answering(e.callIndex) &&
              Within(t, e).value == t.(phase := Counting(e.callIndex))
    ensures e.TokensUsed? ==>
              t.phase == Counting(e.callIndex) &&
              Within(t, e).value == WithCall(t, LlmFact(e.callIndex, e.promptTokens, e.completionTokens, None))
    ensures e.LlmFailed? ==>
              t.phase == Answering(e.callIndex) &&
              Within(t, e).value == WithCall(t, LlmFact(e.callIndex, None, None, Some(e.error)))
    ensures e.ToolCompleted? ==>
              t.phase == Dispatching(e.toolIndex, e.name, e.arguments) &&
              Within(t, e).value == WithTool(t, ToolFact(e.toolIndex, e.name, e.arguments, e.output, e.mutated))
    ensures e.RequestFailed? ==> (t.phase.Running? || t.phase.Answering?) &&
                                 Within(t, e).value == t.(phase := Over(ERROR, Some(e.error)))
  {
  }

  lemma {:induction false} AnsweredEvent(m: Monitor, csv: CsvView, json: JsonView, e: Event)
    requires Agrees(m, csv, json) && Observe(m, e).Some? && e.LlmCompleted?
    ensures Agrees(Observe(m, e).value, csv.(pending := Some(PendingCompletion(e.task, e.callIndex))),
                   JsonCompleted(json, e.task, e.callIndex))
  {
    AgreesMeans(m, csv, json);
    StillOpenBefore(m, e);
    TurnFacts(m, e);
    var t, i := m.current.value, e.callIndex;
    OpenFacts(t, e);
    var c, j := csv.tasks[t.task], json.tasks[t.task];
    CompletedStep(t, i, c, j, csv, json);
    StillOpen(m, t.(phase := Counting(i)), c, j.(llmCalls := j.llmCalls +
              [LlmRecord(i, None, None, OK, None)]), csv, json,
              csv.(pending := Some(PendingCompletion(t.task, i))), JsonCompleted(json, t.task, i));
  }

  lemma {:induction false} FailedCallEvent(m: Monitor, csv: CsvView, json: JsonView, e: Event)
    requires Agrees(m, csv, json) && Observe(m, e).Some? && e.LlmFailed?
    ensures Agrees(Observe(m, e).value, CsvFailedCall(csv, e.task, e.callIndex, e.error),
                   JsonFailedCall(json, e.task, e.callIndex, e.error))
  {
    AgreesMeans(m, csv, json);
    StillOpenBefore(m, e);
    TurnFacts(m, e);
    var t, i := m.current.value, e.callIndex;
    OpenFacts(t, e);
    var c, j := csv.tasks[t.task], json.tasks[t.task];
    FailedCallStep(t, e.error, c, j, csv, json);
    var j' := j.(llmCalls := j.llmCalls + [LlmRecord(i, None, None, ERROR, Some(e.error))]);
    StillOpen(m, Within(t, e).value, CsvTaskOf(j'.llmCalls, j.toolCalls, None), j', csv, json,
              CsvFailedCall(csv, t.task, i, e.error), JsonFailedCall(json, t.task, i, e.error));
  }

  lemma {:induction false} TokensEvent(m: Monitor, csv: CsvView, json: JsonView, e: Event)
    requires Agrees(m, csv, json) && Observe(m, e).Some? && e.TokensUsed?
    ensures Agrees(Observe(m, e).value, CsvTokens(csv, e.task, e.callIndex, e.promptTokens, e.completionTokens),
                   JsonTokens(json, e.task, e.callIndex, e.promptTokens, e.completionTokens))
  {
    AgreesMeans(m, csv, json);
    StillOpenBefore(m, e);
    TurnFacts(m, e);
    var t := m.current.value;
    OpenFacts(t, e);
    var c, j := csv.tasks[t.task], json.tasks[t.task];
    TokensStep(t, e.promptTokens, e.completionTokens, c, j, csv, json);
    var j' := Counted(t, j, e.promptTokens, e.completionTokens);
    TokensViews(t, e.promptTokens, e.completionTokens, c, j, csv, json);
    StillOpen(m, Within(t, e).value, CsvTaskOf(j'.llmCalls, j.toolCalls, None), j', csv, json,
              CsvTokens(csv, t.task, e.callIndex, e.promptTokens, e.completionTokens),
              JsonTokens(json, t.task, e.callIndex, e.promptTokens, e.completionTokens));
  }

  lemma {:induction false} ToolEvent(m: Monitor, csv: CsvView, json: JsonView, e: Event)
    requires Agrees(m, csv, json) && Observe(m, e).Some? && e.ToolCompleted?
    ensures Agrees(Observe(m, e).value, CsvTool(csv, e.task, e.toolIndex, e.name, e.output),
                   JsonTool(json, e.task, ToolRecordOf(e.toolIndex, e.name, e.output, e.arguments, e.mutated)))
  {
    AgreesMeans(m, csv, json);
    StillOpenBefore(m, e);
    TurnFacts(m, e);
    var t := m.current.value;
    OpenFacts(t, e);
    var c, j := csv.tasks[t.task], json.tasks[t.task];
    ToolStep(t, e.output, e.mutated, c, j, csv, json);
    var tool := ToolRecordOf(e.toolIndex, e.name, e.output, e.arguments, e.mutated);
    StillOpen(m, Within(t, e).value, CsvTaskOf(j.llmCalls, j.toolCalls + [tool], None),
              j.(toolCalls := j.toolCalls + [tool]), csv, json,
              CsvTool(csv, t.task, e.toolIndex, e.name, e.output), JsonTool(json, t.task, tool));
  }

  lemma {:induction false} HintEvent(m: Monitor, csv: CsvView, json: JsonView, e: Event)
    requires Agrees(m, csv, json) && Observe(m, e).Some? && e.RequestFailed?
    ensures Agrees(Observe(m, e).value, CsvHint(csv, e.task, e.error),
                   JsonHint(json, e.task, e.error))
  {
    AgreesMeans(m, csv, json);
    TurnFacts(m, e);
    var t := m.current.value;
    if t.phase.Cancelling? {
      LateFailureStep(m, csv, json, e);
    } else {
      StillOpenBefore(m, e);
      OpenFacts(t, e);
      var c, j := csv.tasks[t.task], json.tasks[t.task];
      HintStep(t, e.error, c, j, csv, json);
      StillOpen(m, t.(phase := Over(ERROR, Some(e.error))), c.(pendingError := Some(e.error)),
                j.(pendingError := Some(e.error)), csv, json, CsvHint(csv, t.task, e.error), JsonHint(json, t.task,
                          e.error));
    }
  }

  lemma {:induction false} IdleEvent(m: Monitor, csv: CsvView, json: JsonView, e: Event)
    requires Agrees(m, csv, json) && Observe(m, e).Some? && IsIdle(e)
    ensures Agrees(Observe(m, e).value, csv, json)
  {
    AgreesMeans(m, csv, json);
    StillOpenBefore(m, e);
    TurnFacts(m, e);
    var t := m.current.value;
    var c, j := csv.tasks[t.task], json.tasks[t.task];
    IdleTurn(t, e);
    IdleStep(t, e, c, j, csv, json);
    StillOpen(m, Within(t, e).value, c, j, csv, json, csv, json);
  }

  lemma {:induction false} StepAgrees(
      m: Monitor, csv: CsvView, json: JsonView, e: Event, csvOrder: seq<nat>, jsonOrder: seq<nat>)
    requires Agrees(m, csv, json) && Observe(m, e).Some?
    requires Enumerates(csvOrder, Stale(csv.tasks.Keys, e)) && Enumerates(jsonOrder, Stale(json.tasks.Keys, e))
    ensures Agrees(Observe(m, e).value, CsvRecorded(csv, e, csvOrder), JsonRecorded(json, e, jsonOrder))
  {
    match e {
      case RequestStarted(_, _, _) => StartStep(m, csv, json, e, csvOrder, jsonOrder);
      case RequestCompleted(task, reply) => CompletedEvent(m, csv, json, task, reply);
      case Cancelled(task) => CancelledEvent(m, csv, json, task);
      case RequestFailed(_, _) => HintEvent(m, csv, json, e);
      case LlmCompleted(_, _) => CallEvent(m, csv, json, e, csvOrder, jsonOrder);
      case LlmFailed(_, _, _) => CallEvent(m, csv, json, e, csvOrder, jsonOrder);
      case TokensUsed(_, _, _, _) => CallEvent(m, csv, json, e, csvOrder, jsonOrder);
      case ToolCompleted(_, _, _, _, _, _, _) => ToolEvent(m, csv, json, e);
      case _ => IdleEvent(m, csv, json, e); IdleRecorded(csv, json, e, csvOrder, jsonOrder);
    }
  }

  lemma {:induction false} CallEvent(
      m: Monitor, csv: CsvView, json: JsonView, e: Event, csvOrder: seq<nat>, jsonOrder: seq<nat>)
    requires Agrees(m, csv, json) && Observe(m, e).Some? && (e.LlmCompleted? || e.LlmFailed? || e.TokensUsed?)
    ensures Agrees(Observe(m, e).value, CsvRecorded(csv, e, csvOrder), JsonRecorded(json, e, jsonOrder))
  {
    match e {
      case LlmCompleted(_, _) => AnsweredEvent(m, csv, json, e);
      case LlmFailed(_, _, _) => FailedCallEvent(m, csv, json, e);
      case TokensUsed(_, _, _, _) => TokensEvent(m, csv, json, e);
    }
  }

  lemma {:induction false} IdleRecorded(csv: CsvView, json: JsonView, e: Event, csvOrder: seq<nat>, jsonOrder: seq<nat>)
    requires IsIdle(e)
    ensures CsvRecorded(csv, e, csvOrder) == csv && JsonRecorded(json, e, jsonOrder) == json
  {
  }

  lemma {:induction false} StillOpenBefore(m: Monitor, e: Event)
    requires Observe(m, e).Some? && !e.RequestStarted?
    requires m.current.Some? ==> !m.current.value.phase.Cancelling? || !e.RequestFailed?
    ensures IsOpen(m)
  {
  }

  lemma {:induction false} RunAgrees(trace: seq<Event>, csvOrders: seq<seq<nat>>, jsonOrders: seq<seq<nat>>)
    requires |csvOrders| == |jsonOrders| == |trace|
    requires Observed(trace).Some? && CsvAfter(trace, csvOrders).Some? && JsonAfter(trace, jsonOrders).Some?
    ensures Agrees(Observed(trace).value, CsvAfter(trace, csvOrders).value, JsonAfter(trace, jsonOrders).value)
  {
    if trace != [] {
      var n := |trace| - 1;
      RunAgrees(trace[..n], csvOrders[..n], jsonOrders[..n]);
      StepAgrees(Observed(trace[..n]).value, CsvAfter(trace[..n], csvOrders[..n]).value,
                 JsonAfter(trace[..n], jsonOrders[..n]).value, trace[n], csvOrders[n], jsonOrders[n]);
    } else {
      AgreesMeans(Quiet(), CsvView(map[], None, [], [], []), JsonView(map[], None, []));
    }
  }

  // ----- What the records say is what happened.

  // What the turn's own facts look like as records.
  function LlmRecordOf(call: LlmFact): LlmRecord {
    LlmRecord(call.callIndex, call.input, call.output, if call.error.Some? then ERROR else OK, call.error)
  }

  function LlmRecords(calls: seq<LlmFact>): seq<LlmRecord> {
    if calls == [] then [] else LlmRecords(calls[..|calls| - 1]) + [LlmRecordOf(calls[|calls| - 1])]
  }

  function ToolRecords(tools: seq<ToolFact>): seq<ToolRecord> {
    if tools == [] then []
    else
      var t := tools[|tools| - 1];
      ToolRecords(tools[..|tools| - 1]) + [ToolRecordOf(t.index, t.name, t.output, t.arguments, t.mutated)]
  }

  lemma {:induction false} LlmRecordsAppend(calls: seq<LlmFact>, call: LlmFact)
    ensures LlmRecords(calls + [call]) == LlmRecords(calls) + [LlmRecordOf(call)]
  {
    assert (calls + [call])[..|calls|] == calls;
  }

  lemma {:induction false} ToolRecordsAppend(tools: seq<ToolFact>, t: ToolFact)
    ensures ToolRecords(tools + [t])
            == ToolRecords(tools) + [ToolRecordOf(t.index, t.name, t.output, t.arguments, t.mutated)]
  {
    assert (tools + [t])[..|tools|] == tools;
  }

  // The accumulator of a running turn holds the turn's facts so far.
  predicate TellsTask(t: Turn, j: JsonTask) {
    && j.prompt == t.facts.prompt && j.source == t.facts.source && j.reply == t.facts.reply
    && Settled(t, j.llmCalls) == LlmRecords(t.facts.calls) && j.toolCalls == ToolRecords(t.facts.tools)
  }

  /** The record of a turn holds its prompt, its reply, and every call with its outcome. */
  predicate TellsRecord(r: TaskRecord, s: Summary) {
    && r.prompt == s.facts.prompt && r.source == s.facts.source && r.reply == s.facts.reply
    && r.llmCalls == LlmRecords(s.facts.calls) && r.toolCalls == ToolRecords(s.facts.tools)
  }

  predicate TellsAll(records: seq<TaskRecord>, summaries: seq<Summary>) {
    |records| == |summaries| && forall i | 0 <= i < |records| :: TellsRecord(records[i], summaries[i])
  }

  predicate Tells(m: Monitor, json: JsonView) {
    && (IsOpen(m) ==>
          var t := m.current.value;
          t.task in json.tasks && TellsTask(t, json.tasks[t.task]))
    && TellsAll(json.records, Filed(m))
  }

  // What the sinks' agreement says about the JSONL sink alone.
  predicate JsonShape(m: Monitor, json: JsonView) {
    if IsOpen(m) then
      var t := m.current.value;
      && t.task in json.tasks && json.tasks == map[t.task := json.tasks[t.task]]
      && (t.phase.Counting? ==>
            var calls := json.tasks[t.task].llmCalls;
            calls != [] && calls[|calls| - 1] == LlmRecord(t.phase.index, None, None, OK, None) &&
            json.pending == Some(PendingTokens(t.task, t.phase.index, |calls| - 1)))
    else json.tasks == map[]
  }

  lemma {:induction false} AgreesShape(m: Monitor, csv: CsvView, json: JsonView)
    requires Agrees(m, csv, json)
    ensures JsonShape(m, json) && (m.current.Some? ==> m.current.value.task in m.used)
  {
    AgreesMeans(m, csv, json);
  }

  // A turn that stays open.
  lemma {:induction false} TellsOn(m: Monitor, t': Turn, j': JsonTask, json: JsonView, json': JsonView)
    requires IsOpen(m) && Tells(m, json) && t'.task == m.current.value.task && !IsFiled(t') && TellsTask(t', j')
    requires t'.task in json'.tasks && json'.tasks[t'.task] == j' && json'.records == json.records
    ensures Tells(m.(current := Some(t')), json')
  {
    assert Filed(m.(current := Some(t'))) == Filed(m);
  }

  lemma {:induction false} TellsMore(records: seq<TaskRecord>, summaries: seq<Summary>, r: TaskRecord, s: Summary)
    requires TellsAll(records, summaries) && TellsRecord(r, s)
    ensures TellsAll(records + [r], summaries + [s])
  {
  }

  // A turn that is filed.
  lemma {:induction false} TellsFiled(t: Turn, s: Summary, status: string, error: Option<string>, json: JsonView,
      done: seq<Summary>)
    requires t.task in json.tasks && TellsTask(t, json.tasks[t.task]) && !t.phase.Counting? && s.facts == t.facts
    requires TellsAll(json.records, done)
    ensures TellsAll(JsonFinalized(json, t.task, status, error).records, done + [s])
  {
    var j := json.tasks[t.task];
    var shown := if error.Some? then error else j.pendingError;
    TellsMore(json.records, done,
              TaskRecord(t.task, j.source, j.prompt, status, shown, j.reply, j.llmCalls, j.toolCalls), s);
  }

  lemma {:induction false} TellsCalls(m: Monitor, json: JsonView, e: Event)
    requires JsonShape(m, json) && Tells(m, json) && Observe(m, e).Some? && (e.LlmCompleted? || e.LlmFailed?)
    ensures e.LlmCompleted? ==> Tells(Observe(m, e).value, JsonCompleted(json, e.task, e.callIndex))
    ensures e.LlmFailed? ==> Tells(Observe(m, e).value, JsonFailedCall(json, e.task, e.callIndex, e.error))
  {
    StillOpenBefore(m, e);
    TurnFacts(m, e);
    var t := m.current.value;
    OpenFacts(t, e);
    var j, t' := json.tasks[t.task], Within(t, e).value;
    if e.LlmCompleted? {
      var calls := j.llmCalls + [LlmRecord(e.callIndex, None, None, OK, None)];
      assert calls[..|j.llmCalls|] == j.llmCalls;
      TellsOn(m, t', j.(llmCalls := calls), json, JsonCompleted(json, e.task, e.callIndex));
    } else {
      LlmRecordsAppend(t.facts.calls, LlmFact(e.callIndex, None, None, Some(e.error)));
      TellsOn(m, t', j.(llmCalls := j.llmCalls + [LlmRecord(e.callIndex, None, None, ERROR, Some(e.error))]), json,
              JsonFailedCall(json, e.task, e.callIndex, e.error));
    }
  }

  lemma {:induction false} TellsTokens(m: Monitor, json: JsonView, e: Event)
    requires JsonShape(m, json) && Tells(m, json) && Observe(m, e).Some? && e.TokensUsed?
    ensures Tells(Observe(m, e).value, JsonTokens(json, e.task, e.callIndex, e.promptTokens, e.completionTokens))
  {
    StillOpenBefore(m, e);
    TurnFacts(m, e);
    var t := m.current.value;
    OpenFacts(t, e);
    var j := json.tasks[t.task];
    var n, call := |j.llmCalls| - 1, LlmRecord(e.callIndex, e.promptTokens, e.completionTokens, OK, None);
    assert j.llmCalls[n := call] == j.llmCalls[..n] + [call];
    LlmRecordsAppend(t.facts.calls, LlmFact(e.callIndex, e.promptTokens, e.completionTokens, None));
    TellsOn(m, Within(t, e).value, j.(llmCalls := j.llmCalls[n := call]), json,
            JsonTokens(json, e.task, e.callIndex, e.promptTokens, e.completionTokens));
  }

  lemma {:induction false} TellsTool(m: Monitor, json: JsonView, e: Event)
    requires JsonShape(m, json) && Tells(m, json) && Observe(m, e).Some? && e.ToolCompleted?
    ensures Tells(Observe(m, e).value,
                  JsonTool(json, e.task, ToolRecordOf(e.toolIndex, e.name, e.output, e.arguments, e.mutated)))
  {
    StillOpenBefore(m, e);
    TurnFacts(m, e);
    var t := m.current.value;
    OpenFacts(t, e);
    var j, tool := json.tasks[t.task], ToolRecordOf(e.toolIndex, e.name, e.output, e.arguments, e.mutated);
    ToolRecordsAppend(t.facts.tools, ToolFact(e.toolIndex, e.name, e.arguments, e.output, e.mutated));
    TellsOn(m, Within(t, e).value, j.(toolCalls := j.toolCalls + [tool]), json, JsonTool(json, e.task, tool));
  }

  lemma {:induction false} TellsHint(m: Monitor, json: JsonView, e: Event)
    requires JsonShape(m, json) && Tells(m, json) && Observe(m, e).Some? && e.RequestFailed?
    ensures Tells(Observe(m, e).value, JsonHint(json, e.task, e.error))
  {
    TurnFacts(m, e);
    var t := m.current.value;
    if t.phase.Cancelling? {
      assert Filed(Observe(m, e).value) == Filed(m);
    } else {
      StillOpenBefore(m, e);
      OpenFacts(t, e);
      TellsOn(m, Within(t, e).value, json.tasks[t.task].(pendingError := Some(e.error)), json, JsonHint(json, e.task,
                e.error));
    }
  }

  lemma {:induction false} TellsEnd(m: Monitor, json: JsonView, e: Event)
    requires JsonShape(m, json) && Tells(m, json) && Observe(m, e).Some? && (e.RequestCompleted? || e.Cancelled?)
    ensures e.RequestCompleted? ==>
              Tells(Observe(m, e).value, JsonFinalized(JsonReply(json, e.task, e.reply), e.task, OK, None))
    ensures e.Cancelled? ==> Tells(Observe(m, e).value, JsonFinalized(json, e.task, CANCELLED, None))
  {
    StillOpenBefore(m, e);
    TurnFacts(m, e);
    var t := m.current.value;
    EndFacts(t, e);
    assert Filed(m) == m.done;
    var s := Conclude(Within(t, e).value);
    if e.RequestCompleted? {
      TellsFiled(WithReply(t, e.reply), s, OK, None, JsonReply(json, e.task, e.reply), m.done);
    } else {
      TellsFiled(t, s, CANCELLED, None, json, m.done);
    }
  }

  lemma {:induction false} TellsIdle(m: Monitor, json: JsonView, e: Event)
    requires JsonShape(m, json) && Tells(m, json) && Observe(m, e).Some? && IsIdle(e)
    ensures Tells(Observe(m, e).value, json)
  {
    StillOpenBefore(m, e);
    TurnFacts(m, e);
    var t := m.current.value;
    IdleStays(t, e);
    TellsOn(m, Within(t, e).value, json.tasks[t.task], json, json);
  }

  lemma {:induction false} IdleStays(t: Turn, e: Event)
    requires IsIdle(e) && Within(t, e).Some?
    ensures var t' := Within(t, e).value;
            t'.task == t.task && t'.facts == t.facts && !t.phase.Counting? && !t'.phase.Counting? && !IsFiled(t')
  {
  }

  // Flushing files what is open with its facts.
  lemma {:induction false} TellsFlush(m: Monitor, json: JsonView, order: seq<nat>)
    requires JsonShape(m, json) && Tells(m, json) && (m.current.Some? ==> Resting(m.current.value))
    requires Enumerates(order, json.tasks.Keys)
    ensures TellsAll(JsonFlushed(json, order).records, Summaries(m))
  {
    if IsOpen(m) {
      var t := m.current.value;
      OnlyOrder(order, t.task);
      assert order[1..] == [];
      assert JsonFlushed(json, order) == JsonAbandoned(json, t.task);
      assert Filed(m) == m.done;
      TellsFiled(t, Conclude(t), ERROR, Some(json.tasks[t.task].pendingError.GetOr(NO_TERMINAL_EVENT)), json, m.done);
    } else {
      assert order == [];
    }
  }

  lemma {:induction false} TellsStart(m: Monitor, json: JsonView, e: Event, order: seq<nat>)
    requires JsonShape(m, json) && Tells(m, json) && e.RequestStarted? && Observe(m, e).Some?
    requires m.current.Some? ==> m.current.value.task in m.used
    requires Enumerates(order, Stale(json.tasks.Keys, e))
    ensures Tells(Observe(m, e).value, JsonRecorded(json, e, order))
  {
    assert e.task !in json.tasks;
    assert Stale(json.tasks.Keys, e) == json.tasks.Keys;
    TellsFlush(m, json, order);
    assert Filed(Observe(m, e).value) == Summaries(m);
  }

  lemma {:induction false} StepTells(m: Monitor, json: JsonView, e: Event, order: seq<nat>)
    requires JsonShape(m, json) && Tells(m, json) && Observe(m, e).Some?
    requires m.current.Some? ==> m.current.value.task in m.used
    requires Enumerates(order, Stale(json.tasks.Keys, e))
    ensures Tells(Observe(m, e).value, JsonRecorded(json, e, order))
  {
    match e {
      case RequestStarted(_, _, _) => TellsStart(m, json, e, order);
      case RequestCompleted(_, _) => TellsEnd(m, json, e);
      case Cancelled(_) => TellsEnd(m, json, e);
      case RequestFailed(_, _) => TellsHint(m, json, e);
      case LlmCompleted(_, _) => TellsExchange(m, json, e, order);
      case LlmFailed(_, _, _) => TellsExchange(m, json, e, order);
      case TokensUsed(_, _, _, _) => TellsExchange(m, json, e, order);
      case ToolCompleted(_, _, _, _, _, _, _) => TellsExchange(m, json, e, order);
      case _ => TellsIdle(m, json, e);
    }
  }

  // An event that tells how a call came out.
  lemma {:induction false} TellsExchange(m: Monitor, json: JsonView, e: Event, order: seq<nat>)
    requires JsonShape(m, json) && Tells(m, json) && Observe(m, e).Some?
    requires e.LlmCompleted? || e.LlmFailed? || e.TokensUsed? || e.ToolCompleted?
    ensures Tells(Observe(m, e).value, JsonRecorded(json, e, order))
  {
    match e {
      case LlmCompleted(_, _) => TellsCalls(m, json, e);
      case LlmFailed(_, _, _) => TellsCalls(m, json, e);
      case TokensUsed(_, _, _, _) => TellsTokens(m, json, e);
      case ToolCompleted(_, _, _, _, _, _, _) => TellsTool(m, json, e);
    }
  }

  lemma {:induction false} RunTells(trace: seq<Event>, csvOrders: seq<seq<nat>>, jsonOrders: seq<seq<nat>>)
    requires |csvOrders| == |jsonOrders| == |trace|
    requires Observed(trace).Some? && CsvAfter(trace, csvOrders).Some? && JsonAfter(trace, jsonOrders).Some?
    ensures Tells(Observed(trace).value, JsonAfter(trace, jsonOrders).value)
  {
    if trace != [] {
      var n := |trace| - 1;
      RunTells(trace[..n], csvOrders[..n], jsonOrders[..n]);
      RunAgrees(trace[..n], csvOrders[..n], jsonOrders[..n]);
      var m, json := Observed(trace[..n]).value, JsonAfter(trace[..n], jsonOrders[..n]).value;
      AgreesShape(m, CsvAfter(trace[..n], csvOrders[..n]).value, json);
      StepTells(m, json, trace[n], jsonOrders[n]);
    }
  }

  // ----- What the numbers in a row mean, from the record's own counts.

  predicate ReportsBoth(call: LlmRecord) {
    call.input.Some? && call.output.Some?
  }

  function InputTokens(calls: seq<LlmRecord>): nat {
    if calls == [] then 0 else InputTokens(calls[..|calls| - 1]) + calls[|calls| - 1].input.GetOr(0)
  }

  function OutputTokens(calls: seq<LlmRecord>): nat {
    if calls == [] then 0 else OutputTokens(calls[..|calls| - 1]) + calls[|calls| - 1].output.GetOr(0)
  }

  // Input and output together, over the calls that report both.
  function TokensOfBoth(calls: seq<LlmRecord>): nat {
    if calls == [] then 0
    else
      var c := calls[|calls| - 1];
      TokensOfBoth(calls[..|calls| - 1]) + if ReportsBoth(c) then c.input.value + c.output.value else 0
  }

  /** A task row's columns are sums over the record's calls; a column nothing was reported for stays empty. */
  ghost predicate RowAddsUp(row: TaskRow, r: TaskRecord) {
    && row.task == r.task && row.status == r.status && row.error == r.error.GetOr("")
    && row.llmCalls == |r.llmCalls| && row.toolCalls == |r.toolCalls|
    && (row.input.Some? <==> exists c | c in r.llmCalls :: c.input.Some?)
    && row.input.GetOr(0) == InputTokens(r.llmCalls)
    && (row.output.Some? <==> exists c | c in r.llmCalls :: c.output.Some?)
    && row.output.GetOr(0) == OutputTokens(r.llmCalls)
    && (row.total.Some? <==> exists c | c in r.llmCalls :: ReportsBoth(c))
    && row.total.GetOr(0) == TokensOfBoth(r.llmCalls)
    && ((forall c | c in r.llmCalls :: ReportsBoth(c)) ==>
          row.total.GetOr(0) == row.input.GetOr(0) + row.output.GetOr(0))
    && (forall name :: name in row.toolsUsed <==> exists t | t in r.toolCalls :: t.name == name)
  }

  /** An LLM call is an error exactly when it has one to show. */
  predicate IsCallJudged(c: LlmRecord) {
    (c.status == "error" <==> c.error.Some?) && c.status in {"ok", "error"}
  }

  /** A call's row: the record's call, with a total exactly when both counts are there. */
  predicate CallRowAddsUp(row: LlmRow, task: nat, c: LlmRecord) {
    && IsCallJudged(c) && row.task == task && row.callIndex == c.callIndex
    && row.input == c.input && row.output == c.output
    && row.status == c.status && row.error == c.error.GetOr("")
    && (row.total.Some? <==> ReportsBoth(c))
    && (row.total.Some? ==> row.total.value == c.input.value + c.output.value)
  }

  predicate CallRowsAddUp(rows: seq<LlmRow>, task: nat, calls: seq<LlmRecord>) {
    |rows| == |calls| && forall i | 0 <= i < |rows| :: CallRowAddsUp(rows[i], task, calls[i])
  }

  /** An error exactly when the tool's output starts with "ERROR:", and then the output is the error. */
  predicate IsJudged(t: ToolRecord) {
    && (t.status == "error" <==> |t.output| >= 6 && t.output[..6] == "ERROR:")
    && t.status in {"ok", "error"} && t.error == if t.status == "error" then Some(t.output) else None
  }

  predicate ToolRowTells(row: ToolRow, task: nat, t: ToolRecord) {
    && IsJudged(t) && row.task == task && row.toolIndex == t.index && row.name == t.name
    && (row.status == "error" <==> |t.output| >= 6 && t.output[..6] == "ERROR:")
    && row.status == t.status && row.error == if row.status == "error" then t.output else ""
  }

  predicate ToolRowsTell(rows: seq<ToolRow>, task: nat, tools: seq<ToolRecord>) {
    |rows| == |tools| && forall i | 0 <= i < |rows| :: ToolRowTells(rows[i], task, tools[i])
  }

  // The part of a file that one record calls for: its lines, after those of the records before it.
  predicate FilesTell(llmRows: seq<LlmRow>, toolRows: seq<ToolRow>, records: seq<TaskRecord>)
    decreases |records|
  {
    if records == [] then llmRows == [] && toolRows == []
    else
      var last := records[|records| - 1];
      var l, t := |llmRows| - |last.llmCalls|, |toolRows| - |last.toolCalls|;
      && l >= 0 && t >= 0 && CallRowsAddUp(llmRows[l..], last.task, last.llmCalls)
      && ToolRowsTell(toolRows[t..], last.task, last.toolCalls)
      && FilesTell(llmRows[..l], toolRows[..t], records[..|records| - 1])
  }

  ghost predicate RowsAddUp(rows: seq<TaskRow>, records: seq<TaskRecord>) {
    |rows| == |records| && forall i | 0 <= i < |rows| :: RowAddsUp(rows[i], records[i])
  }

  lemma {:induction false} SumsMean(calls: seq<LlmRecord>)
    ensures SumInput(calls).Some? <==> exists c | c in calls :: c.input.Some?
    ensures SumInput(calls).GetOr(0) == InputTokens(calls)
    ensures SumOutput(calls).Some? <==> exists c | c in calls :: c.output.Some?
    ensures SumOutput(calls).GetOr(0) == OutputTokens(calls)
  {
    if calls != [] {
      var front, last := calls[..|calls| - 1], calls[|calls| - 1];
      SumsMean(front);
      assert calls == front + [last];
    }
  }

  lemma {:induction false} TotalMeans(calls: seq<LlmRecord>)
    ensures SumTotal(calls).Some? <==> exists c | c in calls :: ReportsBoth(c)
    ensures SumTotal(calls).GetOr(0) == TokensOfBoth(calls)
    ensures (forall c | c in calls :: ReportsBoth(c)) ==>
              TokensOfBoth(calls) == InputTokens(calls) + OutputTokens(calls)
  {
    if calls != [] {
      var front, last := calls[..|calls| - 1], calls[|calls| - 1];
      TotalMeans(front);
      assert calls == front + [last];
      if c :| c in front && ReportsBoth(c) {
        assert c in calls;
      }
      assert ReportsBoth(last) ==> last in calls;
    }
  }

  lemma {:induction false} NamesMean(tools: seq<ToolRecord>, name: string)
    ensures name in ToolNames(tools) <==> exists t | t in tools :: t.name == name
  {
    if tools != [] {
      var front, last := tools[..|tools| - 1], tools[|tools| - 1];
      NamesMean(front, name);
      assert tools == front + [last];
    }
  }

  lemma {:induction false} RowOfAddsUp(r: TaskRecord)
    ensures RowAddsUp(RowOf(r), r)
  {
    SumsMean(r.llmCalls);
    TotalMeans(r.llmCalls);
    forall name ensures name in ToolNames(r.toolCalls) <==> exists t | t in r.toolCalls :: t.name == name {
      NamesMean(r.toolCalls, name);
    }
  }

  lemma {:induction false} LlmRowsAddUp(task: nat, calls: seq<LlmRecord>)
    requires forall c | c in calls :: IsCallJudged(c)
    ensures CallRowsAddUp(LlmRows(task, calls), task, calls)
  {
    if calls != [] {
      LlmRowsAddUp(task, calls[..|calls| - 1]);
      assert calls[|calls| - 1] in calls;
    }
  }

  lemma {:induction false} ToolRowsOfJudged(task: nat, tools: seq<ToolRecord>)
    requires forall t | t in tools :: IsJudged(t)
    ensures ToolRowsTell(ToolRows(task, tools), task, tools)
  {
    if tools != [] {
      ToolRowsOfJudged(task, tools[..|tools| - 1]);
      assert tools[|tools| - 1] in tools;
    }
  }

  lemma {:induction false} RecordsAreJudged(tools: seq<ToolFact>)
    ensures forall t | t in ToolRecords(tools) :: IsJudged(t)
  {
    if tools != [] {
      RecordsAreJudged(tools[..|tools| - 1]);
    }
  }

  lemma {:induction false} CallsAreJudged(calls: seq<LlmFact>)
    ensures forall c | c in LlmRecords(calls) :: IsCallJudged(c)
  {
    if calls != [] {
      CallsAreJudged(calls[..|calls| - 1]);
    }
  }

  predicate IsRecordJudged(r: TaskRecord) {
    (forall t | t in r.toolCalls :: IsJudged(t)) && forall c | c in r.llmCalls :: IsCallJudged(c)
  }

  lemma {:induction false} AllRowsTell(records: seq<TaskRecord>)
    requires forall r | r in records :: IsRecordJudged(r)
    ensures FilesTell(AllLlmRows(records), AllToolRows(records), records)
  {
    if records != [] {
      var front, last := records[..|records| - 1], records[|records| - 1];
      AllRowsTell(front);
      assert last in records;
      LlmRowsAddUp(last.task, last.llmCalls);
      ToolRowsOfJudged(last.task, last.toolCalls);
      var llm, tool := AllLlmRows(front), AllToolRows(front);
      assert AllLlmRows(records)[..|llm|] == llm && AllLlmRows(records)[|llm|..] == LlmRows(last.task, last.llmCalls);
      assert AllToolRows(records)[..|tool|] == tool;
      assert AllToolRows(records)[|tool|..] == ToolRows(last.task, last.toolCalls);
    }
  }

  lemma {:induction false} FilesAddUp(rows: seq<TaskRow>, records: seq<TaskRecord>, summaries: seq<Summary>)
    requires AllMatch(rows, records, summaries) && TellsAll(records, summaries)
    ensures RowsAddUp(rows, records) && FilesTell(AllLlmRows(records), AllToolRows(records), records)
  {
    forall i | 0 <= i < |rows| ensures RowAddsUp(rows[i], records[i]) {
      assert Matches(rows[i], records[i], summaries[i]);
      RowOfAddsUp(records[i]);
    }
    forall r | r in records ensures IsRecordJudged(r) {
      var i :| 0 <= i < |records| && records[i] == r;
      assert TellsRecord(records[i], summaries[i]);
      RecordsAreJudged(summaries[i].facts.tools);
      CallsAreJudged(summaries[i].facts.calls);
    }
    AllRowsTell(records);
  }

  /**
   On every trace of whole turns, whatever order the hash maps give, once both sinks are dropped: one row and one
   record per turn, in turn order, with the status and error the turn ended with; the row's counts, totals and tools
   are the sums over the record's lists; the call rows are those lists, call by call; and the record's prompt, reply
   and lists are what the turn's events say.
   */
  lemma {:induction false} SinksReconcile(
      trace: seq<Event>, csvOrders: seq<seq<nat>>, jsonOrders: seq<seq<nat>>, csvDrop: seq<nat>, jsonDrop: seq<nat>)
    requires |csvOrders| == |jsonOrders| == |trace| && IsTurns(trace)
    requires CsvAfter(trace, csvOrders).Some? && JsonAfter(trace, jsonOrders).Some?
    requires Enumerates(csvDrop, CsvAfter(trace, csvOrders).value.tasks.Keys)
    requires Enumerates(jsonDrop, JsonAfter(trace, jsonOrders).value.tasks.Keys)
    ensures var csv := CsvFlushed(CsvAfter(trace, csvOrders).value, csvDrop);
            var json := JsonFlushed(JsonAfter(trace, jsonOrders).value, jsonDrop);
            && AllMatch(csv.taskRows, json.records, Summaries(Observed(trace).value))
            && TellsAll(json.records, Summaries(Observed(trace).value))
            && csv.llmRows == AllLlmRows(json.records) && csv.toolRows == AllToolRows(json.records)
            && RowsAddUp(csv.taskRows, json.records) && FilesTell(csv.llmRows, csv.toolRows, json.records)
            && csv.tasks == map[] && json.tasks == map[]
  {
    RunAgrees(trace, csvOrders, jsonOrders);
    RunTells(trace, csvOrders, jsonOrders);
    AgreesShape(Observed(trace).value, CsvAfter(trace, csvOrders).value, JsonAfter(trace, jsonOrders).value);
    TellsFlush(Observed(trace).value, JsonAfter(trace, jsonOrders).value, jsonDrop);
    FlushAgrees(Observed(trace).value, CsvAfter(trace, csvOrders).value, JsonAfter(trace, jsonOrders).value,
                csvDrop, jsonDrop);
    FilesAddUp(CsvFlushed(CsvAfter(trace, csvOrders).value, csvDrop).taskRows,
               JsonFlushed(JsonAfter(trace, jsonOrders).value, jsonDrop).records, Summaries(Observed(trace).value));
  }

  predicate HasIndex(calls: seq<LlmRecord>, k: nat) {
    exists i | 0 <= i < |calls| :: calls[i].callIndex == k
  }

  // Indices recorded in call order are all of 1..n exactly when there are n of them.
  lemma {:induction false} GaplessExactly(calls: seq<LlmRecord>, n: nat)
    requires InCallOrder(calls, n)
    ensures |calls| <= n
    ensures |calls| == n <==> forall k | 1 <= k <= n :: HasIndex(calls, k)
    ensures |calls| == n ==> forall i | 0 <= i < |calls| :: calls[i].callIndex == i + 1
  {
    IndexAtLeast(calls, n);
    if |calls| == n {
      forall i | 0 <= i < |calls| ensures calls[i].callIndex == i + 1 {
        IndexAtMost(calls, n, i);
      }
      forall k | 1 <= k <= n ensures HasIndex(calls, k) {
        assert calls[k - 1].callIndex == k;
      }
    } else if forall k | 1 <= k <= n :: HasIndex(calls, k) {
      AllPresent(calls, n);
    }
  }

  lemma {:induction false} IndexAtLeast(calls: seq<LlmRecord>, n: nat)
    requires InCallOrder(calls, n)
    ensures |calls| <= n && forall i | 0 <= i < |calls| :: calls[i].callIndex >= i + 1
  {
    if calls != [] {
      var last := |calls| - 1;
      IndexAtLeast(calls[..last], calls[last].callIndex - 1);
    }
  }

  lemma {:induction false} IndexAtMost(calls: seq<LlmRecord>, n: nat, i: nat)
    requires InCallOrder(calls, n) && i < |calls| && |calls| == n
    ensures calls[i].callIndex == i + 1
    decreases |calls| - i
  {
    IndexAtLeast(calls, n);
    if i + 1 < |calls| {
      IndexAtMost(calls, n, i + 1);
    }
  }

  lemma {:induction false} AllPresent(calls: seq<LlmRecord>, n: nat)
    requires InCallOrder(calls, n) && forall k | 1 <= k <= n :: HasIndex(calls, k)
    ensures |calls| == n
    decreases n
  {
    if n > 0 {
      assert HasIndex(calls, n);
      var last := |calls| - 1;
      assert calls[last].callIndex == n;
      forall k | 1 <= k <= n - 1 ensures HasIndex(calls[..last], k) {
        assert HasIndex(calls, k);
        var i :| 0 <= i < |calls| && calls[i].callIndex == k;
        assert calls[..last][i].callIndex == k;
      }
      AllPresent(calls[..last], n - 1);
    }
  }

  /**
   On arbitrary traces the errors can differ: the sinks agree on a task filed without an error of its own exactly when
   it had not failed before, or had failed with an empty reason.
   */
  lemma {:induction false} FiledErrorsAgreeExactly(
      csv: CsvView, json: JsonView, task: nat, status: string, error: Option<string>)
    requires task in csv.tasks && task in json.tasks && csv.tasks[task].pendingError == json.tasks[task].pendingError
    ensures var row := CsvFinalized(csv, task, status, error).taskRows[|csv.taskRows|];
            var record := JsonFinalized(json, task, status, error).records[|json.records|];
            row.error == record.error.GetOr("")
            <==> error.Some? || json.tasks[task].pendingError.GetOr("") == ""
  {
  }

  // ----- The sinks themselves.

  class CsvMetricsSink {
    var tasks: map<nat, CsvTask>
    var pending: Option<PendingCompletion>
    // The three files.
    var llmRows: seq<LlmRow>
    var toolRows: seq<ToolRow>
    var taskRows: seq<TaskRow>
    // Everything recorded so far, and the orders the hash map happened to give.
    ghost var trace: seq<Event>
    ghost var orders: seq<seq<nat>>

    function View(): CsvView
      reads this
    {
      CsvView(tasks, pending, llmRows, toolRows, taskRows)
    }

    ghost predicate Valid()
      reads this
    {
      |orders| == |trace| && CsvAfter(trace, orders) == Some(View())
    }

    constructor ()
      ensures Valid() && trace == []
    {
      tasks, pending, llmRows, toolRows, taskRows, trace, orders := map[], None, [], [], [], [], [];
    }

    method FinalizeTask(task: nat, status: string, error: Option<string>)
      modifies this`tasks, this`taskRows
      ensures View() == CsvFinalized(old(View()), task, status, error)
    {
      if task !in tasks {
        return;
      }
      var a := tasks[task];
      tasks := tasks - {task};
      taskRows := taskRows + [TaskRow(task, a.llmCalls, a.input, a.output, a.total, a.toolCalls, a.toolsUsed, status,
                                      error.GetOr(""))];
    }

    /** Files every task but `except` as an error, in whatever order the map gives them. */
    method FlushAbandoned(except: Option<nat>) returns (ghost order: seq<nat>)
      modifies this`tasks, this`taskRows
      ensures Enumerates(order, if except.Some? then old(tasks).Keys - {except.value} else old(tasks).Keys)
      ensures View() == CsvFlushed(old(View()), order)
    {
      ghost var all := if except.Some? then tasks.Keys - {except.value} else tasks.Keys;
      var stale := if except.Some? then tasks.Keys - {except.value} else tasks.Keys;
      order := [];
      while stale != {}
        invariant stale <= all && |order| + |stale| == |all|
        invariant forall t :: t in order <==> t in all - stale
        invariant View() == CsvFlushed(old(View()), order)
        decreases stale
      {
        var task :| task in stale;
        var hint := if task in tasks then tasks[task].pendingError else None;
        CsvFlushedAppend(old(View()), order, task);
        FinalizeTask(task, ERROR, Some(hint.GetOr(NO_TERMINAL_EVENT)));
        order := order + [task];
        stale := stale - {task};
      }
    }

    method HandleTokensUsed(task: nat, callIndex: nat, input: Option<nat>, output: Option<nat>)
      modifies this`tasks, this`pending, this`llmRows
      ensures View() == CsvTokens(old(View()), task, callIndex, input, output)
    {
      var was := pending;
      pending := None;
      if was.None? || was.value.task != task || was.value.callIndex != callIndex {
        return;
      }
      var total := Total(input, output);
      llmRows := llmRows + [LlmRow(task, callIndex, input, output, total, OK, "")];
      if task in tasks {
        var a := tasks[task];
        tasks := tasks[task := a.(llmCalls := a.llmCalls + 1, input := Added(a.input, input),
                                  output := Added(a.output, output), total := Added(a.total, total))];
      }
    }

    method Record(e: Event)
      requires Valid()
      modifies this
      ensures Valid() && trace == old(trace) + [e]
    {
      ghost var before := View();
      ghost var order: seq<nat> := [];
      match e {
        case RequestStarted(task, _, _) =>
          order := FlushAbandoned(Some(task));
          tasks := tasks[task := NewCsvTask()];
        case LlmCompleted(task, i) => pending := Some(PendingCompletion(task, i));
        case TokensUsed(task, i, input, output) => HandleTokensUsed(task, i, input, output);
        case LlmFailed(task, i, error) => RecordFailedCall(task, i, error);
        case ToolCompleted(task, i, name, output, _, _, _) => RecordTool(task, i, name, output);
        case RequestFailed(task, error) =>
          if task in tasks {
            tasks := tasks[task := tasks[task].(pendingError := Some(error))];
          }
        case RequestCompleted(task, _) => FinalizeTask(task, OK, None);
        case Cancelled(task) => FinalizeTask(task, CANCELLED, None);
        case _ =>
      }
      assert View() == CsvRecorded(before, e, order);
      Log(before, e, order);
    }

    method RecordFailedCall(task: nat, i: nat, error: string)
      modifies this`tasks, this`llmRows
      ensures View() == CsvFailedCall(old(View()), task, i, error)
    {
      llmRows := llmRows + [LlmRow(task, i, None, None, None, ERROR, error)];
      if task in tasks {
        tasks := tasks[task := tasks[task].(llmCalls := tasks[task].llmCalls + 1)];
      }
    }

    method RecordTool(task: nat, i: nat, name: string, output: string)
      modifies this`tasks, this`toolRows
      ensures View() == CsvTool(old(View()), task, i, name, output)
    {
      var isError := IsErrorOutput(output);
      toolRows := toolRows + [ToolRow(task, i, name, if isError then ERROR else OK, if isError then output else "")];
      if task in tasks {
        var a := tasks[task];
        tasks := tasks[task := a.(toolCalls := a.toolCalls + 1, toolsUsed := a.toolsUsed + {name})];
      }
    }

    ghost method Log(before: CsvView, e: Event, order: seq<nat>)
      requires |orders| == |trace| && CsvAfter(trace, orders) == Some(before)
      requires Enumerates(order, Stale(before.tasks.Keys, e)) && View() == CsvRecorded(before, e, order)
      modifies this`trace, this`orders
      ensures Valid() && trace == old(trace) + [e]
    {
      assert (trace + [e])[..|trace|] == trace && (orders + [order])[..|orders|] == orders;
      trace, orders := trace + [e], orders + [order];
    }
  }

  lemma {:induction false} CsvFlushedAppend(v: CsvView, order: seq<nat>, task: nat)
    ensures CsvFlushed(v, order + [task]) == CsvAbandoned(CsvFlushed(v, order), task)
    decreases |order|
  {
    if order == [] {
      assert (order + [task])[1..] == [];
    } else {
      assert (order + [task])[1..] == order[1..] + [task];
      CsvFlushedAppend(CsvAbandoned(v, order[0]), order[1..], task);
    }
  }

  lemma {:induction false} JsonFlushedAppend(v: JsonView, order: seq<nat>, task: nat)
    ensures JsonFlushed(v, order + [task]) == JsonAbandoned(JsonFlushed(v, order), task)
    decreases |order|
  {
    if order == [] {
      assert (order + [task])[1..] == [];
    } else {
      assert (order + [task])[1..] == order[1..] + [task];
      JsonFlushedAppend(JsonAbandoned(v, order[0]), order[1..], task);
    }
  }

  class JsonlMetricsSink {
    var tasks: map<nat, JsonTask>
    var pending: Option<PendingTokens>
    // The file, one record a line.
    var records: seq<TaskRecord>
    ghost var trace: seq<Event>
    ghost var orders: seq<seq<nat>>

    function View(): JsonView
      reads this
    {
      JsonView(tasks, pending, records)
    }

    ghost predicate Valid()
      reads this
    {
      |orders| == |trace| && JsonAfter(trace, orders) == Some(View())
    }

    constructor ()
      ensures Valid() && trace == []
    {
      tasks, pending, records, trace, orders := map[], None, [], [], [];
    }

    method FinalizeTask(task: nat, status: string, error: Option<string>)
      modifies this`tasks, this`records
      ensures View() == JsonFinalized(old(View()), task, status, error)
    {
      if task !in tasks {
        return;
      }
      var a := tasks[task];
      tasks := tasks - {task};
      var shown := if error.Some? then error else a.pendingError;
      records := records + [TaskRecord(task, a.source, a.prompt, status, shown, a.reply, a.llmCalls, a.toolCalls)];
    }

    method FlushAbandoned(except: Option<nat>) returns (ghost order: seq<nat>)
      modifies this`tasks, this`records
      ensures Enumerates(order, if except.Some? then old(tasks).Keys - {except.value} else old(tasks).Keys)
      ensures View() == JsonFlushed(old(View()), order)
    {
      ghost var all := if except.Some? then tasks.Keys - {except.value} else tasks.Keys;
      var stale := if except.Some? then tasks.Keys - {except.value} else tasks.Keys;
      order := [];
      while stale != {}
        invariant stale <= all && |order| + |stale| == |all|
        invariant forall t :: t in order <==> t in all - stale
        invariant View() == JsonFlushed(old(View()), order)
        decreases stale
      {
        var task :| task in stale;
        var hint := if task in tasks then tasks[task].pendingError else None;
        JsonFlushedAppend(old(View()), order, task);
        FinalizeTask(task, ERROR, Some(hint.GetOr(NO_TERMINAL_EVENT)));
        order := order + [task];
        stale := stale - {task};
      }
    }

    method Record(e: Event)
      requires Valid()
      modifies this
      ensures Valid() && trace == old(trace) + [e]
    {
      ghost var before := View();
      ghost var order: seq<nat> := [];
      match e {
        case RequestStarted(task, prompt, source) =>
          order := FlushAbandoned(Some(task));
          tasks := tasks[task := NewJsonTask(prompt, source)];
        case LlmCompleted(task, i) => RecordCompletion(task, i);
        case TokensUsed(task, i, input, output) => PatchTokens(task, i, input, output);
        case LlmFailed(task, i, error) => PushCall(task, LlmRecord(i, None, None, ERROR, Some(error)));
        case ToolCompleted(task, i, name, output, _, arguments, mutated) =>
          PushTool(task, ToolRecordOf(i, name, output, arguments, mutated));
        case RequestFailed(task, error) =>
          if task in tasks {
            tasks := tasks[task := tasks[task].(pendingError := Some(error))];
          }
        case RequestCompleted(task, reply) =>
          if task in tasks {
            tasks := tasks[task := tasks[task].(reply := Some(reply))];
          }
          FinalizeTask(task, OK, None);
        case Cancelled(task) => FinalizeTask(task, CANCELLED, None);
        case _ =>
      }
      assert View() == JsonRecorded(before, e, order);
      Log(before, e, order);
    }

    method PushCall(task: nat, call: LlmRecord)
      modifies this`tasks
      ensures View() == JsonCall(old(View()), task, call)
    {
      if task in tasks {
        tasks := tasks[task := tasks[task].(llmCalls := tasks[task].llmCalls + [call])];
      }
    }

    // Recorded at once; the token counts are patched in later.
    method RecordCompletion(task: nat, i: nat)
      modifies this`tasks, this`pending
      ensures View() == JsonCompleted(old(View()), task, i)
    {
      if task in tasks {
        var position := |tasks[task].llmCalls|;
        PushCall(task, LlmRecord(i, None, None, OK, None));
        pending := Some(PendingTokens(task, i, position));
      }
    }

    method PatchTokens(task: nat, i: nat, input: Option<nat>, output: Option<nat>)
      modifies this`tasks, this`pending
      ensures View() == JsonTokens(old(View()), task, i, input, output)
    {
      var was := pending;
      pending := None;
      if was.None? || was.value.task != task || was.value.callIndex != i {
        return;
      }
      var p := was.value.position;
      if task in tasks && p < |tasks[task].llmCalls| {
        var a := tasks[task];
        var call := a.llmCalls[p].(input := input, output := output);
        tasks := tasks[task := a.(llmCalls := a.llmCalls[p := call])];
      }
    }

    method PushTool(task: nat, tool: ToolRecord)
      modifies this`tasks
      ensures View() == JsonTool(old(View()), task, tool)
    {
      if task in tasks {
        tasks := tasks[task := tasks[task].(toolCalls := tasks[task].toolCalls + [tool])];
      }
    }

    ghost method Log(before: JsonView, e: Event, order: seq<nat>)
      requires |orders| == |trace| && JsonAfter(trace, orders) == Some(before)
      requires Enumerates(order, Stale(before.tasks.Keys, e)) && View() == JsonRecorded(before, e, order)
      modifies this`trace, this`orders
      ensures Valid() && trace == old(trace) + [e]
    {
      assert (trace + [e])[..|trace|] == trace && (orders + [order])[..|orders|] == orders;
      trace, orders := trace + [e], orders + [order];
    }
  }

  /** Dropping both sinks after the same whole turns leaves files that match turn by turn and call by call. */
  method DropBoth(csv: CsvMetricsSink, json: JsonlMetricsSink)
    requires csv.Valid() && json.Valid() && csv.trace == json.trace && IsTurns(csv.trace)
    modifies csv, json
    ensures AllMatch(csv.taskRows, json.records, Summaries(Observed(old(csv.trace)).value))
    ensures TellsAll(json.records, Summaries(Observed(old(csv.trace)).value))
    ensures csv.llmRows == AllLlmRows(json.records) && csv.toolRows == AllToolRows(json.records)
    ensures RowsAddUp(csv.taskRows, json.records) && FilesTell(csv.llmRows, csv.toolRows, json.records)
  {
    ghost var trace, csvOrders, jsonOrders := csv.trace, csv.orders, json.orders;
    ghost var csvDrop := csv.FlushAbandoned(None);
    ghost var jsonDrop := json.FlushAbandoned(None);
    SinksReconcile(trace, csvOrders, jsonOrders, csvDrop, jsonDrop);
  }
}
