/**
 The speech queue: callers announce and send, narrators first look whether the queue is backed up, flushers wait
 for an acknowledgement, and one worker speaks. Every access to the counter or the channel is one atomic step.
 */
module SpeechQueue {
  import opened Wrappers

  const MAX_QUEUED_NARRATION: nat := 2

  datatype Op = Say(text: string) | Narrate(text: string) | Flush

  /** How far a call, and then its message, has come. */
  datatype Life =
    | Checking | Ready | Announced | Queued
    | Speaking | Heard
    | Dropped | Lost
    | Acked | Returned | Released

  /** `since` is how many messages had been sent when the call began. */
  datatype Call = Call(op: Op, life: Life, since: nat)

  datatype Message = Message(call: nat, op: Op)

  /** Between two messages, speaking one, or done speaking it but still counted. */
  datatype Worker = Idle | Busy(message: Message) | Winding(message: Message)

  datatype SpeechView = SpeechView(
    pending: int, queue: seq<Message>, worker: Worker, alive: bool, calls: seq<Call>,
    // The most narrations ever under way at once.
    mostNarrating: nat,
    // History: every message in the order it entered the channel, how many the worker took, what it spoke.
    sent: seq<Message>, taken: nat, spoken: seq<Message>)

  datatype Step =
    | Begin(op: Op)
    | Check(call: nat) | Announce(call: nat) | Send(call: nat) | Collect(call: nat)
    | Take | Spoke | Finish | Panic

  function Start(): SpeechView {
    SpeechView(0, [], Idle, true, [], 0, [], 0, [])
  }

  // What a count over the calls selects.
  datatype Kind = AnnouncedSpeech | AnnouncedNarration | ReadyNarration | ActiveNarration

  predicate Is(c: Call, k: Kind) {
    match k
    case AnnouncedSpeech => c.life == Announced && !c.op.Flush?
    case AnnouncedNarration => c.life == Announced && c.op.Narrate?
    case ReadyNarration => c.life == Ready && c.op.Narrate?
    case ActiveNarration => (c.life == Checking || c.life == Ready || c.life == Announced) && c.op.Narrate?
  }

  function Count(calls: seq<Call>, k: Kind): nat {
    if calls == [] then 0
    else Count(calls[..|calls| - 1], k) + if Is(calls[|calls| - 1], k) then 1 else 0
  }

  predicate Enabled(v: SpeechView, s: Step) {
    match s
    case Begin(_) => true
    case Check(i) => i < |v.calls| && v.calls[i].life == Checking
    case Announce(i) => i < |v.calls| && v.calls[i].life == Ready && !v.calls[i].op.Flush?
    case Send(i) => i < |v.calls| && v.calls[i].life == (if v.calls[i].op.Flush? then Ready else Announced)
    case Collect(i) =>
      i < |v.calls| && v.calls[i].op.Flush? && (v.calls[i].life == Acked || (v.calls[i].life == Queued && !v.alive))
    case Take => v.alive && v.worker.Idle? && v.queue != []
    case Spoke => v.alive && v.worker.Busy?
    case Finish => v.alive && v.worker.Winding?
    case Panic => v.alive && v.worker.Busy?
  }

  function Moved(v: SpeechView, i: nat, life: Life): SpeechView
    requires i < |v.calls|
  {
    v.(calls := v.calls[i := v.calls[i].(life := life)])
  }

  function Apply(v: SpeechView, s: Step): SpeechView
    requires Enabled(v, s)
  {
    match s
    case Begin(op) =>
      var calls := v.calls + [Call(op, if op.Narrate? then Checking else Ready, |v.sent|)];
      var narrating := Count(calls, ActiveNarration);
      v.(calls := calls, mostNarrating := if narrating > v.mostNarrating then narrating else v.mostNarrating)
    case Check(i) => Moved(v, i, if v.pending >= MAX_QUEUED_NARRATION then Dropped else Ready)
    case Announce(i) => Moved(v, i, Announced).(pending := v.pending + 1)
    case Send(i) => SendApplied(v, i)
    case Collect(i) => Moved(v, i, if v.calls[i].life == Acked then Returned else Released)
    case Take => TakeApplied(v, v.queue[0])
    case Spoke => v.(worker := Winding(v.worker.message), spoken := v.spoken + [v.worker.message])
    case Finish =>
      var m := v.worker.message;
      var done := v.(worker := Idle, pending := v.pending - 1);
      if m.call < |v.calls| then Moved(done, m.call, Heard) else done
    case Panic => v.(alive := false)
  }

  // A send into the channel, or, with the worker gone, the undone announcement.
  function SendApplied(v: SpeechView, i: nat): SpeechView
    requires i < |v.calls|
  {
    var m := Message(i, v.calls[i].op);
    if v.alive then Moved(v, i, Queued).(queue := v.queue + [m], sent := v.sent + [m])
    else if m.op.Flush? then Moved(v, i, Released)
    else Moved(v, i, Lost).(pending := v.pending - 1)
  }

  function TakeApplied(v: SpeechView, m: Message): SpeechView
    requires v.queue != []
  {
    var rest := v.(queue := v.queue[1..], taken := v.taken + 1);
    var moved := if m.call < |v.calls| then Moved(rest, m.call, if m.op.Flush? then Acked else Speaking) else rest;
    if m.op.Flush? then moved else moved.(worker := Busy(m))
  }

  function After(steps: seq<Step>): Option<SpeechView> {
    if steps == [] then Some(Start())
    else
      var before := After(steps[..|steps| - 1]);
      var s := steps[|steps| - 1];
      if before.Some? && Enabled(before.value, s) then Some(Apply(before.value, s)) else None
  }

  // ----- Counting.

  predicate Counts(op: Op, narrationsOnly: bool) {
    op.Narrate? || (op.Say? && !narrationsOnly)
  }

  function CountQueued(queue: seq<Message>, narrationsOnly: bool): nat {
    if queue == [] then 0
    else CountQueued(queue[1..], narrationsOnly) + if Counts(queue[0].op, narrationsOnly) then 1 else 0
  }

  /** Announced but unsent, queued, and being spoken: all messages, or the narrations among them. */
  function Outstanding(v: SpeechView, narrationsOnly: bool): nat {
    Count(v.calls, if narrationsOnly then AnnouncedNarration else AnnouncedSpeech) +
    CountQueued(v.queue, narrationsOnly) +
    if !v.worker.Idle? && Counts(v.worker.message.op, narrationsOnly) then 1 else 0
  }

  lemma {:induction false} CountUpdate(calls: seq<Call>, i: nat, c: Call, k: Kind)
    requires i < |calls|
    ensures Count(calls[i := c], k) + (if Is(calls[i], k) then 1 else 0) == Count(calls, k) + if Is(c, k) then 1 else 0
  {
    var last := |calls| - 1;
    if i == last {
      assert calls[i := c][..last] == calls[..last];
    } else {
      assert calls[i := c][..last] == calls[..last][i := c];
      CountUpdate(calls[..last], i, c, k);
    }
  }

  lemma {:induction false} CountAppend(calls: seq<Call>, c: Call, k: Kind)
    ensures Count(calls + [c], k) == Count(calls, k) + if Is(c, k) then 1 else 0
  {
    assert (calls + [c])[..|calls|] == calls;
  }

  lemma {:induction false} CountNarrower(calls: seq<Call>, a: Kind, b: Kind)
    requires forall c: Call :: Is(c, a) ==> Is(c, b)
    ensures Count(calls, a) <= Count(calls, b)
  {
    if calls != [] {
      CountNarrower(calls[..|calls| - 1], a, b);
    }
  }

  lemma {:induction false} CountQueuedAppend(queue: seq<Message>, m: Message, narrationsOnly: bool)
    ensures CountQueued(queue + [m], narrationsOnly)
            == CountQueued(queue, narrationsOnly) + if Counts(m.op, narrationsOnly) then 1 else 0
  {
    if queue != [] {
      assert (queue + [m])[1..] == queue[1..] + [m];
      CountQueuedAppend(queue[1..], m, narrationsOnly);
    } else {
      assert (queue + [m])[1..] == [];
    }
  }

  lemma {:induction false} QueuedNarrower(queue: seq<Message>)
    ensures CountQueued(queue, true) <= CountQueued(queue, false)
  {
    if queue != [] {
      QueuedNarrower(queue[1..]);
    }
  }

  lemma {:induction false} OutstandingNarrower(v: SpeechView)
    ensures Outstanding(v, true) <= Outstanding(v, false)
  {
    CountNarrower(v.calls, AnnouncedNarration, AnnouncedSpeech);
    QueuedNarrower(v.queue);
  }

  // ----- Order in the channel.

  /** The messages the worker has words for, in order. */
  function Speeches(sent: seq<Message>): seq<Message> {
    if sent == [] then []
    else Speeches(sent[..|sent| - 1]) + if sent[|sent| - 1].op.Flush? then [] else [sent[|sent| - 1]]
  }

  lemma {:induction false} SpeechesPrefix(sent: seq<Message>, j: nat, k: nat)
    requires j <= k <= |sent|
    ensures Speeches(sent[..j]) <= Speeches(sent[..k])
  {
    if j < k {
      SpeechesPrefix(sent, j, k - 1);
      assert sent[..k][..k - 1] == sent[..k - 1];
    }
  }

  predicate MessageLife(v: SpeechView, m: Message, taken: bool)
    requires m.call < |v.calls|
  {
    var life := v.calls[m.call].life;
    if !taken then life == Queued || (life == Released && m.op.Flush? && !v.alive)
    else if m.op.Flush? then life == Acked || life == Returned
    else if life == Speaking then !v.worker.Idle? && v.worker.message == m
    else life == Heard
  }

  predicate MessageOk(v: SpeechView, k: nat)
    requires k < |v.sent|
  {
    var m := v.sent[k];
    && m.call < |v.calls|
    && m.op == v.calls[m.call].op
    && v.calls[m.call].since <= k
    && MessageLife(v, m, k < v.taken)
  }

  ghost predicate Channel(v: SpeechView) {
    && v.taken <= |v.sent| && v.queue == v.sent[v.taken..]
    && (forall k | 0 <= k < |v.sent| :: MessageOk(v, k))
    && (forall j, k | 0 <= j < k < |v.sent| :: v.sent[j].call != v.sent[k].call)
  }

  ghost predicate WorkerOk(v: SpeechView) {
    && (v.worker.Idle? ==> v.alive)
    && (!v.worker.Idle? ==> 0 < v.taken <= |v.sent| && v.worker.message == v.sent[v.taken - 1] &&
                            v.worker.message.call < |v.calls| &&
                            v.calls[v.worker.message.call].life == Speaking && !v.worker.message.op.Flush?)
  }

  ghost predicate InOrder(v: SpeechView) {
    v.taken <= |v.sent| &&
    Speeches(v.sent[..v.taken]) == v.spoken + if v.worker.Busy? then [v.worker.message] else []
  }

  ghost predicate CallOk(v: SpeechView, i: nat)
    requires i < |v.calls|
  {
    var c := v.calls[i];
    && c.since <= |v.sent|
    && (c.life == Acked || c.life == Returned ==> c.op.Flush? && Speeches(v.sent[..c.since]) <= v.spoken)
    && (c.life == Released ==> c.op.Flush? && !v.alive)
    && (c.life == Dropped || c.life == Checking ==> c.op.Narrate?)
    && (c.life == Lost ==> !v.alive)
    && (c.life == Announced ==> !c.op.Flush?)
  }

  ghost predicate CallsOk(v: SpeechView) {
    forall i | 0 <= i < |v.calls| :: CallOk(v, i)
  }

  ghost predicate Tallied(v: SpeechView) {
    && v.pending == Outstanding(v, false)
    && Count(v.calls, ActiveNarration) <= v.mostNarrating
    && Outstanding(v, true) + Count(v.calls, ReadyNarration) <= MAX_QUEUED_NARRATION - 1 + v.mostNarrating
  }

  ghost predicate Safe(v: SpeechView) {
    Channel(v) && WorkerOk(v) && InOrder(v) && CallsOk(v) && Tallied(v)
  }

  // How one call's change of life moves every count.
  lemma {:induction false} CountsMove(calls: seq<Call>, i: nat, life: Life)
    requires i < |calls|
    ensures forall k :: Count(calls[i := calls[i].(life := life)], k) + (if Is(calls[i], k) then 1 else 0)
                        == Count(calls, k) + if Is(calls[i].(life := life), k) then 1 else 0
  {
    forall k ensures Count(calls[i := calls[i].(life := life)], k) + (if Is(calls[i], k) then 1 else 0)
                     == Count(calls, k) + if Is(calls[i].(life := life), k) then 1 else 0
    {
      CountUpdate(calls, i, calls[i].(life := life), k);
    }
  }

  lemma {:induction false} BeginTallied(v: SpeechView, op: Op)
    requires Tallied(v)
    ensures Tallied(Apply(v, Begin(op)))
  {
    var c := Call(op, if op.Narrate? then Checking else Ready, |v.sent|);
    CountAppend(v.calls, c, AnnouncedSpeech);
    CountAppend(v.calls, c, AnnouncedNarration);
    CountAppend(v.calls, c, ReadyNarration);
    CountAppend(v.calls, c, ActiveNarration);
  }

  // A narration that passes the check found room, so only the narrations passing with it can overshoot.
  lemma {:induction false} CheckTallied(v: SpeechView, i: nat)
    requires Tallied(v) && Enabled(v, Check(i))
    ensures Tallied(Apply(v, Check(i)))
  {
    var v' := Apply(v, Check(i));
    CountsMove(v.calls, i, v'.calls[i].life);
    OutstandingNarrower(v);
    CountNarrower(v'.calls, ReadyNarration, ActiveNarration);
  }

  lemma {:induction false} SendTallied(v: SpeechView, i: nat)
    requires Tallied(v) && Enabled(v, Send(i))
    ensures Tallied(Apply(v, Send(i)))
  {
    var v' := Apply(v, Send(i));
    CountsMove(v.calls, i, v'.calls[i].life);
    var m := Message(i, v.calls[i].op);
    CountQueuedAppend(v.queue, m, true);
    CountQueuedAppend(v.queue, m, false);
  }

  lemma {:induction false} CallStepTallied(v: SpeechView, s: Step)
    requires Tallied(v) && Enabled(v, s) && (s.Announce? || s.Collect?)
    ensures Tallied(Apply(v, s))
  {
    CountsMove(v.calls, s.call, Apply(v, s).calls[s.call].life);
  }

  lemma {:induction false} TakeTallied(v: SpeechView)
    requires Tallied(v) && Channel(v) && Enabled(v, Take)
    ensures Tallied(Apply(v, Take))
  {
    FrontOk(v);
    var m := v.queue[0];
    CountsMove(v.calls, m.call, if m.op.Flush? then Acked else Speaking);
  }

  lemma {:induction false} FinishTallied(v: SpeechView)
    requires Tallied(v) && WorkerOk(v) && Enabled(v, Finish)
    ensures Tallied(Apply(v, Finish))
  {
    CountsMove(v.calls, v.worker.message.call, Heard);
  }

  lemma {:induction false} FrontOk(v: SpeechView)
    requires Channel(v) && v.queue != []
    ensures v.taken < |v.sent| && v.queue[0] == v.sent[v.taken] && MessageOk(v, v.taken)
    ensures v.alive ==> v.calls[v.queue[0].call].life == Queued
  {
  }

  lemma {:induction false} StepTallied(v: SpeechView, s: Step)
    requires Safe(v) && Enabled(v, s)
    ensures Tallied(Apply(v, s))
  {
    match s {
      case Begin(op) => BeginTallied(v, op);
      case Check(i) => CheckTallied(v, i);
      case Send(i) => SendTallied(v, i);
      case Announce(_) => CallStepTallied(v, s);
      case Collect(_) => CallStepTallied(v, s);
      case Take => TakeTallied(v);
      case Finish => FinishTallied(v);
      case _ =>
    }
  }

  // A step of the worker.
  predicate IsTurn(s: Step) {
    s.Take? || s.Spoke? || s.Finish? || s.Panic?
  }

  predicate IsUnsent(life: Life) {
    life == Checking || life == Ready || life == Announced
  }

  // A call that has not sent yet has no message in the channel.
  lemma {:induction false} UnsentNotInChannel(v: SpeechView, i: nat, k: nat)
    requires Channel(v) && i < |v.calls| && k < |v.sent|
    requires IsUnsent(v.calls[i].life)
    ensures v.sent[k].call != i
  {
    assert MessageOk(v, k);
  }

  // The channel is untouched by a step that only moves a call which has nothing in it.
  lemma {:induction false} BeforeSendChannel(v: SpeechView, s: Step)
    requires Channel(v) && Enabled(v, s) && (s.Check? || s.Announce? || (s.Send? && !v.alive))
    ensures Channel(Apply(v, s))
  {
    var v' := Apply(v, s);
    forall k | 0 <= k < |v.sent| ensures MessageOk(v', k) {
      UnsentNotInChannel(v, s.call, k);
      assert MessageOk(v, k);
    }
  }

  lemma {:induction false} SendChannel(v: SpeechView, i: nat)
    requires Channel(v) && CallsOk(v) && Enabled(v, Send(i)) && v.alive
    ensures Channel(Apply(v, Send(i)))
  {
    var v' := Apply(v, Send(i));
    forall k | 0 <= k < |v.sent| ensures MessageOk(v', k) && v'.sent[k].call != i {
      UnsentNotInChannel(v, i, k);
      assert MessageOk(v, k);
    }
    assert CallOk(v, i);
    assert MessageOk(v', |v.sent|);
  }

  lemma {:induction false} TakeChannel(v: SpeechView)
    requires Channel(v) && WorkerOk(v) && Enabled(v, Take)
    ensures Channel(Apply(v, Take))
  {
    FrontOk(v);
    var v' := Apply(v, Take);
    forall k | 0 <= k < |v.sent| ensures MessageOk(v', k) {
      assert MessageOk(v, k);
      if k < v.taken {
        assert v.sent[k].call != v.sent[v.taken].call;
      }
    }
  }

  lemma {:induction false} CollectChannel(v: SpeechView, i: nat)
    requires Channel(v) && Enabled(v, Collect(i))
    ensures Channel(Apply(v, Collect(i)))
  {
    var v' := Apply(v, Collect(i));
    forall k | 0 <= k < |v.sent| ensures MessageOk(v', k) {
      assert MessageOk(v, k);
    }
  }

  lemma {:induction false} WorkerChannel(v: SpeechView, s: Step)
    requires Channel(v) && WorkerOk(v) && Enabled(v, s) && (s.Spoke? || s.Finish? || s.Panic?)
    ensures Channel(Apply(v, s))
  {
    var v' := Apply(v, s);
    forall k | 0 <= k < |v.sent| ensures MessageOk(v', k) {
      assert MessageOk(v, k);
      if k != v.taken - 1 {
        assert v.sent[k].call != v.sent[v.taken - 1].call;
      }
    }
  }

  lemma {:induction false} BeginChannel(v: SpeechView, op: Op)
    requires Channel(v)
    ensures Channel(Apply(v, Begin(op)))
  {
    var v' := Apply(v, Begin(op));
    forall k | 0 <= k < |v.sent| ensures MessageOk(v', k) {
      assert MessageOk(v, k);
    }
  }

  lemma {:induction false} StepChannel(v: SpeechView, s: Step)
    requires Safe(v) && Enabled(v, s)
    ensures Channel(Apply(v, s))
  {
    match s {
      case Begin(op) => BeginChannel(v, op);
      case Check(_) => BeforeSendChannel(v, s);
      case Announce(_) => BeforeSendChannel(v, s);
      case Send(i) => if v.alive { SendChannel(v, i); } else { BeforeSendChannel(v, s); }
      case Take => TakeChannel(v);
      case Collect(i) => CollectChannel(v, i);
      case _ => WorkerChannel(v, s);
    }
  }

  // The worker only moves calls whose messages it has been sent.
  lemma {:induction false} UnsentUntouched(v: SpeechView, i: nat)
    requires Safe(v) && i < |v.calls| && IsUnsent(v.calls[i].life)
    ensures forall s | Enabled(v, s) && IsTurn(s) ::
              i < |Apply(v, s).calls| && Apply(v, s).calls[i] == v.calls[i] && Apply(v, s).sent == v.sent
  {
    if v.queue != [] {
      FrontOk(v);
      UnsentNotInChannel(v, i, v.taken);
    }
  }

  function Phase(w: Worker): nat {
    match w
    case Idle => 0
    case Winding(_) => 1
    case Busy(_) => 2
  }

  // The state after one turn of the worker, as a flush waiting at place `k` sees it.
  predicate TurnCloser(v: SpeechView, v': SpeechView, i: nat, k: nat) {
    && v'.sent == v.sent && i < |v.calls| && i < |v'.calls|
    && (v'.calls[i] == v.calls[i].(life := Acked) || (v'.calls[i] == v.calls[i] && v'.taken <= k))
    && (!v'.alive || v'.taken > v.taken || (v'.taken == v.taken && Phase(v'.worker) < Phase(v.worker)))
  }

  // A turn leaves a queued flush queued unless it is at the front.
  lemma {:induction false} TurnTowardsAck(v: SpeechView, i: nat, k: nat)
    requires Safe(v) && i < |v.calls| && v.calls[i].op.Flush? && v.calls[i].life == Queued
    requires v.taken <= k < |v.sent| && v.sent[k] == Message(i, Op.Flush)
    ensures forall s | Enabled(v, s) && IsTurn(s) :: TurnCloser(v, Apply(v, s), i, k)
  {
    if v.queue != [] {
      FrontOk(v);
      if v.taken < k {
        assert v.sent[v.taken].call != v.sent[k].call;
      }
    }
  }

  lemma {:induction false} StepWorker(v: SpeechView, s: Step)
    requires Channel(v) && WorkerOk(v) && CallsOk(v) && Enabled(v, s)
    ensures WorkerOk(Apply(v, s))
  {
    if s.Take? {
      FrontOk(v);
    } else if v.worker.Idle? {
      assert Apply(v, s).worker.Idle?;
    } else {
      assert MessageOk(v, v.taken - 1);
      if Apply(v, s).worker != Idle {
        assert Apply(v, s).calls[v.worker.message.call] == v.calls[v.worker.message.call];
      }
    }
  }

  lemma {:induction false} StepInOrder(v: SpeechView, s: Step)
    requires Safe(v) && Enabled(v, s)
    ensures InOrder(Apply(v, s))
  {
    var v' := Apply(v, s);
    if s.Take? {
      FrontOk(v);
      assert v.sent[..v.taken + 1][..v.taken] == v.sent[..v.taken];
    } else {
      assert v'.sent[..v.taken] == v.sent[..v.taken];
    }
  }

  lemma {:induction false} StepCalls(v: SpeechView, s: Step)
    requires Safe(v) && Enabled(v, s)
    ensures CallsOk(Apply(v, s))
  {
    forall i | 0 <= i < |Apply(v, s).calls| ensures CallOk(Apply(v, s), i) {
      StepCall(v, s, i);
    }
  }

  lemma {:induction false} StepCall(v: SpeechView, s: Step, i: nat)
    requires Safe(v) && Enabled(v, s) && i < |Apply(v, s).calls|
    ensures CallOk(Apply(v, s), i)
  {
    if i < |v.calls| {
      OldCallOk(v, s, i);
    }
  }

  lemma {:induction false} OldCallOk(v: SpeechView, s: Step, i: nat)
    requires CallsOk(v) && Channel(v) && WorkerOk(v) && InOrder(v) && Enabled(v, s) && i < |v.calls|
    ensures i < |Apply(v, s).calls| && CallOk(Apply(v, s), i)
  {
    assert CallOk(v, i);
    if s.Take? {
      TakeCall(v, i);
    } else if Apply(v, s).calls[i] == v.calls[i] {
      assert v.sent <= Apply(v, s).sent && v.spoken <= Apply(v, s).spoken;
      SameCallOk(v, Apply(v, s), i);
    } else if s.Finish? {
      assert v.calls[i].life == Speaking;
    } else {
      OwnCallOk(v, s);
    }
  }

  lemma {:induction false} SameCallOk(v: SpeechView, v': SpeechView, i: nat)
    requires i < |v.calls| && CallOk(v, i) && i < |v'.calls| && v'.calls[i] == v.calls[i]
    requires v.sent <= v'.sent && v.spoken <= v'.spoken && (v'.alive ==> v.alive)
    ensures CallOk(v', i)
  {
    assert v'.sent[..v.calls[i].since] == v.sent[..v.calls[i].since];
  }

  lemma {:induction false} OwnCallOk(v: SpeechView, s: Step)
    requires Enabled(v, s) && (s.Check? || s.Announce? || s.Send? || s.Collect?) && CallOk(v, s.call)
    ensures CallOk(Apply(v, s), s.call)
  {
    var since := v.calls[s.call].since;
    assert Apply(v, s).sent[..since] == v.sent[..since];
  }

  // The worker acknowledges a flush when it has spoken everything ahead of it.
  lemma {:induction false} TakeCall(v: SpeechView, i: nat)
    requires CallsOk(v) && Channel(v) && WorkerOk(v) && InOrder(v) && Enabled(v, Take) && i < |v.calls|
    ensures CallOk(Apply(v, Take), i)
  {
    assert CallOk(v, i);
    FrontOk(v);
    if i == v.queue[0].call {
      SpeechesPrefix(v.sent, v.calls[i].since, v.taken);
    }
  }

  lemma {:induction false} StepSafe(v: SpeechView, s: Step)
    requires Safe(v) && Enabled(v, s)
    ensures Safe(Apply(v, s))
  {
    StepChannel(v, s);
    StepWorker(v, s);
    StepInOrder(v, s);
    StepCalls(v, s);
    StepTallied(v, s);
  }

  /** Every interleaving of speakers, narrators, flushers and the worker, even one that dies, is safe. */
  lemma {:induction false} InterleavingSafe(steps: seq<Step>)
    requires After(steps).Some?
    ensures Safe(After(steps).value)
  {
    if steps != [] {
      InterleavingSafe(steps[..|steps| - 1]);
      StepSafe(After(steps[..|steps| - 1]).value, steps[|steps| - 1]);
    }
  }

  /** The counter is exactly what is announced, queued and being spoken; it never underflows. */
  lemma {:induction false} PendingIsOutstanding(steps: seq<Step>)
    requires After(steps).Some?
    ensures var v := After(steps).value; v.pending == Outstanding(v, false) >= 0
  {
    InterleavingSafe(steps);
  }

  /** What has been spoken is the start of what was sent, in the order it was sent. */
  lemma {:induction false} SpokenInSendOrder(steps: seq<Step>)
    requires After(steps).Some?
    ensures var v := After(steps).value; v.spoken <= Speeches(v.sent)
  {
    InterleavingSafe(steps);
    var v := After(steps).value;
    SpeechesPrefix(v.sent, v.taken, |v.sent|);
    assert v.sent[..|v.sent|] == v.sent;
  }

  /**
   An acknowledged flush means everything sent before the call began has been spoken, even if the worker dies later.
   Only a dead worker releases a flush unacknowledged.
   */
  lemma {:induction false} FlushMeansSpoken(steps: seq<Step>, i: nat)
    requires After(steps).Some? && i < |After(steps).value.calls|
    ensures var v := After(steps).value;
            var c := v.calls[i];
            && c.since <= |v.sent|
            && (c.life in {Acked, Returned} ==> c.op.Flush? && Speeches(v.sent[..c.since]) <= v.spoken)
            && (c.life == Released ==> c.op.Flush? && !v.alive)
  {
    InterleavingSafe(steps);
    assert CallOk(After(steps).value, i);
  }

  // The worker has got as far as the message of call `i`.
  ghost predicate IsTaken(v: SpeechView, i: nat) {
    exists k | 0 <= k < v.taken && k < |v.sent| :: v.sent[k].call == i
  }

  ghost predicate IsSent(v: SpeechView, i: nat) {
    exists k | 0 <= k < |v.sent| :: v.sent[k].call == i
  }

  /** A flush that has come back was acknowledged if the worker got to it, and otherwise the worker died first. */
  lemma {:induction false} FlushReturnsExactly(steps: seq<Step>, i: nat)
    requires After(steps).Some? && i < |After(steps).value.calls|
    requires After(steps).value.calls[i].op.Flush? && After(steps).value.calls[i].life in {Returned, Released}
    ensures var v := After(steps).value;
            (v.calls[i].life == Returned <==> IsTaken(v, i)) && (v.calls[i].life == Released ==> !v.alive)
  {
    InterleavingSafe(steps);
    var v := After(steps).value;
    assert CallOk(v, i);
    if v.calls[i].life == Returned {
      FlushIsSent(steps, i);
      var k :| 0 <= k < |v.sent| && v.sent[k].call == i;
      assert MessageOk(v, k);
    }
    if IsTaken(v, i) {
      var k :| 0 <= k < v.taken && k < |v.sent| && v.sent[k].call == i;
      assert MessageOk(v, k);
    }
  }

  lemma {:induction false} FlushIsSent(steps: seq<Step>, i: nat)
    requires After(steps).Some? && i < |After(steps).value.calls| && After(steps).value.calls[i].op.Flush?
    requires After(steps).value.calls[i].life in {Queued, Acked, Returned}
    ensures IsSent(After(steps).value, i)
  {
    if steps != [] {
      var before, s := steps[..|steps| - 1], steps[|steps| - 1];
      var v := After(before).value;
      InterleavingSafe(before);
      if InTheChannel(v, i) {
        FlushIsSent(before, i);
        StaysSent(v, s, i);
      } else {
        NewlySent(v, s, i);
      }
    }
  }

  predicate InTheChannel(v: SpeechView, i: nat) {
    i < |v.calls| && v.calls[i].op.Flush? && v.calls[i].life in {Queued, Acked, Returned}
  }

  lemma {:induction false} StaysSent(v: SpeechView, s: Step, i: nat)
    requires Enabled(v, s) && IsSent(v, i)
    ensures IsSent(Apply(v, s), i)
  {
    var k :| 0 <= k < |v.sent| && v.sent[k].call == i;
    assert v.sent <= Apply(v, s).sent;
    assert Apply(v, s).sent[k].call == i;
  }

  lemma {:induction false} NewlySent(v: SpeechView, s: Step, i: nat)
    requires Enabled(v, s) && Channel(v) && WorkerOk(v) && InTheChannel(Apply(v, s), i) && !InTheChannel(v, i)
    ensures IsSent(Apply(v, s), i)
  {
    match s {
      case Send(_) => assert Apply(v, s).sent[|v.sent|].call == i;
      case Take =>
        FrontOk(v);
        assert Apply(v, s).sent[v.taken].call == i;
      case _ =>
    }
  }

  /** However many answers are queued, narrations exceed their limit only by those that raced past the check. */
  lemma {:induction false} NarrationsBounded(steps: seq<Step>)
    requires After(steps).Some?
    ensures var v := After(steps).value;
            Outstanding(v, true) <= MAX_QUEUED_NARRATION - 1 + v.mostNarrating
    ensures var v := After(steps).value;
            v.mostNarrating <= 1 ==> Outstanding(v, true) <= MAX_QUEUED_NARRATION
    ensures var v := After(steps).value;
            v.mostNarrating <= 1 && (forall c | c in v.calls :: !c.op.Say?) ==> v.pending <= MAX_QUEUED_NARRATION
  {
    InterleavingSafe(steps);
    var v := After(steps).value;
    if forall c | c in v.calls :: !c.op.Say? {
      OnlyNarrations(v);
    }
  }

  lemma {:induction false} OnlyNarrations(v: SpeechView)
    requires Channel(v) && WorkerOk(v) && forall c | c in v.calls :: !c.op.Say?
    ensures Outstanding(v, true) == Outstanding(v, false)
  {
    OnlyNarrationCalls(v.calls);
    forall m | m in v.queue ensures !m.op.Say? {
      var k :| 0 <= k < |v.queue| && v.queue[k] == m;
      assert MessageOk(v, v.taken + k);
      assert v.calls[m.call] in v.calls;
    }
    OnlyNarrationsQueued(v.queue);
    if !v.worker.Idle? {
      assert MessageOk(v, v.taken - 1);
      assert v.calls[v.worker.message.call] in v.calls;
    }
  }

  lemma {:induction false} OnlyNarrationCalls(calls: seq<Call>)
    requires forall c | c in calls :: !c.op.Say?
    ensures Count(calls, AnnouncedNarration) == Count(calls, AnnouncedSpeech)
  {
    if calls != [] {
      OnlyNarrationCalls(calls[..|calls| - 1]);
      assert calls[|calls| - 1] in calls;
    }
  }

  lemma {:induction false} OnlyNarrationsQueued(queue: seq<Message>)
    requires forall m | m in queue :: !m.op.Say?
    ensures CountQueued(queue, true) == CountQueued(queue, false)
  {
    if queue != [] {
      OnlyNarrationsQueued(queue[1..]);
      assert queue[0] in queue;
    }
  }

  /** When `is_speaking` is false, everything ever sent has been spoken and nothing is on its way. */
  lemma {:induction false} QuietMeansSpoken(steps: seq<Step>)
    requires After(steps).Some? && After(steps).value.pending <= 0
    ensures var v := After(steps).value;
            v.alive && v.spoken == Speeches(v.sent) && Count(v.calls, AnnouncedSpeech) == 0
  {
    InterleavingSafe(steps);
    var v := After(steps).value;
    NothingQueued(v.sent, v.taken);
    assert v.sent[..|v.sent|] == v.sent;
  }

  lemma {:induction false} NothingQueued(sent: seq<Message>, k: nat)
    requires k <= |sent| && CountQueued(sent[k..], false) == 0
    ensures Speeches(sent[..k]) == Speeches(sent[..|sent|])
    decreases |sent| - k
  {
    if k < |sent| {
      assert sent[k..][1..] == sent[k + 1..];
      assert sent[..k + 1][..k] == sent[..k];
      NothingQueued(sent, k + 1);
    }
  }

  /** A worker that dies while speaking leaves `is_speaking` true for good. */
  lemma {:induction false} DeadWorkerNeverQuiet(steps: seq<Step>)
    requires After(steps).Some? && !After(steps).value.alive
    ensures After(steps).value.pending > 0
  {
    InterleavingSafe(steps);
  }

  /** An answer is never dropped by the check, and is lost only to a dead worker. */
  lemma {:induction false} AnswersNeverDropped(steps: seq<Step>, i: nat)
    requires After(steps).Some? && i < |After(steps).value.calls| && After(steps).value.calls[i].op.Say?
    ensures After(steps).value.calls[i].life != Dropped
    ensures After(steps).value.calls[i].life == Lost ==> !After(steps).value.alive
  {
    InterleavingSafe(steps);
    assert CallOk(After(steps).value, i);
  }

  // ----- The queue itself, as its callers and its worker use it.

  class AsyncSpeech {
    var pending: int
    var queue: seq<Message>
    // Where the worker and every caller stand.
    var worker: Worker
    var alive: bool
    var calls: seq<Call>
    ghost var mostNarrating: nat
    // Kept so that a call can note how much was sent before it.
    var sent: seq<Message>
    ghost var taken: nat
    ghost var spoken: seq<Message>
    // Every atomic step taken so far, by any thread.
    ghost var trace: seq<Step>

    ghost function View(): SpeechView
      reads this
    {
      SpeechView(pending, queue, worker, alive, calls, mostNarrating, sent, taken, spoken)
    }

    /** The object is in the state its recorded interleaving leads to. */
    ghost predicate Valid()
      reads this
    {
      After(trace) == Some(View())
    }

    constructor ()
      ensures Valid() && View() == Start()
    {
      pending, queue, worker, alive, calls := 0, [], Idle, true, [];
      mostNarrating, sent, taken, spoken, trace := 0, [], 0, [], [];
    }

    ghost method Record(s: Step, before: SpeechView)
      requires After(trace) == Some(before) && Enabled(before, s) && View() == Apply(before, s)
      modifies this`trace
      ensures Valid() && trace == old(trace) + [s]
    {
      assert (trace + [s])[..|trace|] == trace;
      trace := trace + [s];
    }

    method NewCall(op: Op) returns (i: nat)
      requires Valid()
      modifies this
      ensures Valid() && trace == old(trace) + [Begin(op)]
      ensures View() == Apply(old(View()), Begin(op)) && i == |old(calls)|
    {
      ghost var before := View();
      i := |calls|;
      calls := calls + [Call(op, if op.Narrate? then Checking else Ready, |sent|)];
      ghost var narrating := Count(calls, ActiveNarration);
      mostNarrating := if narrating > mostNarrating then narrating else mostNarrating;
      Record(Begin(op), before);
    }

    // `pending.load()`, and the narration's decision.
    method CheckRoom(i: nat) returns (room: bool)
      requires Valid() && Enabled(View(), Check(i))
      modifies this
      ensures Valid() && trace == old(trace) + [Check(i)] && View() == Apply(old(View()), Check(i))
      ensures room <==> old(pending) < MAX_QUEUED_NARRATION
    {
      ghost var before := View();
      room := pending < MAX_QUEUED_NARRATION;
      calls := calls[i := calls[i].(life := if room then Ready else Dropped)];
      Record(Check(i), before);
    }

    // `pending.fetch_add(1)`.
    method CountIn(i: nat)
      requires Valid() && Enabled(View(), Announce(i))
      modifies this
      ensures Valid() && trace == old(trace) + [Announce(i)] && View() == Apply(old(View()), Announce(i))
    {
      ghost var before := View();
      calls := calls[i := calls[i].(life := Announced)];
      pending := pending + 1;
      Record(Announce(i), before);
    }

    // `sender.send(..)`, undoing the announcement when the worker is gone.
    method SendMessage(i: nat) returns (accepted: bool)
      requires Valid() && Enabled(View(), Send(i))
      modifies this
      ensures Valid() && trace == old(trace) + [Send(i)] && View() == Apply(old(View()), Send(i))
      ensures accepted == alive == old(alive)
    {
      ghost var before := View();
      var m := Message(i, calls[i].op);
      accepted := alive;
      if alive {
        queue, sent := queue + [m], sent + [m];
        calls := calls[i := calls[i].(life := Queued)];
      } else if m.op.Flush? {
        calls := calls[i := calls[i].(life := Released)];
      } else {
        calls := calls[i := calls[i].(life := Lost)];
        pending := pending - 1;
      }
      Record(Send(i), before);
    }

    // `ack_rx.recv()`: the acknowledgement, or the channel closing.
    method ReceiveAck(i: nat)
      requires Valid() && Enabled(View(), Collect(i))
      modifies this
      ensures Valid() && trace == old(trace) + [Collect(i)] && View() == Apply(old(View()), Collect(i))
    {
      ghost var before := View();
      calls := calls[i := calls[i].(life := if calls[i].life == Acked then Returned else Released)];
      Record(Collect(i), before);
    }

    /** One turn of the worker: takes a message, finishes speaking it, counts it out, or dies speaking it. */
    method WorkerTurn()
      requires Valid() && alive && (queue != [] || !worker.Idle?)
      modifies this
      ensures Valid() && exists s :: Enabled(old(View()), s) && IsTurn(s) &&
                                     trace == old(trace) + [s] && View() == Apply(old(View()), s)
    {
      InterleavingSafe(trace);
      ghost var before := View();
      match worker {
        case Idle =>
          TakeFront();
        case Busy(m) =>
          SpeakOrDie();
        case Winding(m) =>
          worker, pending := Idle, pending - 1;
          calls := calls[m.call := calls[m.call].(life := Heard)];
          Record(Finish, before);
      }
    }

    // The backend speaks the message, or takes the worker down with it.
    method SpeakOrDie()
      requires Valid() && alive && worker.Busy?
      modifies this
      ensures Valid() && exists s :: Enabled(old(View()), s) && IsTurn(s) &&
                                     trace == old(trace) + [s] && View() == Apply(old(View()), s)
    {
      ghost var before := View();
      var survives: bool := *;
      if survives {
        worker, spoken := Winding(worker.message), spoken + [worker.message];
        Record(Spoke, before);
      } else {
        alive := false;
        Record(Panic, before);
      }
    }

    method TakeFront()
      requires Valid() && Enabled(View(), Take)
      modifies this
      ensures Valid() && trace == old(trace) + [Take] && View() == Apply(old(View()), Take)
    {
      ghost var before := View();
      InterleavingSafe(trace);
      FrontOk(View());
      var m := queue[0];
      queue, taken := queue[1..], taken + 1;
      if m.op.Flush? {
        calls := calls[m.call := calls[m.call].(life := Acked)];
      } else {
        worker := Busy(m);
        calls := calls[m.call := calls[m.call].(life := Speaking)];
      }
      Record(Take, before);
    }
  
    // ----- Other threads, while one caller stands still.

    // Whatever another caller can do next.
    method OtherCallerStep(i: nat)
      requires Valid() && i < |calls|
      modifies this
      ensures Valid() && old(trace) <= trace && i < |calls| && calls[i] == old(calls[i])
      ensures old(sent) <= sent && taken == old(taken) && worker == old(worker) && alive == old(alive)
    {
      var j: int := *;
      if !(0 <= j < |calls|) || j == i {
        var op: Op := *;
        var _ := NewCall(op);
      } else {
        match calls[j].life {
          case Checking =>
            var _ := CheckRoom(j);
          case Ready =>
            if calls[j].op.Flush? {
              var _ := SendMessage(j);
            } else {
              CountIn(j);
            }
          case Announced =>
            AnnouncedIsSpeech(j);
            var _ := SendMessage(j);
          case Acked => AckedIsFlush(j); ReceiveAck(j);
          case _ =>
        }
      }
    }

    lemma {:induction false} AnnouncedIsSpeech(j: nat)
      requires Valid() && j < |calls| && calls[j].life == Announced
      ensures !calls[j].op.Flush?
    {
      InterleavingSafe(trace);
      assert CallOk(View(), j);
    }

    lemma {:induction false} AckedIsFlush(j: nat)
      requires Valid() && j < |calls| && calls[j].life == Acked
      ensures calls[j].op.Flush?
    {
      InterleavingSafe(trace);
      assert CallOk(View(), j);
    }

    method OtherCallersRun(i: nat)
      requires Valid() && i < |calls|
      modifies this
      ensures Valid() && old(trace) <= trace && i < |calls| && calls[i] == old(calls[i])
      ensures old(sent) <= sent && taken == old(taken) && worker == old(worker) && alive == old(alive)
    {
      var steps: int := *;
      while steps > 0
        invariant Valid() && old(trace) <= trace && i < |calls| && calls[i] == old(calls[i])
        invariant old(sent) <= sent && taken == old(taken) && worker == old(worker) && alive == old(alive)
      {
        steps := steps - 1;
        OtherCallerStep(i);
      }
    }

    // A worker turn leaves alone a call whose message it does not hold.
    method WorkerMayTurn(i: nat)
      requires Valid() && i < |calls| && IsUnsent(calls[i].life)
      modifies this
      ensures Valid() && old(trace) <= trace && i < |calls| && calls[i] == old(calls[i]) && sent == old(sent)
    {
      if alive && (queue != [] || !worker.Idle?) {
        InterleavingSafe(trace);
        ghost var before := View();
        UnsentUntouched(before, i);
        WorkerTurn();
        assert (trace)[..|old(trace)|] == old(trace);
      }
    }

    // Everyone else, the worker included, while call `i` has nothing in the channel.
    method OthersRun(i: nat)
      requires Valid() && i < |calls| && IsUnsent(calls[i].life)
      modifies this
      ensures Valid() && old(trace) <= trace && i < |calls| && calls[i] == old(calls[i]) && old(sent) <= sent
    {
      var steps: int := *;
      while steps > 0
        invariant Valid() && old(trace) <= trace && i < |calls| && calls[i] == old(calls[i]) && old(sent) <= sent
      {
        steps := steps - 1;
        if * {
          WorkerMayTurn(i);
        } else {
          OtherCallersRun(i);
        }
      }
    }

    // ----- What callers see.

    method Enqueue(i: nat) returns (accepted: bool)
      requires Valid() && i < |calls| && calls[i].life == Ready && !calls[i].op.Flush?
      modifies this
      ensures Valid() && old(trace) <= trace && i < |calls|
      ensures calls[i] == old(calls[i]).(life := if accepted then Queued else Lost) && accepted == alive
      ensures old(sent) <= sent && (accepted ==> |sent| > |old(sent)| && sent[|sent| - 1] == Message(i, calls[i].op))
    {
      CountIn(i);
      OthersRun(i);
      accepted := SendMessage(i);
    }

    /** Queued behind everything sent so far; refused only by a dead worker. */
    method Say(text: string) returns (accepted: bool, ghost call: nat)
      requires Valid()
      modifies this
      ensures Valid() && old(trace) <= trace && call < |calls| && accepted == alive
      ensures calls[call].op == Op.Say(text) && calls[call].life == (if accepted then Queued else Lost)
      ensures old(sent) <= sent
      ensures accepted ==> |sent| > |old(sent)| && sent[|sent| - 1] == Message(call, Op.Say(text))
    {
      var i := NewCall(Op.Say(text));
      call := i;
      OthersRun(i);
      accepted := Enqueue(i);
    }

    /** Dropped when two messages or more are on their way at the check, and otherwise queued behind everything sent. */
    method SayNarration(text: string) returns (ghost call: nat)
      requires Valid()
      modifies this
      ensures Valid() && old(trace) <= trace && old(sent) <= sent && call < |calls| && calls[call].op == Narrate(text)
      ensures calls[call].life == Dropped || calls[call].life == Queued || (calls[call].life == Lost && !alive)
      ensures calls[call].life == Queued ==> |sent| > |old(sent)| && sent[|sent| - 1] == Message(call, Narrate(text))
    {
      var i := NewCall(Narrate(text));
      call := i;
      OthersRun(i);
      NarrateFrom(i);
    }

    method NarrateFrom(i: nat)
      requires Valid() && i < |calls| && calls[i].op.Narrate? && calls[i].life == Checking
      modifies this
      ensures Valid() && old(trace) <= trace && old(sent) <= sent && i < |calls| && calls[i].op == old(calls[i].op)
      ensures calls[i].life
              == if old(pending) >= MAX_QUEUED_NARRATION then Dropped else if alive then Queued else Lost
      ensures calls[i].life == Queued ==> |sent| > |old(sent)| && sent[|sent| - 1] == Message(i, calls[i].op)
    {
      var room := LookForRoom(i);
      if room {
        OthersRun(i);
        var _ := Enqueue(i);
      }
    }

    method LookForRoom(i: nat) returns (room: bool)
      requires Valid() && i < |calls| && calls[i].life == Checking
      modifies this
      ensures Valid() && old(trace) <= trace && sent == old(sent) && i < |calls|
      ensures calls[i] == old(calls[i]).(life := if room then Ready else Dropped)
      ensures room <==> old(pending) < MAX_QUEUED_NARRATION
    {
      room := CheckRoom(i);
    }

    method IsSpeaking() returns (speaking: bool)
      requires Valid()
      ensures speaking <==> Outstanding(View(), false) > 0
      ensures !speaking ==> spoken == Speeches(sent)
    {
      PendingIsOutstanding(trace);
      speaking := pending > 0;
      if !speaking {
        QuietMeansSpoken(trace);
      }
    }

    /** Blocks until acknowledged or the worker dies; alive, everything sent before the call has been spoken. */
    method Flush() returns (ghost call: nat)
      requires Valid()
      modifies this
      ensures Valid() && old(trace) <= trace && call < |calls| && calls[call].op.Flush?
      ensures (calls[call].life == Returned && Speeches(old(sent)) <= spoken)
              || (calls[call].life == Released && !alive)
    {
      var i := NewCall(Op.Flush);
      call := i;
      ghost var start := sent;
      OthersRun(i);
      var accepted := SendFlush(i);
      if accepted {
        AwaitAck(i);
      }
      FlushedSince(i, start);
    }

    method SendFlush(i: nat) returns (accepted: bool)
      requires Valid() && i < |calls| && calls[i].op.Flush? && calls[i].life == Ready
      modifies this
      ensures Valid() && old(trace) <= trace && old(sent) <= sent && i < |calls| && accepted == alive
      ensures calls[i] == old(calls[i]).(life := if accepted then Queued else Released)
      ensures accepted ==> taken < |sent| && sent[|sent| - 1] == Message(i, Op.Flush)
    {
      InterleavingSafe(trace);
      accepted := SendMessage(i);
    }

    lemma {:induction false} FlushedSince(i: nat, start: seq<Message>)
      requires Valid() && i < |calls| && calls[i].op.Flush? && (calls[i].life == Returned || calls[i].life == Released)
      requires start <= sent && calls[i].since == |start|
      ensures calls[i].life == Returned ==> Speeches(start) <= spoken
      ensures calls[i].life == Released ==> !alive
    {
      FlushMeansSpoken(trace, i);
      InterleavingSafe(trace);
      assert CallOk(View(), i);
      assert sent[..|start|] == start;
    }

    // The worker comes one turn closer to the flush each time round, however many callers queue behind it.
    method AwaitAck(i: nat)
      requires Valid() && i < |calls| && calls[i].op.Flush? && calls[i].life == Queued && alive
      requires sent != [] && sent[|sent| - 1] == Message(i, Op.Flush) && taken < |sent|
      modifies this
      ensures Valid() && old(trace) <= trace && old(sent) <= sent && i < |calls|
      ensures calls[i].op == old(calls[i].op) && calls[i].since == old(calls[i].since)
      ensures calls[i].life == Returned || calls[i].life == Released
    {
      ghost var k := |sent| - 1;
      while alive && calls[i].life == Queued
        invariant Valid() && old(trace) <= trace && old(sent) <= sent && i < |calls|
        invariant calls[i].op == old(calls[i].op) && calls[i].since == old(calls[i].since)
        invariant calls[i].life == Queued || calls[i].life == Acked
        invariant calls[i].life == Queued ==> taken <= k
        decreases alive, k - taken, Phase(worker)
      {
        OtherCallersRun(i);
        TurnBeforeAck(i, k);
      }
      ReceiveAck(i);
    }

    method TurnBeforeAck(i: nat, ghost k: nat)
      requires Valid() && i < |calls| && calls[i].op.Flush? && calls[i].life == Queued && alive
      requires taken <= k < |sent| && sent[k] == Message(i, Op.Flush)
      modifies this
      ensures Valid() && old(trace) <= trace && sent == old(sent) && i < |calls|
      ensures calls[i].op == old(calls[i].op) && calls[i].since == old(calls[i].since)
      ensures calls[i].life == Acked || (calls[i].life == Queued && taken <= k)
      ensures !alive || taken > old(taken) || (taken == old(taken) && Phase(worker) < Phase(old(worker)))
    {
      InterleavingSafe(trace);
      ghost var before := View();
      TurnTowardsAck(before, i, k);
      WorkerTurn();
    }
  }
}
