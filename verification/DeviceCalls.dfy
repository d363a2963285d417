/**
 Request/response correlation with a remote device. Any number of `invoke` calls on clones share one waiter table
 and one request counter with the connection's reading thread; every shared access is one atomic step.
 */
module DeviceCalls {
  import opened Wrappers

  datatype ErrorCode = NotFound | InvalidArguments | Failed | Timeout
  datatype Outcome = Ok(text: string, mutated: bool) | Err(code: ErrorCode, message: string)

  /** How an `invoke` ended: with an outcome that reached its channel, or with one of its own two errors. */
  datatype Ending = FromDevice(outcome: Outcome) | SendFailed | TimedOut

  datatype Progress = Registering | Sending | Waiting | Abandoning(ending: Ending) | Done(ending: Ending)

  /** One `invoke`, and the receiving end of its channel. */
  datatype Call = Call(requestId: string, progress: Progress, mailbox: Option<Outcome>)

  datatype Delivery = Delivery(requestId: string, outcome: Outcome)

  datatype DeviceView = DeviceView(
    nextRequestId: nat, waiters: map<string, nat>, calls: seq<Call>,
    // Everything the reading thread was ever told to deliver.
    delivered: seq<Delivery>)

  datatype Step =
    | Allocate
    | Register(call: nat) | SendOk(call: nat) | SendFails(call: nat)
    | Receive(call: nat) | GiveUp(call: nat) | Unregister(call: nat)
    | Deliver(requestId: string, outcome: Outcome)

  function Start(): DeviceView {
    DeviceView(0, map[], [], [])
  }

  // `u64::to_string`.
  function Decimal(n: nat): string {
    if n < 10 then [Digit(n)] else Decimal(n / 10) + [Digit(n % 10)]
  }

  function Digit(d: nat): char
    requires d < 10
  {
    '0' + d as char
  }

  function ParseDecimal(s: string): int {
    if s == [] then 0 else 10 * ParseDecimal(s[..|s| - 1]) + (s[|s| - 1] as int - '0' as int)
  }

  lemma {:induction false} DecimalParses(n: nat)
    ensures ParseDecimal(Decimal(n)) == n
  {
    if n >= 10 {
      DecimalParses(n / 10);
      assert Decimal(n)[..|Decimal(n)| - 1] == Decimal(n / 10);
    } else {
      assert Decimal(n)[..0] == [];
    }
  }

  lemma {:induction false} DecimalInjective(m: nat, n: nat)
    requires Decimal(m) == Decimal(n)
    ensures m == n
  {
    DecimalParses(m);
    DecimalParses(n);
  }

  predicate Enabled(v: DeviceView, s: Step) {
    match s
    case Allocate => true
    case Register(i) => i < |v.calls| && v.calls[i].progress == Registering
    case SendOk(i) => i < |v.calls| && v.calls[i].progress == Sending
    case SendFails(i) => i < |v.calls| && v.calls[i].progress == Sending
    case Receive(i) => i < |v.calls| && v.calls[i].progress == Waiting && v.calls[i].mailbox.Some?
    case GiveUp(i) => i < |v.calls| && v.calls[i].progress == Waiting && v.calls[i].mailbox.None?
    case Unregister(i) => i < |v.calls| && v.calls[i].progress.Abandoning?
    case Deliver(_, _) => true
  }

  function Apply(v: DeviceView, s: Step): DeviceView
    requires Enabled(v, s)
  {
    match s
    case Allocate =>
      v.(nextRequestId := v.nextRequestId + 1,
         calls := v.calls + [Call(Decimal(v.nextRequestId), Registering, None)])
    case Register(i) =>
      Moved(v, i, Sending).(waiters := v.waiters[v.calls[i].requestId := i])
    case SendOk(i) => Moved(v, i, Waiting)
    case SendFails(i) => Moved(v, i, Abandoning(SendFailed))
    case Receive(i) => Moved(v, i, Done(FromDevice(v.calls[i].mailbox.value)))
    case GiveUp(i) => Moved(v, i, Abandoning(TimedOut))
    case Unregister(i) =>
      Moved(v, i, Done(v.calls[i].progress.ending)).(waiters := v.waiters - {v.calls[i].requestId})
    case Deliver(id, outcome) => Delivered(v, id, outcome).(delivered := v.delivered + [Delivery(id, outcome)])
  }

  function Moved(v: DeviceView, i: nat, p: Progress): DeviceView
    requires i < |v.calls|
  {
    v.(calls := v.calls[i := v.calls[i].(progress := p)])
  }

  // `Pending::deliver`: hands the outcome to the waiter and forgets it; anything else is dropped.
  function Delivered(v: DeviceView, id: string, outcome: Outcome): DeviceView {
    if id in v.waiters && v.waiters[id] < |v.calls| then
      var i := v.waiters[id];
      v.(waiters := v.waiters - {id}, calls := v.calls[i := v.calls[i].(mailbox := Some(outcome))])
    else v
  }

  function After(steps: seq<Step>): Option<DeviceView> {
    if steps == [] then Some(Start())
    else
      var before := After(steps[..|steps| - 1]);
      var s := steps[|steps| - 1];
      if before.Some? && Enabled(before.value, s) then Some(Apply(before.value, s)) else None
  }

  // ----- What holds in every interleaving.

  predicate IsLive(p: Progress) {
    p == Sending || p == Waiting || p.Abandoning?
  }

  ghost predicate WasDelivered(v: DeviceView, id: string, outcome: Outcome) {
    Delivery(id, outcome) in v.delivered
  }

  ghost predicate CallSafe(v: DeviceView, i: nat)
    requires i < |v.calls|
  {
    var c := v.calls[i];
    var registered := c.requestId in v.waiters && v.waiters[c.requestId] == i;
    && c.requestId == Decimal(i)
    // A live call can always be reached or has been; nobody else holds its slot.
    && (c.requestId in v.waiters <==> registered)
    && (registered ==> IsLive(c.progress) && c.mailbox.None?)
    && (IsLive(c.progress) ==> registered || c.mailbox.Some?)
    && (c.progress == Registering ==> c.mailbox.None?)
    && (c.mailbox.Some? ==> WasDelivered(v, c.requestId, c.mailbox.value))
    && (c.progress.Done? && c.progress.ending.FromDevice? ==> c.mailbox == Some(c.progress.ending.outcome))
    && (c.progress.Abandoning? ==> !c.progress.ending.FromDevice?)
  }

  ghost predicate Safe(v: DeviceView) {
    && v.nextRequestId == |v.calls|
    && (forall i | 0 <= i < |v.calls| :: CallSafe(v, i))
    && (forall id | id in v.waiters :: v.waiters[id] < |v.calls| && v.calls[v.waiters[id]].requestId == id)
  }

  lemma {:induction false} OtherCallSafe(v: DeviceView, v': DeviceView, i: nat)
    requires i < |v.calls| && i < |v'.calls| && CallSafe(v, i) && v'.calls[i] == v.calls[i]
    requires forall d | d in v.delivered :: d in v'.delivered
    requires var id := v.calls[i].requestId;
             (id in v.waiters <==> id in v'.waiters) && (id in v.waiters ==> v'.waiters[id] == v.waiters[id])
    ensures CallSafe(v', i)
  {
  }

  lemma {:induction false} StepSafe(v: DeviceView, s: Step)
    requires Safe(v) && Enabled(v, s)
    ensures Safe(Apply(v, s))
  {
    var v' := Apply(v, s);
    forall i | 0 <= i < |v'.calls| ensures CallSafe(v', i) {
      StepCallSafe(v, s, i);
    }
  }

  predicate IsCallStep(s: Step) {
    !s.Allocate? && !s.Deliver?
  }

  lemma {:induction false} StepCallSafe(v: DeviceView, s: Step, i: nat)
    requires Safe(v) && Enabled(v, s) && i < |Apply(v, s).calls|
    ensures CallSafe(Apply(v, s), i)
  {
    if i >= |v.calls| {
      NewCallSafe(v);
    } else if s.Allocate? {
      OtherCallSafe(v, Apply(v, s), i);
    } else if s.Deliver? {
      DeliverCallSafe(v, s.requestId, s.outcome, i);
    } else if s.call == i {
      OwnCallSafe(v, s);
    } else {
      OtherIdDiffers(v, i, s.call);
      OtherCallSafe(v, Apply(v, s), i);
    }
  }

  lemma {:induction false} OtherIdDiffers(v: DeviceView, i: nat, j: nat)
    requires Safe(v) && i < |v.calls| && j < |v.calls| && i != j
    ensures v.calls[i].requestId != v.calls[j].requestId
  {
    assert CallSafe(v, i) && CallSafe(v, j);
    if Decimal(i) == Decimal(j) {
      DecimalInjective(i, j);
    }
  }

  lemma {:induction false} NewCallSafe(v: DeviceView)
    requires Safe(v)
    ensures CallSafe(Apply(v, Allocate), |v.calls|)
  {
    var id := Decimal(|v.calls|);
    if id in v.waiters {
      var k := v.waiters[id];
      assert CallSafe(v, k);
      DecimalInjective(|v.calls|, k);
    }
  }

  lemma {:induction false} DeliverCallSafe(v: DeviceView, id: string, outcome: Outcome, i: nat)
    requires Safe(v) && i < |v.calls|
    ensures CallSafe(Apply(v, Deliver(id, outcome)), i)
  {
    var v' := Apply(v, Deliver(id, outcome));
    assert CallSafe(v, i);
    assert Delivery(id, outcome) in v'.delivered;
    if id in v.waiters && v.waiters[id] != i {
      OtherIdDiffers(v, i, v.waiters[id]);
    }
    if id !in v.waiters || v.calls[i].requestId != id {
      OtherCallSafe(v, v', i);
    }
  }

  lemma {:induction false} OwnCallSafe(v: DeviceView, s: Step)
    requires Safe(v) && Enabled(v, s) && IsCallStep(s)
    ensures CallSafe(Apply(v, s), s.call)
  {
    assert CallSafe(v, s.call);
  }

  /** Every interleaving of invokes, deliveries, send failures and timeouts is safe. */
  lemma {:induction false} InterleavingSafe(steps: seq<Step>)
    requires After(steps).Some?
    ensures Safe(After(steps).value)
  {
    if steps != [] {
      InterleavingSafe(steps[..|steps| - 1]);
      StepSafe(After(steps[..|steps| - 1]).value, steps[|steps| - 1]);
    }
  }

  /** A finished invoke returns an outcome delivered under its own id, or one of its own two errors. */
  lemma {:induction false} ReturnsItsOwnOutcome(steps: seq<Step>, i: nat)
    requires After(steps).Some? && i < |After(steps).value.calls|
    requires After(steps).value.calls[i].progress.Done?
    ensures var v := After(steps).value;
            var ending := v.calls[i].progress.ending;
            ending == SendFailed || ending == TimedOut ||
            (ending.FromDevice? && WasDelivered(v, v.calls[i].requestId, ending.outcome))
  {
    InterleavingSafe(steps);
    assert CallSafe(After(steps).value, i);
  }

  /** No two invokes ever share a request id, finished ones included. */
  lemma {:induction false} RequestIdsUnique(steps: seq<Step>, i: nat, j: nat)
    requires After(steps).Some? && i < |After(steps).value.calls| && j < |After(steps).value.calls|
    ensures After(steps).value.calls[i].requestId == After(steps).value.calls[j].requestId <==> i == j
  {
    InterleavingSafe(steps);
    var v := After(steps).value;
    assert CallSafe(v, i) && CallSafe(v, j);
    if Decimal(i) == Decimal(j) {
      DecimalInjective(i, j);
    }
  }

  /** The waiter table is empty whenever no invoke is in progress. */
  lemma {:induction false} QuietTableEmpty(steps: seq<Step>)
    requires After(steps).Some?
    requires forall i | 0 <= i < |After(steps).value.calls| :: After(steps).value.calls[i].progress.Done?
    ensures After(steps).value.waiters == map[]
  {
    InterleavingSafe(steps);
    var v := After(steps).value;
    forall id ensures id !in v.waiters {
      if id in v.waiters {
        WaiterIsLive(v, id);
      }
    }
  }

  lemma {:induction false} WaiterIsLive(v: DeviceView, id: string)
    requires Safe(v) && id in v.waiters
    ensures v.waiters[id] < |v.calls| && IsLive(v.calls[v.waiters[id]].progress)
  {
    assert CallSafe(v, v.waiters[id]);
  }

  /** A waiting call with nothing in its channel is in the table: its sender is never dropped unused. */
  lemma {:induction false} WaiterNeverDisconnected(steps: seq<Step>, i: nat)
    requires After(steps).Some? && i < |After(steps).value.calls|
    ensures var v := After(steps).value;
            v.calls[i].progress == Waiting && v.calls[i].mailbox.None? ==>
              v.calls[i].requestId in v.waiters && v.waiters[v.calls[i].requestId] == i
  {
    InterleavingSafe(steps);
    assert CallSafe(After(steps).value, i);
  }

  /** A delivery touches at most the live call registered under its id; late, duplicate and unknown ids touch none. */
  lemma {:induction false} DeliveryTouchesOneCall(steps: seq<Step>, id: string, outcome: Outcome, i: nat)
    requires After(steps).Some? && i < |After(steps).value.calls|
    ensures var v := After(steps).value;
            var v' := Apply(v, Deliver(id, outcome));
            && |v'.calls| == |v.calls|
            && (v.calls[i].requestId != id || id !in v.waiters || !IsLive(v.calls[i].progress) ==>
                      v'.calls[i] == v.calls[i])
            && (id !in v.waiters ==> v'.waiters == v.waiters)
            && (v.calls[i].requestId == id && id in v.waiters ==>
                  v.calls[i].mailbox.None? && v'.calls[i] == v.calls[i].(mailbox := Some(outcome)) && id !in v'.waiters)
  {
    InterleavingSafe(steps);
    assert CallSafe(After(steps).value, i);
  }

  /** The first outcome to reach a call is the one it keeps, whatever arrives later. */
  lemma {:induction false} FirstOutcomeSticks(steps: seq<Step>, s: Step, i: nat)
    requires After(steps).Some? && Enabled(After(steps).value, s) && i < |After(steps).value.calls|
    requires After(steps).value.calls[i].mailbox.Some?
    ensures Apply(After(steps).value, s).calls[i].mailbox == After(steps).value.calls[i].mailbox
  {
    InterleavingSafe(steps);
    assert CallSafe(After(steps).value, i);
  }

  // ----- The device handle.

  class WsDevice {
    var nextRequestId: nat
    var waiters: map<string, nat>
    // Each invoke's thread position and channel.
    var calls: seq<Call>
    ghost var delivered: seq<Delivery>
    // Every atomic step taken so far, by any thread.
    ghost var trace: seq<Step>

    ghost function View(): DeviceView
      reads this
    {
      DeviceView(nextRequestId, waiters, calls, delivered)
    }

    /** The object is in the state its recorded interleaving leads to. */
    ghost predicate Valid()
      reads this
    {
      After(trace) == Some(View())
    }

    constructor ()
      ensures Valid() && View() == Start()
    {
      nextRequestId, waiters, calls, delivered, trace := 0, map[], [], [], [];
    }

    ghost method Record(s: Step, before: DeviceView)
      requires After(trace) == Some(before) && Enabled(before, s) && View() == Apply(before, s)
      modifies this`trace
      ensures Valid() && trace == old(trace) + [s]
    {
      assert (trace + [s])[..|trace|] == trace;
      trace := trace + [s];
    }

    /** Called by the reading thread with whatever arrives on the wire. */
    method DeliverResult(requestId: string, outcome: Outcome)
      requires Valid()
      modifies this
      ensures Valid() && trace == old(trace) + [Deliver(requestId, outcome)]
      ensures View() == Apply(old(View()), Deliver(requestId, outcome))
    {
      ghost var before := View();
      delivered := delivered + [Delivery(requestId, outcome)];
      if requestId in waiters {
        InterleavingSafe(trace);
        var i := waiters[requestId];
        waiters := waiters - {requestId};
        calls := calls[i := calls[i].(mailbox := Some(outcome))];
      }
      Record(Deliver(requestId, outcome), before);
    }

    /** Any number of steps of the reading thread and of every other invoke: call `i` stays where it is. */
    method OthersRun(i: nat)
      requires Valid() && i < |calls|
      modifies this
      ensures Valid() && old(trace) <= trace && |old(calls)| <= |calls|
      ensures calls[i].progress == old(calls[i].progress)
      ensures old(calls[i].mailbox.Some?) ==> calls[i].mailbox == old(calls[i].mailbox)
    {
      var steps: int := *;
      while steps > 0
        invariant Valid() && old(trace) <= trace && |old(calls)| <= |calls|
        invariant calls[i].progress == old(calls[i].progress)
        invariant old(calls[i].mailbox.Some?) ==> calls[i].mailbox == old(calls[i].mailbox)
      {
        steps := steps - 1;
        OtherStep(i);
      }
    }

    method OtherStep(i: nat)
      requires Valid() && i < |calls|
      modifies this
      ensures Valid() && old(trace) <= trace && |old(calls)| <= |calls|
      ensures calls[i].progress == old(calls[i].progress)
      ensures old(calls[i].mailbox.Some?) ==> calls[i].mailbox == old(calls[i].mailbox)
    {
      if * {
        var requestId: string, outcome: Outcome := *, *;
        FirstOutcomeSticksHere(Deliver(requestId, outcome), i);
        DeliverResult(requestId, outcome);
      } else if * {
        var _ := NewCall();
      } else {
        var j: int := *;
        if 0 <= j < |calls| && j != i {
          OtherCallStep(j);
        }
      }
    }

    lemma {:induction false} FirstOutcomeSticksHere(s: Step, i: nat)
      requires Valid() && Enabled(View(), s) && i < |calls|
      ensures calls[i].mailbox.Some? ==> Apply(View(), s).calls[i].mailbox == calls[i].mailbox
    {
      if calls[i].mailbox.Some? {
        FirstOutcomeSticks(trace, s, i);
      }
    }

    // Whatever invoke `j` can do next.
    method OtherCallStep(j: nat)
      requires Valid() && j < |calls|
      modifies this
      ensures Valid() && old(trace) <= trace && |calls| == |old(calls)|
      ensures forall i | 0 <= i < |calls| && i != j :: calls[i] == old(calls[i])
    {
      match calls[j].progress {
        case Registering => Move(j, Register(j), Sending);
        case Sending =>
          var sent: bool := *;
          if sent {
            Move(j, SendOk(j), Waiting);
          } else {
            Move(j, SendFails(j), Abandoning(SendFailed));
          }
        case Waiting =>
          match calls[j].mailbox {
            case Some(outcome) => Move(j, Receive(j), Done(FromDevice(outcome)));
            case None => Move(j, GiveUp(j), Abandoning(TimedOut));
          }
        case Abandoning(ending) => Move(j, Unregister(j), Done(ending));
        case Done(_) =>
      }
    }

    // `fetch_add` on the shared counter, and a fresh channel.
    method NewCall() returns (i: nat)
      requires Valid()
      modifies this
      ensures Valid() && trace == old(trace) + [Allocate]
      ensures View() == Apply(old(View()), Allocate) && i == |old(calls)|
    {
      ghost var before := View();
      i := |calls|;
      calls := calls + [Call(Decimal(nextRequestId), Registering, None)];
      nextRequestId := nextRequestId + 1;
      Record(Allocate, before);
    }

    /** Sends one request and blocks until its own result, a send failure or the timeout. */
    method Invoke() returns (ending: Ending, ghost call: nat)
      requires Valid()
      modifies this
      ensures Valid() && old(trace) <= trace && call < |calls|
      ensures calls[call].requestId == Decimal(call) && Decimal(call) !in waiters
      ensures calls[call].progress == Done(ending)
      ensures ending.FromDevice? ==> Delivery(Decimal(call), ending.outcome) in delivered
    {
      var i := Enlist();
      call := i;
      var sent: bool := *;
      if !sent {
        Move(i, SendFails(i), Abandoning(SendFailed));
        ending := Abandon(i, SendFailed);
      } else {
        Move(i, SendOk(i), Waiting);
        OthersRun(i);
        ending := RecvTimeout(i);
      }
      CallIsSafe(i);
    }

    // Draws a request id and enters the waiter table under it.
    method Enlist() returns (i: nat)
      requires Valid()
      modifies this
      ensures Valid() && old(trace) <= trace && i < |calls| && calls[i].progress == Sending
    {
      i := NewCall();
      OthersRun(i);
      Move(i, Register(i), Sending);
      OthersRun(i);
    }

    lemma {:induction false} CallIsSafe(i: nat)
      requires Valid() && i < |calls|
      ensures CallSafe(View(), i)
    {
      InterleavingSafe(trace);
    }

    method RecvTimeout(i: nat) returns (ending: Ending)
      requires Valid() && i < |calls| && calls[i].progress == Waiting
      modifies this
      ensures Valid() && old(trace) <= trace && i < |calls|
      ensures calls[i].progress == Done(ending)
    {
      match calls[i].mailbox {
        case Some(outcome) =>
          ending := FromDevice(outcome);
          Move(i, Receive(i), Done(ending));
        case None =>
          Move(i, GiveUp(i), Abandoning(TimedOut));
          ending := Abandon(i, TimedOut);
      }
    }

    // Takes the waiter out of the table again; a result may still land in the channel meanwhile.
    method Abandon(i: nat, reason: Ending) returns (ending: Ending)
      requires Valid() && i < |calls| && calls[i].progress == Abandoning(reason)
      modifies this
      ensures Valid() && old(trace) <= trace && i < |calls|
      ensures ending == reason && calls[i].progress == Done(ending)
    {
      OthersRun(i);
      ending := reason;
      Move(i, Unregister(i), Done(reason));
    }

    // One atomic step of call `i`.
    method Move(i: nat, s: Step, p: Progress)
      requires Valid() && IsCallStep(s) && s.call == i && Enabled(View(), s)
      requires Apply(View(), s).calls[i].progress == p
      modifies this
      ensures Valid() && trace == old(trace) + [s] && View() == Apply(old(View()), s)
    {
      ghost var before := View();
      var id := calls[i].requestId;
      calls := calls[i := calls[i].(progress := p)];
      if s.Register? {
        waiters := waiters[id := i];
      } else if s.Unregister? {
        waiters := waiters - {id};
      }
      Record(s, before);
    }
  }
}
