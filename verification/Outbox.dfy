/**
 The queue of undelivered audio clips that reconnecting clients share: bounded, expiring, and put back on a
 failed send. Turns push, connections pop; the clock only moves forward.
 */
module ClipOutbox {
  import opened Wrappers

  // In seconds.
  const TTL: nat := 300
  const MAX_CLIPS: nat := 32

  /** A clip, named by its place in push order; `wav` is its audio, byte by byte. */
  datatype Clip = Clip(serial: nat, wav: seq<nat>)

  datatype Queued = Queued(at: nat, clip: Clip)

  /** A clip that will never be delivered: when it was queued and dropped, and how many clips stood behind it. */
  datatype Dropped = Dropped(clip: Clip, queuedAt: nat, droppedAt: nat, behind: nat)

  predicate IsExpired(q: Queued, now: nat) {
    now - q.at > TTL
  }

  function Clips(queue: seq<Queued>): (s: seq<Clip>)
    ensures |s| == |queue|
  {
    if queue == [] then [] else [queue[0].clip] + Clips(queue[1..])
  }

  lemma {:induction false} ClipsSplit(queue: seq<Queued>, n: nat)
    requires n <= |queue|
    ensures Clips(queue) == Clips(queue[..n]) + Clips(queue[n..])
  {
    if n > 0 {
      ClipsSplit(queue[1..], n - 1);
      assert queue[1..][..n - 1] == queue[..n][1..];
      assert queue[1..][n - 1..] == queue[n..];
    } else {
      assert queue[n..] == queue;
    }
  }

  lemma {:induction false} ClipsAppend(a: seq<Queued>, b: seq<Queued>)
    ensures Clips(a + b) == Clips(a) + Clips(b)
  {
    ClipsSplit(a + b, |a|);
    assert (a + b)[..|a|] == a && (a + b)[|a|..] == b;
  }

  // How many clips purge_expired takes off the front.
  function ExpiredCount(queue: seq<Queued>, now: nat): (n: nat)
    ensures n <= |queue|
    ensures forall i | 0 <= i < n :: IsExpired(queue[i], now)
    ensures n < |queue| ==> !IsExpired(queue[n], now)
  {
    if queue == [] || !IsExpired(queue[0], now) then 0 else 1 + ExpiredCount(queue[1..], now)
  }

  function Purged(queue: seq<Queued>, now: nat): seq<Queued> {
    queue[ExpiredCount(queue, now)..]
  }

  // How many clips the trim to MAX_CLIPS takes off the front.
  function ExcessCount(queue: seq<Queued>): (n: nat)
    ensures n <= |queue|
  {
    if |queue| > MAX_CLIPS then |queue| - MAX_CLIPS else 0
  }

  function Trimmed(queue: seq<Queued>): seq<Queued> {
    queue[ExcessCount(queue)..]
  }

  // The first `n` of `queue`, dropped at `now`.
  function DropFront(queue: seq<Queued>, n: nat, now: nat): (d: seq<Dropped>)
    requires n <= |queue|
    ensures |d| == n
  {
    seq(n, i requires 0 <= i < n => Dropped(queue[i].clip, queue[i].at, now, |queue| - 1 - i))
  }

  // ----- All connections and turns together.

  datatype OutboxView = OutboxView(
    now: nat, queue: seq<Queued>,
    // Open connections, and the clips they have popped and not yet sent or put back.
    connections: nat, hands: multiset<Clip>,
    // History.
    pushed: seq<seq<nat>>, delivered: seq<Clip>, dropped: seq<Dropped>, peak: nat)

  datatype Step =
    | Tick(seconds: nat) | Push(wav: seq<nat>)
    | Connect | Close | TryPop | SendOk(clip: Clip) | SendFails(clip: Clip)

  function Start(): OutboxView {
    OutboxView(0, [], 0, multiset{}, [], [], [], 0)
  }

  predicate Enabled(v: OutboxView, s: Step) {
    match s
    case Tick(_) => true
    case Push(_) => true
    case Connect => true
    case Close => |v.hands| < v.connections
    case TryPop => |v.hands| < v.connections
    case SendOk(clip) => clip in v.hands
    case SendFails(clip) => clip in v.hands && v.connections > 0
  }

  function Apply(v: OutboxView, s: Step): OutboxView
    requires Enabled(v, s)
  {
    match s
    case Tick(d) => v.(now := v.now + d)
    case Push(wav) =>
      var p := PurgedView(v);
      var queue := p.queue + [Queued(v.now, Clip(|v.pushed|, wav))];
      p.(queue := Trimmed(queue), pushed := v.pushed + [wav],
         dropped := p.dropped + DropFront(queue, ExcessCount(queue), v.now))
    case Connect =>
      v.(connections := v.connections + 1, peak := if v.connections + 1 > v.peak then v.connections + 1 else v.peak)
    case Close => v.(connections := v.connections - 1)
    case TryPop =>
      var p := PurgedView(v);
      if p.queue == [] then p
      else p.(queue := p.queue[1..], hands := p.hands + multiset{p.queue[0].clip})
    case SendOk(clip) => v.(hands := v.hands - multiset{clip}, delivered := v.delivered + [clip])
    case SendFails(clip) =>
      v.(hands := v.hands - multiset{clip}, queue := [Queued(v.now, clip)] + v.queue, connections := v.connections - 1)
  }

  function PurgedView(v: OutboxView): OutboxView {
    v.(queue := Purged(v.queue, v.now),
       dropped := v.dropped + DropFront(v.queue, ExpiredCount(v.queue, v.now), v.now))
  }

  function After(steps: seq<Step>): Option<OutboxView> {
    if steps == [] then Some(Start())
    else
      var before := After(steps[..|steps| - 1]);
      var s := steps[|steps| - 1];
      if before.Some? && Enabled(before.value, s) then Some(Apply(before.value, s)) else None
  }

  // ----- Conservation.

  function DroppedClips(dropped: seq<Dropped>): (s: seq<Clip>)
    ensures |s| == |dropped|
  {
    seq(|dropped|, i requires 0 <= i < |dropped| => dropped[i].clip)
  }

  function AllPushed(pushed: seq<seq<nat>>): seq<Clip> {
    seq(|pushed|, i requires 0 <= i < |pushed| => Clip(i, pushed[i]))
  }

  // Every clip somewhere: delivered, in a hand, queued or dropped.
  function Everywhere(v: OutboxView): multiset<Clip> {
    multiset(v.delivered) + v.hands + multiset(Clips(v.queue)) + multiset(DroppedClips(v.dropped))
  }

  // A drop is justified by age or by a full queue behind it.
  predicate JustDrop(d: Dropped) {
    d.droppedAt - d.queuedAt > TTL || d.behind >= MAX_CLIPS
  }

  ghost predicate Conserved(v: OutboxView) {
    Everywhere(v) == multiset(AllPushed(v.pushed))
  }

  ghost predicate Justified(v: OutboxView) {
    forall d | d in v.dropped :: JustDrop(d)
  }

  ghost predicate Bounded(v: OutboxView) {
    |v.hands| <= v.connections <= v.peak && |v.queue| + |v.hands| <= MAX_CLIPS + v.peak
  }

  ghost predicate Safe(v: OutboxView) {
    Conserved(v) && Justified(v) && Bounded(v)
  }

  lemma {:induction false} ClipsAt(queue: seq<Queued>, i: nat)
    requires i < |queue|
    ensures Clips(queue)[i] == queue[i].clip
  {
    if i > 0 {
      ClipsAt(queue[1..], i - 1);
    }
  }

  lemma {:induction false} DropFrontClips(queue: seq<Queued>, n: nat, now: nat)
    requires n <= |queue|
    ensures DroppedClips(DropFront(queue, n, now)) == Clips(queue[..n])
  {
    forall i | 0 <= i < n ensures DroppedClips(DropFront(queue, n, now))[i] == Clips(queue[..n])[i] {
      ClipsAt(queue[..n], i);
    }
  }

  // Moving the first `n` queued clips to the dropped ones loses nothing.
  lemma {:induction false} DropConserves(v: OutboxView, n: nat)
    requires n <= |v.queue|
    ensures Everywhere(v.(queue := v.queue[n..], dropped := v.dropped + DropFront(v.queue, n, v.now)))
            == Everywhere(v)
  {
    ClipsSplit(v.queue, n);
    DropFrontClips(v.queue, n, v.now);
    var d := DropFront(v.queue, n, v.now);
    assert DroppedClips(v.dropped + d) == DroppedClips(v.dropped) + DroppedClips(d);
  }

  lemma {:induction false} PushConserves(v: OutboxView, wav: seq<nat>)
    requires Conserved(v)
    ensures Conserved(Apply(v, Push(wav)))
  {
    DropConserves(v, ExpiredCount(v.queue, v.now));
    var p := PurgedView(v);
    var last := Queued(v.now, Clip(|v.pushed|, wav));
    var full := p.(queue := p.queue + [last], pushed := v.pushed + [wav]);
    PushedIsQueued(p, last, wav);
    DropConserves(full, ExcessCount(full.queue));
  }

  lemma {:induction false} PushedIsQueued(v: OutboxView, last: Queued, wav: seq<nat>)
    requires Conserved(v) && last.clip == Clip(|v.pushed|, wav)
    ensures Conserved(v.(queue := v.queue + [last], pushed := v.pushed + [wav]))
  {
    ClipsAppend(v.queue, [last]);
    assert Clips([last]) == [last.clip];
    assert AllPushed(v.pushed + [wav]) == AllPushed(v.pushed) + [last.clip];
  }

  lemma {:induction false} PopConserves(v: OutboxView)
    requires Conserved(v) && Enabled(v, TryPop)
    ensures Conserved(Apply(v, TryPop))
  {
    DropConserves(v, ExpiredCount(v.queue, v.now));
    var p := PurgedView(v);
    if p.queue != [] {
      assert Clips(p.queue) == [p.queue[0].clip] + Clips(p.queue[1..]);
    }
  }

  // A sent clip moves from a hand to the delivered ones, a failed one from a hand to the front of the queue.
  lemma {:induction false} SendConserves(v: OutboxView, clip: Clip)
    requires Conserved(v) && clip in v.hands
    ensures Conserved(v.(hands := v.hands - multiset{clip}, delivered := v.delivered + [clip]))
    ensures Conserved(v.(hands := v.hands - multiset{clip}, queue := [Queued(v.now, clip)] + v.queue))
  {
    var rest := v.hands - multiset{clip};
    assert v.hands == multiset{clip} + rest;
    assert multiset(v.delivered + [clip]) == multiset(v.delivered) + multiset{clip};
    QueuedFirst(v.queue, Queued(v.now, clip));
  }

  lemma {:induction false} QueuedFirst(queue: seq<Queued>, first: Queued)
    ensures multiset(Clips([first] + queue)) == multiset{first.clip} + multiset(Clips(queue))
  {
    assert ([first] + queue)[1..] == queue;
    assert Clips([first] + queue) == [first.clip] + Clips(queue);
  }

  lemma {:induction false} StepConserves(v: OutboxView, s: Step)
    requires Conserved(v) && Enabled(v, s)
    ensures Conserved(Apply(v, s))
  {
    match s {
      case Push(wav) => PushConserves(v, wav);
      case TryPop => PopConserves(v);
      case SendOk(clip) => SendConserves(v, clip);
      case SendFails(clip) => SendConserves(v, clip);
      case _ =>
    }
  }

  lemma {:induction false} StepJustified(v: OutboxView, s: Step)
    requires Justified(v) && Enabled(v, s)
    ensures Justified(Apply(v, s))
  {
  }

  lemma {:induction false} StepBounded(v: OutboxView, s: Step)
    requires Bounded(v) && Enabled(v, s)
    ensures Bounded(Apply(v, s))
  {
  }

  /**
   With any number of connections: no clip is ever lost or duplicated, every missing one was dropped for age or
   for a full queue, and the queue never exceeds MAX_CLIPS plus the most connections ever open.
   */
  lemma {:induction false} NothingLost(steps: seq<Step>)
    requires After(steps).Some?
    ensures Safe(After(steps).value)
  {
    if steps != [] {
      NothingLost(steps[..|steps| - 1]);
      var v, s := After(steps[..|steps| - 1]).value, steps[|steps| - 1];
      StepConserves(v, s);
      StepJustified(v, s);
      StepBounded(v, s);
    }
  }

  // ----- True times: when a clip was last queued, read off the steps alone.

  function Clock(steps: seq<Step>): nat {
    if steps == [] then 0
    else
      var last := steps[|steps| - 1];
      Clock(steps[..|steps| - 1]) + if last.Tick? then last.seconds else 0
  }

  function PushCount(steps: seq<Step>): nat {
    if steps == [] then 0 else PushCount(steps[..|steps| - 1]) + if steps[|steps| - 1].Push? then 1 else 0
  }

  /** The clock when the clip of this serial number was last pushed or put back. */
  function LastQueued(steps: seq<Step>, serial: nat): Option<nat> {
    if steps == [] then None
    else
      var before, last := steps[..|steps| - 1], steps[|steps| - 1];
      if last.Push? && PushCount(before) == serial then Some(Clock(before))
      else if last.SendFails? && last.clip.serial == serial then Some(Clock(before))
      else LastQueued(before, serial)
  }

  /** Every stamp in the queue and in the list of drops is that time. */
  ghost predicate Stamped(steps: seq<Step>, v: OutboxView) {
    && v.now == Clock(steps) && |v.pushed| == PushCount(steps)
    && (forall q | q in v.queue :: LastQueued(steps, q.clip.serial) == Some(q.at))
    && (forall d | d in v.dropped :: LastQueued(steps, d.clip.serial) == Some(d.queuedAt))
  }

  // Pushed clips are all different.
  lemma {:induction false} PushedOnce(pushed: seq<seq<nat>>, clip: Clip)
    ensures multiset(AllPushed(pushed))[clip] <= 1
    ensures clip in AllPushed(pushed) <==> clip.serial < |pushed| && clip.wav == pushed[clip.serial]
  {
    if clip.serial < |pushed| && clip.wav == pushed[clip.serial] {
      assert AllPushed(pushed)[clip.serial] == clip;
    }
    if pushed != [] {
      var n := |pushed| - 1;
      PushedOnce(pushed[..n], clip);
      assert AllPushed(pushed) == AllPushed(pushed[..n]) + [Clip(n, pushed[n])];
    }
  }

  lemma {:induction false} QueuedIn(queue: seq<Queued>, q: Queued)
    requires q in queue
    ensures q.clip in Clips(queue)
  {
    if q != queue[0] {
      QueuedIn(queue[1..], q);
    }
  }

  lemma {:induction false} DroppedIn(dropped: seq<Dropped>, d: Dropped)
    requires d in dropped
    ensures d.clip in DroppedClips(dropped)
  {
    var i :| 0 <= i < |dropped| && dropped[i] == d;
    assert DroppedClips(dropped)[i] == d.clip;
  }

  // A clip in a hand is nowhere else, and every clip has been pushed.
  lemma {:induction false} OnePlace(v: OutboxView, clip: Clip)
    requires Conserved(v)
    ensures clip in v.hands ==> clip !in Clips(v.queue) && clip !in DroppedClips(v.dropped)
    ensures clip in v.hands || clip in Clips(v.queue) || clip in DroppedClips(v.dropped) ==>
              clip.serial < |v.pushed| && clip.wav == v.pushed[clip.serial]
  {
    PushedOnce(v.pushed, clip);
    assert Everywhere(v)[clip] == multiset(AllPushed(v.pushed))[clip];
  }

  lemma {:induction false} SerialsKnown(v: OutboxView)
    requires Conserved(v)
    ensures forall q | q in v.queue :: q.clip.serial < |v.pushed|
    ensures forall d | d in v.dropped :: d.clip.serial < |v.pushed|
  {
    forall q | q in v.queue ensures q.clip.serial < |v.pushed| {
      QueuedIn(v.queue, q);
      OnePlace(v, q.clip);
    }
    forall d | d in v.dropped ensures d.clip.serial < |v.pushed| {
      DroppedIn(v.dropped, d);
      OnePlace(v, d.clip);
    }
  }

  // No other clip has the serial number of one in a hand.
  lemma {:induction false} HandApart(v: OutboxView, clip: Clip)
    requires Conserved(v) && clip in v.hands
    ensures forall q | q in v.queue :: q.clip.serial != clip.serial
    ensures forall d | d in v.dropped :: d.clip.serial != clip.serial
  {
    OnePlace(v, clip);
    forall q | q in v.queue ensures q.clip.serial != clip.serial {
      QueuedIn(v.queue, q);
      OnePlace(v, q.clip);
    }
    forall d | d in v.dropped ensures d.clip.serial != clip.serial {
      DroppedIn(v.dropped, d);
      OnePlace(v, d.clip);
    }
  }

  // Drops keep the stamps they had in the queue.
  lemma {:induction false} DropsKeepStamps(steps: seq<Step>, queue: seq<Queued>, n: nat, now: nat)
    requires n <= |queue| && forall q | q in queue :: LastQueued(steps, q.clip.serial) == Some(q.at)
    ensures forall d | d in DropFront(queue, n, now) :: LastQueued(steps, d.clip.serial) == Some(d.queuedAt)
  {
    forall d | d in DropFront(queue, n, now) ensures LastQueued(steps, d.clip.serial) == Some(d.queuedAt) {
      var i :| 0 <= i < n && DropFront(queue, n, now)[i] == d;
      assert queue[i] in queue;
    }
  }

  lemma {:induction false} PurgeStamped(steps: seq<Step>, v: OutboxView)
    requires Stamped(steps, v)
    ensures Stamped(steps, PurgedView(v))
  {
    DropsKeepStamps(steps, v.queue, ExpiredCount(v.queue, v.now), v.now);
  }

  lemma {:induction false} PushStamped(steps: seq<Step>, v: OutboxView, wav: seq<nat>)
    requires Stamped(steps, v) && Conserved(v)
    ensures Stamped(steps + [Push(wav)], Apply(v, Push(wav)))
  {
    PurgeStamped(steps, v);
    DropConserves(v, ExpiredCount(v.queue, v.now));
    var p, longer := PurgedView(v), steps + [Push(wav)];
    SerialsKnown(p);
    assert longer[..|steps|] == steps;
    var queue := p.queue + [Queued(v.now, Clip(|v.pushed|, wav))];
    forall q | q in queue ensures LastQueued(longer, q.clip.serial) == Some(q.at) {
    }
    DropsKeepStamps(longer, queue, ExcessCount(queue), v.now);
  }

  lemma {:induction false} PutBackStamped(steps: seq<Step>, v: OutboxView, clip: Clip)
    requires Stamped(steps, v) && Conserved(v) && Enabled(v, SendFails(clip))
    ensures Stamped(steps + [SendFails(clip)], Apply(v, SendFails(clip)))
  {
    HandApart(v, clip);
    assert (steps + [SendFails(clip)])[..|steps|] == steps;
  }

  lemma {:induction false} StepStamped(steps: seq<Step>, v: OutboxView, s: Step)
    requires Stamped(steps, v) && Conserved(v) && Enabled(v, s)
    ensures Stamped(steps + [s], Apply(v, s))
  {
    assert (steps + [s])[..|steps|] == steps;
    match s {
      case Push(wav) => PushStamped(steps, v, wav);
      case SendFails(clip) => PutBackStamped(steps, v, clip);
      case TryPop => PurgeStamped(steps, v);
      case _ =>
    }
  }

  /** In every interleaving the stamps are true: the clock at the clip's last push or put-back. */
  lemma {:induction false} StampsAreTrue(steps: seq<Step>)
    requires After(steps).Some?
    ensures Stamped(steps, After(steps).value)
  {
    if steps != [] {
      var before, s := steps[..|steps| - 1], steps[|steps| - 1];
      StampsAreTrue(before);
      NothingLost(before);
      StepStamped(before, After(before).value, s);
      assert before + [s] == steps;
    }
  }

  /** Step `n` drops this clip. */
  ghost predicate DropsAt(steps: seq<Step>, n: nat, clip: Clip)
    requires n < |steps|
  {
    var before, after := After(steps[..n]), After(steps[..n + 1]);
    before.Some? && after.Some? &&
    clip in Clips(before.value.queue) + [Clip(|before.value.pushed|, if steps[n].Push? then steps[n].wav else [])] &&
    clip !in DroppedClips(before.value.dropped) && clip in DroppedClips(after.value.dropped)
  }

  /** Step `n` has cause to: the clip was queued more than TTL before, or a push leaves MAX_CLIPS clips without it. */
  ghost predicate HasCause(steps: seq<Step>, n: nat, clip: Clip)
    requires n < |steps|
  {
    var queued, after := LastQueued(steps[..n], clip.serial), After(steps[..n + 1]);
    || (queued.Some? && Clock(steps[..n]) - queued.value > TTL)
    || (steps[n].Push? && after.Some? && |after.value.queue| == MAX_CLIPS)
  }

  ghost predicate JustlyDropped(steps: seq<Step>, clip: Clip) {
    exists n | 0 <= n < |steps| :: DropsAt(steps, n, clip) && HasCause(steps, n, clip)
  }

  /** Every drop has its cause in the steps: age since the clip's last push or put-back, or a full queue behind it. */
  lemma {:induction false} DropsAreJust(steps: seq<Step>, clip: Clip)
    requires After(steps).Some? && clip in DroppedClips(After(steps).value.dropped)
    ensures JustlyDropped(steps, clip)
  {
    var last := |steps| - 1;
    var before := steps[..last];
    if clip in DroppedClips(After(before).value.dropped) {
      DropsAreJust(before, clip);
      var n :| 0 <= n < |before| && DropsAt(before, n, clip) && HasCause(before, n, clip);
      assert before[..n] == steps[..n] && before[..n + 1] == steps[..n + 1];
      assert DropsAt(steps, n, clip) && HasCause(steps, n, clip);
    } else {
      assert steps[..last + 1] == steps;
      StampsAreTrue(before);
      NewDropJust(before, After(before).value, steps[last], clip);
      assert DropsAt(steps, last, clip) && HasCause(steps, last, clip);
    }
  }

  lemma {:induction false} NewDropJust(steps: seq<Step>, v: OutboxView, s: Step, clip: Clip)
    requires Stamped(steps, v) && Enabled(v, s)
    requires clip !in DroppedClips(v.dropped) && clip in DroppedClips(Apply(v, s).dropped)
    ensures clip in Clips(v.queue) + [Clip(|v.pushed|, if s.Push? then s.wav else [])]
    ensures || (LastQueued(steps, clip.serial).Some? &&
                Clock(steps) - LastQueued(steps, clip.serial).value > TTL)
            || (s.Push? && |Apply(v, s).queue| == MAX_CLIPS)
  {
    var i :| 0 <= i < |Apply(v, s).dropped| && Apply(v, s).dropped[i].clip == clip;
    var d := Apply(v, s).dropped[i];
    assert i >= |v.dropped| by {
      if i < |v.dropped| {
        assert d == v.dropped[i];
        DroppedIn(v.dropped, d);
      }
    }
    var expired := ExpiredCount(v.queue, v.now);
    if i < |v.dropped| + expired {
      var q := v.queue[i - |v.dropped|];
      assert q in v.queue && d.clip == q.clip;
      QueuedIn(v.queue, q);
      assert IsExpired(q, v.now);
    } else {
      var queue := PurgedView(v).queue + [Queued(v.now, Clip(|v.pushed|, s.wav))];
      var q := queue[i - |v.dropped| - expired];
      assert d.clip == q.clip;
      if i - |v.dropped| - expired < |PurgedView(v).queue| {
        assert q in v.queue;
        QueuedIn(v.queue, q);
      }
    }
  }

  /** What is popped is never older than TTL, counted from its last push or put-back. */
  lemma {:induction false} PoppedIsFresh(steps: seq<Step>, clip: Clip)
    requires After(steps).Some? && Enabled(After(steps).value, TryPop)
    requires Apply(After(steps).value, TryPop).hands == After(steps).value.hands + multiset{clip}
    ensures var queued := LastQueued(steps, clip.serial);
            queued.Some? && Clock(steps) - queued.value <= TTL
  {
    StampsAreTrue(steps);
    var v := After(steps).value;
    var queue := PurgedView(v).queue;
    assert Apply(v, TryPop).hands[clip] == v.hands[clip] + 1;
    assert queue != [] && queue[0].clip == clip;
    assert queue[0] in v.queue;
  }

  /**
   A clip put back is the very one the next connection pops, as long as it comes within TTL: nothing is lost meanwhile,
   and the queue is as it was.
   */
  lemma {:induction false} PutBackIsNext(v: OutboxView, clip: Clip, seconds: nat)
    requires Enabled(v, SendFails(clip)) && |v.hands| <= v.connections && seconds <= TTL
    ensures var back := Apply(Apply(Apply(v, SendFails(clip)), Tick(seconds)), Connect);
            && Enabled(back, TryPop) && back.hands + multiset{clip} == v.hands
            && Apply(back, TryPop) == v.(now := v.now + seconds, peak := back.peak)
  {
    var back := Apply(Apply(Apply(v, SendFails(clip)), Tick(seconds)), Connect);
    assert back.queue == [Queued(v.now, clip)] + v.queue && back.queue[1..] == v.queue;
    assert ExpiredCount(back.queue, back.now) == 0;
    assert back.hands + multiset{clip} == v.hands;
    assert back.dropped + [] == v.dropped;
    assert PurgedView(back) == back;
  }

  // ----- How far past the cap the queue can go.

  /** From a queue within the cap, only a failed send that finds it full takes it past. */
  lemma {:induction false} StepOverCapExactly(v: OutboxView, s: Step)
    requires Enabled(v, s) && |v.queue| <= MAX_CLIPS
    ensures |Apply(v, s).queue| > MAX_CLIPS <==> s.SendFails? && |v.queue| == MAX_CLIPS
  {
  }

  ghost predicate WithinCapAt(steps: seq<Step>, n: nat)
    requires n <= |steps|
  {
    After(steps[..n]).Some? && |After(steps[..n]).value.queue| <= MAX_CLIPS
  }

  // Step `n` puts a clip back on a queue that has filled up meanwhile.
  ghost predicate FailsFullAt(steps: seq<Step>, n: nat)
    requires n < |steps|
  {
    steps[n].SendFails? && After(steps[..n]).Some? && |After(steps[..n]).value.queue| >= MAX_CLIPS
  }

  ghost predicate AlwaysWithinCap(steps: seq<Step>) {
    forall n | 0 <= n <= |steps| :: WithinCapAt(steps, n)
  }

  ghost predicate NeverFailsFull(steps: seq<Step>) {
    forall n | 0 <= n < |steps| :: !FailsFullAt(steps, n)
  }

  lemma {:induction false} CapOfPrefix(steps: seq<Step>)
    requires steps != []
    ensures AlwaysWithinCap(steps) <==> AlwaysWithinCap(steps[..|steps| - 1]) && WithinCapAt(steps, |steps|)
  {
    var before := steps[..|steps| - 1];
    forall n | 0 <= n < |steps| ensures WithinCapAt(steps, n) <==> WithinCapAt(before, n) {
      assert before[..n] == steps[..n];
    }
  }

  lemma {:induction false} FailsOfPrefix(steps: seq<Step>)
    requires steps != []
    ensures NeverFailsFull(steps) <==> NeverFailsFull(steps[..|steps| - 1]) && !FailsFullAt(steps, |steps| - 1)
  {
    var before := steps[..|steps| - 1];
    forall n | 0 <= n < |before| ensures FailsFullAt(steps, n) <==> FailsFullAt(before, n) {
      assert before[..n] == steps[..n];
    }
  }

  /** The queue stays within its cap throughout exactly when no failed send finds it full. */
  lemma {:induction false} WithinCapExactly(steps: seq<Step>)
    requires After(steps).Some?
    ensures AlwaysWithinCap(steps) <==> NeverFailsFull(steps)
  {
    if steps == [] {
      assert WithinCapAt(steps, 0);
    } else {
      var before := steps[..|steps| - 1];
      WithinCapExactly(before);
      CapOfPrefix(steps);
      FailsOfPrefix(steps);
      LastOverCap(steps);
      assert WithinCapAt(before, |before|) <==> WithinCapAt(steps, |before|) by {
        assert before[..|before|] == steps[..|before|];
      }
    }
  }

  lemma {:induction false} LastOverCap(steps: seq<Step>)
    requires steps != [] && After(steps).Some?
    ensures var last := |steps| - 1;
            && (FailsFullAt(steps, last) ==> !WithinCapAt(steps, |steps|))
            && (WithinCapAt(steps, last) && !FailsFullAt(steps, last) ==> WithinCapAt(steps, |steps|))
  {
    var last := |steps| - 1;
    assert steps[..|steps|] == steps;
    var v := After(steps[..last]).value;
    if |v.queue| <= MAX_CLIPS {
      StepOverCapExactly(v, steps[last]);
    }
  }

  lemma {:induction false} AfterStep(steps: seq<Step>, s: Step)
    requires After(steps).Some? && Enabled(After(steps).value, s)
    ensures After(steps + [s]) == Some(Apply(After(steps).value, s))
  {
    assert (steps + [s])[..|steps|] == steps;
  }

  // Pushes at one moment only add to a queue that has room.
  lemma {:induction false} PushesFit(steps: seq<Step>, v: OutboxView, wav: seq<nat>, n: nat)
      returns (longer: seq<Step>, v': OutboxView)
    requires After(steps) == Some(v) && |v.queue| + n <= MAX_CLIPS && forall q | q in v.queue :: q.at == v.now
    ensures After(longer) == Some(v') && |v'.queue| == |v.queue| + n && forall q | q in v'.queue :: q.at == v'.now
    ensures v'.hands == v.hands && v'.connections == v.connections
    decreases n
  {
    longer, v' := steps, v;
    if n > 0 {
      AfterStep(steps, Push(wav));
      longer, v' := PushesFit(steps + [Push(wav)], Apply(v, Push(wav)), wav, n - 1);
    }
  }

  /** And it does go past: a clip in hand comes back after MAX_CLIPS more were pushed. */
  lemma {:induction false} CapExceeded(wav: seq<nat>) returns (steps: seq<Step>)
    ensures After(steps).Some? && |After(steps).value.queue| == MAX_CLIPS + 1
  {
    var v;
    steps, v := ClipInHand(wav);
    steps, v := PushesFit(steps, v, wav, MAX_CLIPS);
    AfterStep(steps, SendFails(Clip(0, wav)));
    steps := steps + [SendFails(Clip(0, wav))];
  }

  // A connection that has popped the only clip.
  lemma {:induction false} ClipInHand(wav: seq<nat>) returns (steps: seq<Step>, v: OutboxView)
    ensures After(steps) == Some(v)
    ensures v.queue == [] && v.hands == multiset{Clip(0, wav)} && v.connections == 1
  {
    AfterStep([], Connect);
    steps, v := [] + [Connect], Apply(Start(), Connect);
    AfterStep(steps, Push(wav));
    steps, v := steps + [Push(wav)], Apply(v, Push(wav));
    assert v.queue == [Queued(0, Clip(0, wav))];
    AfterStep(steps, TryPop);
    steps, v := steps + [TryPop], Apply(v, TryPop);
  }

  // ----- Order, with one connection at a time.

  ghost predicate Increasing(s: seq<Clip>) {
    forall i, j | 0 <= i < j < |s| :: s[i].serial < s[j].serial
  }

  // The one clip in hand, if any.
  ghost function HandOf(hands: multiset<Clip>): seq<Clip> {
    if c :| c in hands then [c] else []
  }

  /** What has been delivered, then the clip in hand, then the queue. */
  ghost function Line(v: OutboxView): seq<Clip> {
    v.delivered + HandOf(v.hands) + Clips(v.queue)
  }

  ghost predicate InOrder(v: OutboxView) {
    Increasing(Line(v)) && forall i | 0 <= i < |Line(v)| :: Line(v)[i].serial < |v.pushed|
  }

  lemma {:induction false} HandOfEmpty(hands: multiset<Clip>)
    requires |hands| == 0
    ensures HandOf(hands) == []
  {
  }

  lemma {:induction false} HandOfOne(hands: multiset<Clip>, clip: Clip)
    requires |hands| <= 1 && clip in hands
    ensures hands == multiset{clip} && HandOf(hands) == [clip]
  {
    var rest := hands - multiset{clip};
    assert hands == rest + multiset{clip};
    assert |rest| == 0;
  }

  // Taking clips out of the middle of the line keeps its order.
  lemma {:induction false} DropKeepsOrder(v: OutboxView, n: nat, dropped: seq<Dropped>)
    requires InOrder(v) && n <= |v.queue|
    ensures InOrder(v.(queue := v.queue[n..], dropped := dropped))
  {
    ClipsSplit(v.queue, n);
    var v' := v.(queue := v.queue[n..], dropped := dropped);
    var head := v.delivered + HandOf(v.hands);
    assert Line(v) == head + Clips(v.queue[..n]) + Clips(v.queue[n..]);
    forall i | 0 <= i < |Line(v')|
      ensures Line(v')[i] == Line(v)[if i < |head| then i else i + n]
    {
    }
  }

  lemma {:induction false} PurgeKeepsOrder(v: OutboxView)
    requires InOrder(v)
    ensures InOrder(PurgedView(v))
  {
    DropKeepsOrder(v, ExpiredCount(v.queue, v.now), PurgedView(v).dropped);
  }

  lemma {:induction false} AppendKeepsOrder(v: OutboxView, at: nat, wav: seq<nat>)
    requires InOrder(v)
    ensures InOrder(v.(queue := v.queue + [Queued(at, Clip(|v.pushed|, wav))], pushed := v.pushed + [wav]))
  {
    var last := Queued(at, Clip(|v.pushed|, wav));
    ClipsAppend(v.queue, [last]);
    assert Clips([last]) == [last.clip];
    assert Line(v.(queue := v.queue + [last], pushed := v.pushed + [wav])) == Line(v) + [last.clip];
  }

  lemma {:induction false} PushKeepsOrder(v: OutboxView, wav: seq<nat>)
    requires InOrder(v)
    ensures InOrder(Apply(v, Push(wav)))
  {
    PurgeKeepsOrder(v);
    var p := PurgedView(v);
    AppendKeepsOrder(p, v.now, wav);
    var full := p.(queue := p.queue + [Queued(v.now, Clip(|v.pushed|, wav))], pushed := v.pushed + [wav]);
    DropKeepsOrder(full, ExcessCount(full.queue), Apply(v, Push(wav)).dropped);
  }

  lemma {:induction false} PopKeepsOrder(v: OutboxView)
    requires InOrder(v) && v.hands == multiset{} && v.connections == 1
    ensures InOrder(Apply(v, TryPop))
  {
    PurgeKeepsOrder(v);
    var p := PurgedView(v);
    if p.queue != [] {
      var v' := Apply(v, TryPop);
      HandOfEmpty(p.hands);
      HandOfOne(v'.hands, p.queue[0].clip);
      assert Clips(p.queue) == [p.queue[0].clip] + Clips(p.queue[1..]);
      assert Line(v') == Line(p);
    }
  }

  lemma {:induction false} SendKeepsOrder(v: OutboxView, s: Step)
    requires InOrder(v) && Enabled(v, s) && (s.SendOk? || s.SendFails?) && |v.hands| <= 1
    ensures InOrder(Apply(v, s))
  {
    var v' := Apply(v, s);
    HandOfOne(v.hands, s.clip);
    HandOfEmpty(v'.hands);
    if s.SendFails? {
      assert v'.queue[1..] == v.queue;
      assert Clips(v'.queue) == [s.clip] + Clips(v.queue);
    }
    assert Line(v') == Line(v);
  }

  lemma {:induction false} StepKeepsOrder(v: OutboxView, s: Step)
    requires InOrder(v) && Enabled(v, s) && |v.hands| <= v.connections <= 1
    ensures InOrder(Apply(v, s))
  {
    match s {
      case Push(wav) => PushKeepsOrder(v, wav);
      case TryPop => PopKeepsOrder(v);
      case SendOk(_) => SendKeepsOrder(v, s);
      case SendFails(_) => SendKeepsOrder(v, s);
      case Tick(_) => assert Line(Apply(v, s)) == Line(v);
      case Connect => assert Line(Apply(v, s)) == Line(v);
      case Close => assert Line(Apply(v, s)) == Line(v);
    }
  }

  /**
   With one connection at a time, dying and reconnecting at will, everything delivered, in hand and queued is a
   subsequence of what was pushed, in push order and without duplicates.
   */
  lemma {:induction false} DeliveredInPushOrder(steps: seq<Step>)
    requires After(steps).Some? && After(steps).value.peak <= 1
    ensures var v := After(steps).value;
            Increasing(Line(v)) &&
            forall i | 0 <= i < |Line(v)| ::
              Line(v)[i].serial < |v.pushed| && Line(v)[i].wav == v.pushed[Line(v)[i].serial]
  {
    OrderHolds(steps);
    NothingLost(steps);
    var v := After(steps).value;
    forall i | 0 <= i < |Line(v)|
      ensures Line(v)[i].serial < |v.pushed| && Line(v)[i].wav == v.pushed[Line(v)[i].serial]
    {
      var c := Line(v)[i];
      assert c in v.delivered || c in v.hands || c in Clips(v.queue);
      assert c in Everywhere(v);
      assert c in AllPushed(v.pushed);
    }
  }

  lemma {:induction false} OrderHolds(steps: seq<Step>)
    requires After(steps).Some? && After(steps).value.peak <= 1
    ensures InOrder(After(steps).value)
  {
    if steps == [] {
      HandOfEmpty(multiset{});
    } else {
      var before := After(steps[..|steps| - 1]).value;
      assert before.peak <= After(steps).value.peak;
      OrderHolds(steps[..|steps| - 1]);
      NothingLost(steps[..|steps| - 1]);
      StepKeepsOrder(before, steps[|steps| - 1]);
    }
  }

  // ----- The outbox itself, and a connection draining it.

  class Outbox {
    var queue: seq<Queued>
    // The clock, and the other connections.
    var now: nat
    var connections: nat
    ghost var hands: multiset<Clip>
    var pushed: seq<seq<nat>>
    ghost var delivered: seq<Clip>
    ghost var dropped: seq<Dropped>
    ghost var peak: nat
    // Every atomic operation so far, by any thread.
    ghost var trace: seq<Step>

    ghost function View(): OutboxView
      reads this
    {
      OutboxView(now, queue, connections, hands, pushed, delivered, dropped, peak)
    }

    /** The object is in the state its recorded interleaving leads to. */
    ghost predicate Valid()
      reads this
    {
      After(trace) == Some(View())
    }

    constructor ()
      ensures Valid() && View() == Start()
    {
      queue, now, connections, hands := [], 0, 0, multiset{};
      pushed, delivered, dropped, peak, trace := [], [], [], 0, [];
    }

    ghost method Record(s: Step, before: OutboxView)
      requires After(trace) == Some(before) && Enabled(before, s) && View() == Apply(before, s)
      modifies this`trace
      ensures Valid() && trace == old(trace) + [s]
    {
      AfterStep(trace, s);
      trace := trace + [s];
    }

    /** `purge_expired`: pops expired clips off the front, and only those. */
    method PurgeExpired()
      modifies this`queue, this`dropped
      ensures View() == PurgedView(old(View()))
    {
      ghost var n := 0;
      while queue != [] && IsExpired(queue[0], now)
        invariant n <= |old(queue)| && queue == old(queue)[n..]
        invariant ExpiredCount(old(queue), now) == n + ExpiredCount(queue, now)
        modifies this`queue
        decreases |queue|
      {
        queue := queue[1..];
        n := n + 1;
      }
      dropped := dropped + DropFront(old(queue), n, now);
    }

    method PushClip(wav: seq<nat>)
      requires Valid()
      modifies this
      ensures Valid() && trace == old(trace) + [Push(wav)]
      ensures View() == Apply(old(View()), Push(wav))
    {
      ghost var before := View();
      PurgeExpired();
      queue := queue + [Queued(now, Clip(|pushed|, wav))];
      TrimToCap();
      pushed := pushed + [wav];
      Record(Push(wav), before);
    }

    // Drops clips off the front until MAX_CLIPS are left.
    method TrimToCap()
      modifies this`queue, this`dropped
      ensures queue == Trimmed(old(queue))
      ensures dropped == old(dropped) + DropFront(old(queue), ExcessCount(old(queue)), now)
    {
      ghost var n := 0;
      while |queue| > MAX_CLIPS
        invariant n <= ExcessCount(old(queue)) && queue == old(queue)[n..]
        modifies this`queue
      {
        queue := queue[1..];
        n := n + 1;
      }
      dropped := dropped + DropFront(old(queue), n, now);
    }

    /** Puts a popped clip back at the front, its age starting over; the connection is gone. */
    method PushFront(clip: Clip)
      requires Valid() && clip in hands && connections > 0
      modifies this
      ensures Valid() && trace == old(trace) + [SendFails(clip)]
      ensures View() == Apply(old(View()), SendFails(clip))
    {
      ghost var before := View();
      queue := [Queued(now, clip)] + queue;
      connections := connections - 1;
      hands := hands - multiset{clip};
      Record(SendFails(clip), before);
    }

    /** The oldest clip that has not expired, if any. */
    method PopNext() returns (clip: Option<Clip>, ghost queuedAt: nat)
      requires Valid() && |hands| < connections
      modifies this
      ensures Valid() && trace == old(trace) + [TryPop]
      ensures View() == Apply(old(View()), TryPop)
      ensures clip.Some? ==> hands == old(hands) + multiset{clip.value}
      ensures clip.Some? ==> Queued(queuedAt, clip.value) in old(queue) && now - queuedAt <= TTL
      ensures clip.None? ==> queue == [] && hands == old(hands)
    {
      ghost var before := View();
      queuedAt := 0;
      PurgeExpired();
      if queue == [] {
        Record(TryPop, before);
        return None, 0;
      }
      var front := queue[0];
      clip, queuedAt := Some(front.clip), front.at;
      queue := queue[1..];
      hands := hands + multiset{front.clip};
      Record(TryPop, before);
    }

    method Open()
      requires Valid()
      modifies this
      ensures Valid() && trace == old(trace) + [Connect] && View() == Apply(old(View()), Connect)
    {
      ghost var before := View();
      connections := connections + 1;
      peak := if connections > peak then connections else peak;
      Record(Connect, before);
    }

    method Shut()
      requires Valid() && |hands| < connections
      modifies this
      ensures Valid() && trace == old(trace) + [Close] && View() == Apply(old(View()), Close)
    {
      ghost var before := View();
      connections := connections - 1;
      Record(Close, before);
    }

    method Sent(clip: Clip)
      requires Valid() && clip in hands
      modifies this
      ensures Valid() && trace == old(trace) + [SendOk(clip)] && View() == Apply(old(View()), SendOk(clip))
    {
      ghost var before := View();
      hands, delivered := hands - multiset{clip}, delivered + [clip];
      Record(SendOk(clip), before);
    }

    method Wait(seconds: nat)
      requires Valid()
      modifies this
      ensures Valid() && trace == old(trace) + [Tick(seconds)] && View() == Apply(old(View()), Tick(seconds))
    {
      ghost var before := View();
      now := now + seconds;
      Record(Tick(seconds), before);
    }
  }

  // Nothing but pushes and time from step `n` on, up to step `m`.
  predicate TurnsOnly(trace: seq<Step>, n: nat, m: int) {
    forall i | n <= i < m && i < |trace| :: trace[i].Push? || trace[i].Tick?
  }

  // Turns pushing and time passing while a connection is busy with something else.
  method TurnsRun(outbox: Outbox)
    requires outbox.Valid()
    modifies outbox
    ensures outbox.Valid() && old(outbox.trace) <= outbox.trace
    ensures TurnsOnly(outbox.trace, |old(outbox.trace)|, |outbox.trace|)
    ensures outbox.connections == old(outbox.connections) && outbox.hands == old(outbox.hands)
    ensures outbox.delivered == old(outbox.delivered)
  {
    var steps: int := *;
    while steps > 0
      invariant outbox.Valid() && old(outbox.trace) <= outbox.trace
      invariant TurnsOnly(outbox.trace, |old(outbox.trace)|, |outbox.trace|)
      invariant outbox.connections == old(outbox.connections) && outbox.hands == old(outbox.hands)
      invariant outbox.delivered == old(outbox.delivered)
    {
      steps := steps - 1;
      var seconds: int := *;
      if seconds >= 0 {
        outbox.Wait(seconds);
      } else {
        var wav: seq<nat> := *;
        outbox.PushClip(wav);
      }
    }
  }

  datatype WireEvent = Audio | Idle | Closed

  // How often a session looks at the wire before it finds it closed.
  function Reads(received: seq<WireEvent>): nat {
    if received == [] || received[0].Closed? then 1 else 1 + Reads(received[1..])
  }

  // The first `n` steps of the interleaving left nothing to send.
  ghost predicate EmptyAt(trace: seq<Step>, n: nat) {
    n <= |trace| && After(trace[..n]).Some? && After(trace[..n]).value.queue == []
  }

  // The queue was empty at each of these moments, all of them after `start`.
  ghost predicate Emptied(trace: seq<Step>, start: nat, moments: seq<nat>) {
    forall n | n in moments :: n > start && EmptyAt(trace, n)
  }

  lemma {:induction false} EmptiedStays(trace: seq<Step>, longer: seq<Step>, start: nat, moments: seq<nat>)
    requires trace <= longer && Emptied(trace, start, moments)
    ensures Emptied(longer, start, moments)
  {
    forall n | n in moments ensures EmptyAt(longer, n) {
      assert EmptyAt(trace, n) && longer[..n] == trace[..n];
    }
  }

  lemma {:induction false} EmptiedAgain(trace: seq<Step>, start: nat, moments: seq<nat>, n: nat)
    requires Emptied(trace, start, moments) && n > start && EmptyAt(trace, n)
    ensures Emptied(trace, start, moments + [n])
  {
  }

  /**
   One connection's session: drains the outbox, reads the wire, again and again, while turns push and time passes.
   `sends` and `received` are the wire's answers; when they run out the connection is dead. Unless a send fails the
   outbox has been emptied before every look at the wire, and only turns touch it after the last one.
   */
  method RunAudioSession(outbox: Outbox, sends: seq<bool>, received: seq<WireEvent>)
      returns (sent: seq<Clip>, dead: bool, ghost emptied: seq<nat>)
    requires outbox.Valid() && outbox.connections == 0
    modifies outbox
    ensures outbox.Valid() && old(outbox.trace) <= outbox.trace
    ensures outbox.connections == 0
    ensures outbox.delivered == old(outbox.delivered) + sent && |sent| <= |sends|
    ensures Emptied(outbox.trace, |old(outbox.trace)|, emptied)
    ensures dead ==> outbox.queue != [] && (|sent| < |sends| ==> !sends[|sent|])
    ensures !dead ==> |emptied| == Reads(received) &&
                      TurnsOnly(outbox.trace, emptied[|emptied| - 1], |outbox.trace| - 1)
  {
    ghost var start := |outbox.trace|;
    Attach(outbox);
    sent, emptied := [], [];
    var r := 0;
    while true
      invariant outbox.Valid() && old(outbox.trace) <= outbox.trace && |outbox.trace| > start
      invariant outbox.connections == 1 && outbox.hands == multiset{}
      invariant outbox.delivered == old(outbox.delivered) + sent && |sent| <= |sends|
      invariant r <= |received| && |emptied| == r && r + Reads(received[r..]) == Reads(received)
      invariant Emptied(outbox.trace, start, emptied)
      decreases |received| - r
    {
      var more;
      more, dead, emptied := DrainAndWait(outbox, sends, |sent|, start, emptied);
      sent := sent + more;
      if dead {
        return;
      }
      if r == |received| || received[r].Closed? {
        Detach(outbox, start, emptied);
        return;
      }
      assert received[r..][1..] == received[r + 1..];
      r := r + 1;
    }
  }

  // One turn of a session's loop, up to its look at the wire.
  method DrainAndWait(outbox: Outbox, sends: seq<bool>, from: nat, ghost start: nat, ghost before: seq<nat>)
      returns (sent: seq<Clip>, dead: bool, ghost emptied: seq<nat>)
    requires outbox.Valid() && outbox.connections == 1 && outbox.hands == multiset{}
    requires Emptied(outbox.trace, start, before) && |outbox.trace| > start && from <= |sends|
    modifies outbox
    ensures outbox.Valid() && old(outbox.trace) <= outbox.trace
    ensures outbox.hands == multiset{} && outbox.connections == (if dead then 0 else 1)
    ensures outbox.delivered == old(outbox.delivered) + sent && from + |sent| <= |sends|
    ensures Emptied(outbox.trace, start, emptied)
    ensures dead ==> emptied == before && outbox.queue != [] && (from + |sent| < |sends| ==> !sends[from + |sent|])
    ensures !dead ==> |emptied| == |before| + 1 && TurnsOnly(outbox.trace, emptied[|before|], |outbox.trace|)
  {
    ghost var was := outbox.trace;
    sent, dead := DrainOutbox(outbox, sends[from..]);
    emptied := before;
    EmptiedStays(was, outbox.trace, start, emptied);
    if !dead {
      ghost var drained := outbox.trace;
      assert drained[..|drained|] == drained;
      EmptiedAgain(drained, start, emptied, |drained|);
      emptied := emptied + [|drained|];
      TurnsRun(outbox);
      EmptiedStays(drained, outbox.trace, start, emptied);
    }
  }

  method Attach(outbox: Outbox)
    requires outbox.Valid() && outbox.connections == 0
    modifies outbox
    ensures outbox.Valid() && old(outbox.trace) < outbox.trace
    ensures outbox.connections == 1 && outbox.hands == multiset{} && outbox.delivered == old(outbox.delivered)
  {
    NothingLost(outbox.trace);
    assert |outbox.hands| == 0;
    outbox.Open();
  }

  method Detach(outbox: Outbox, ghost start: nat, ghost moments: seq<nat>)
    requires outbox.Valid() && outbox.connections == 1 && outbox.hands == multiset{}
    requires Emptied(outbox.trace, start, moments)
    modifies outbox
    ensures outbox.Valid() && outbox.trace == old(outbox.trace) + [Close] && Emptied(outbox.trace, start, moments)
    ensures outbox.connections == 0 && outbox.delivered == old(outbox.delivered)
  {
    ghost var before := outbox.trace;
    outbox.Shut();
    EmptiedStays(before, outbox.trace, start, moments);
  }

  // `while let Some(clip) = try_pop()`: ends when the queue is empty, or puts the clip back when a send fails.
  method DrainOutbox(outbox: Outbox, sends: seq<bool>) returns (sent: seq<Clip>, dead: bool)
    requires outbox.Valid() && outbox.connections == 1 && outbox.hands == multiset{}
    modifies outbox
    ensures outbox.Valid() && old(outbox.trace) <= outbox.trace
    ensures outbox.hands == multiset{} && outbox.connections == (if dead then 0 else 1)
    ensures outbox.delivered == old(outbox.delivered) + sent && |sent| <= |sends|
    ensures forall i | 0 <= i < |sent| :: sends[i]
    ensures !dead ==> outbox.queue == []
    ensures dead ==> outbox.queue != [] && (|sent| < |sends| ==> !sends[|sent|])
  {
    sent := [];
    while true
      invariant outbox.Valid() && old(outbox.trace) <= outbox.trace
      invariant outbox.connections == 1 && outbox.hands == multiset{}
      invariant outbox.delivered == old(outbox.delivered) + sent && |sent| <= |sends|
      invariant forall i | 0 <= i < |sent| :: sends[i]
      decreases |sends| - |sent|
    {
      var ok := |sent| < |sends| && sends[|sent|];
      var clip := DrainOne(outbox, ok);
      if clip.None? {
        return sent, false;
      }
      if !ok {
        return sent, true;
      }
      sent := sent + [clip.value];
    }
  }

  // One turn of the drain: nothing left, or a clip sent, or put back with the connection gone.
  method DrainOne(outbox: Outbox, ok: bool) returns (clip: Option<Clip>)
    requires outbox.Valid() && outbox.connections == 1 && outbox.hands == multiset{}
    modifies outbox
    ensures outbox.Valid() && old(outbox.trace) <= outbox.trace && outbox.hands == multiset{}
    ensures outbox.connections == if clip.Some? && !ok then 0 else 1
    ensures outbox.delivered == old(outbox.delivered) + if clip.Some? && ok then [clip.value] else []
    ensures clip.None? ==> outbox.queue == []
    ensures clip.Some? && !ok ==> outbox.queue != []
  {
    clip := TakeNext(outbox);
    if clip.Some? {
      SendClip(outbox, clip.value, ok);
    }
  }

  method TakeNext(outbox: Outbox) returns (clip: Option<Clip>)
    requires outbox.Valid() && outbox.connections == 1 && outbox.hands == multiset{}
    modifies outbox
    ensures outbox.Valid() && old(outbox.trace) <= outbox.trace
    ensures outbox.hands == (if clip.Some? then multiset{clip.value} else multiset{})
    ensures outbox.connections == 1 && outbox.delivered == old(outbox.delivered)
    ensures clip.None? ==> outbox.queue == []
  {
    ghost var queuedAt;
    clip, queuedAt := outbox.PopNext();
  }

  method SendClip(outbox: Outbox, clip: Clip, ok: bool)
    requires outbox.Valid() && outbox.connections == 1 && outbox.hands == multiset{clip}
    modifies outbox
    ensures outbox.Valid() && old(outbox.trace) <= outbox.trace
    ensures outbox.hands == multiset{} && outbox.connections == (if ok then 1 else 0)
    ensures outbox.delivered == old(outbox.delivered) + (if ok then [clip] else [])
    ensures !ok ==> outbox.queue != []
  {
    TurnsRun(outbox);
    if ok {
      outbox.Sent(clip);
    } else {
      outbox.PushFront(clip);
    }
  }
}
