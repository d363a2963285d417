/** The listening state machine and the voice-activity smoother in front of it, counted in chunks. */
module ListeningSession {

  datatype SessionConfig = SessionConfig(
    hangover: nat, followUpWindow: nat, maxUtterance: nat, minUtterance: nat, settle: nat, coldStart: nat)

  datatype ListenMode = WakeWord | FollowUp

  datatype Action =
    | Idle | StartCapture | Capture | RestartCapture
    | Complete | CompleteMaxDuration | Discard | Expired

  datatype State = ColdStart | Settling | Waiting | Listening | Capturing

  /** One chunk's observations. */
  datatype Heard = Heard(speech: bool, wake: bool)

  /** The fields of a session that change. */
  datatype Counters = Counters(state: State, elapsed: nat, silence: nat, speechChunks: nat, captured: nat)

  function Fresh(): Counters { Counters(ColdStart, 0, 0, 0, 0) }

  function Resumed(): Counters { Fresh().(state := Settling) }

  function Enter(c: Counters, state: State): Counters {
    c.(state := state, elapsed := 0, silence := 0)
  }

  function Observed(config: SessionConfig, mode: ListenMode, c: Counters, h: Heard): (Counters, Action) {
    match c.state
    case ColdStart => (Ticked(c, config.coldStart), Idle)
    case Settling => (Ticked(c, config.settle), Idle)
    case Waiting => ObservedWaiting(config, mode, c, h)
    case Listening =>
      if h.wake then Started(c)
      else if h.speech then (c.(silence := 0), Idle)
      else if c.silence + 1 >= config.hangover then (Enter(c.(silence := c.silence + 1), Waiting), Idle)
      else (c.(silence := c.silence + 1), Idle)
    case Capturing => ObservedCapturing(config, c, h)
  }

  function Ticked(c: Counters, window: nat): Counters {
    var c' := c.(elapsed := c.elapsed + 1);
    if c'.elapsed >= window then Enter(c', Waiting) else c'
  }

  function Started(c: Counters): (Counters, Action) {
    (Enter(c, Capturing).(captured := 1, speechChunks := 0, silence := 0), StartCapture)
  }

  function ObservedWaiting(config: SessionConfig, mode: ListenMode, c: Counters, h: Heard): (Counters, Action) {
    if mode == FollowUp then
      if h.speech then Started(c)
      else
        var c' := c.(elapsed := c.elapsed + 1);
        (c', if c'.elapsed >= config.followUpWindow then Expired else Idle)
    else if h.wake then Started(c)
    else if h.speech then (Enter(c, Listening), Idle)
    else (c, Idle)
  }

  function ObservedCapturing(config: SessionConfig, c: Counters, h: Heard): (Counters, Action) {
    if h.wake then
      (c.(captured := 1, speechChunks := if h.speech then 1 else 0, silence := 0), RestartCapture)
    else
      var c1 := c.(captured := c.captured + 1);
      var c2 := if h.speech then c1.(speechChunks := c1.speechChunks + 1, silence := 0)
                else c1.(silence := c1.silence + 1);
      if c2.captured >= config.maxUtterance then (Enter(c2, Waiting), CompleteMaxDuration)
      else if c2.silence >= config.hangover then
        (Enter(c2, Waiting), if c2.speechChunks >= config.minUtterance then Complete else Discard)
      else (c2, Capture)
  }

  class Session {
    const config: SessionConfig
    const mode: ListenMode
    var state: State
    var elapsed: nat
    var silence: nat
    var speechChunks: nat
    var captured: nat

    function View(): Counters
      reads this
    {
      Counters(state, elapsed, silence, speechChunks, captured)
    }

    constructor New(config: SessionConfig, mode: ListenMode)
      ensures this.config == config && this.mode == mode && View() == Fresh()
    {
      this.config, this.mode := config, mode;
      state, elapsed, silence, speechChunks, captured := ColdStart, 0, 0, 0, 0;
    }

    constructor Resume(config: SessionConfig, mode: ListenMode)
      ensures this.config == config && this.mode == mode && View() == Resumed()
    {
      this.config, this.mode := config, mode;
      state, elapsed, silence, speechChunks, captured := Settling, 0, 0, 0, 0;
    }

    /** Reports one chunk of observations and returns what to do with it. */
    method Observe(speech: bool, wake: bool) returns (action: Action)
      modifies this
      ensures (View(), action) == Observed(config, mode, old(View()), Heard(speech, wake))
    {
      match state {
        case ColdStart => TickDiscard(config.coldStart); action := Idle;
        case Settling => TickDiscard(config.settle); action := Idle;
        case Waiting => action := ObserveIdle(speech, wake);
        case Listening => action := ObserveListening(speech, wake);
        case Capturing => action := ObserveCapturing(speech, wake);
      }
    }

    method TickDiscard(window: nat)
      modifies this
      ensures View() == Ticked(old(View()), window)
    {
      elapsed := elapsed + 1;
      if elapsed >= window {
        EnterState(Waiting);
      }
    }

    method ObserveIdle(speech: bool, wake: bool) returns (action: Action)
      modifies this
      ensures (View(), action) == ObservedWaiting(config, mode, old(View()), Heard(speech, wake))
    {
      if mode == FollowUp {
        if speech {
          action := Start();
          return;
        }
        elapsed := elapsed + 1;
        if elapsed >= config.followUpWindow {
          return Expired;
        }
        return Idle;
      }
      if wake {
        action := Start();
        return;
      }
      if speech {
        EnterState(Listening);
      }
      return Idle;
    }

    method ObserveListening(speech: bool, wake: bool) returns (action: Action)
      requires state == Listening
      modifies this
      ensures (View(), action) == Observed(config, mode, old(View()), Heard(speech, wake))
    {
      if wake {
        action := Start();
        return;
      }
      if speech {
        silence := 0;
      } else {
        silence := silence + 1;
        if silence >= config.hangover {
          EnterState(Waiting);
        }
      }
      return Idle;
    }

    method ObserveCapturing(speech: bool, wake: bool) returns (action: Action)
      modifies this
      ensures (View(), action) == ObservedCapturing(config, old(View()), Heard(speech, wake))
    {
      if wake {
        captured := 1;
        speechChunks := if speech then 1 else 0;
        silence := 0;
        return RestartCapture;
      }
      captured := captured + 1;
      if speech {
        speechChunks := speechChunks + 1;
        silence := 0;
      } else {
        silence := silence + 1;
      }
      if captured >= config.maxUtterance {
        EnterState(Waiting);
        return CompleteMaxDuration;
      }
      if silence >= config.hangover {
        var complete := speechChunks >= config.minUtterance;
        EnterState(Waiting);
        return if complete then Complete else Discard;
      }
      return Capture;
    }

    method Start() returns (action: Action)
      modifies this
      ensures (View(), action) == Started(old(View()))
    {
      EnterState(Capturing);
      captured := 1;
      speechChunks := 0;
      silence := 0;
      return StartCapture;
    }

    method EnterState(s: State)
      modifies this
      ensures View() == Enter(old(View()), s)
    {
      state := s;
      elapsed := 0;
      silence := 0;
    }
  }

  // ----- Whole runs.

  datatype RunResult = RunResult(counters: Counters, actions: seq<Action>)

  function Run(config: SessionConfig, mode: ListenMode, first: Counters, heard: seq<Heard>): (r: RunResult)
    ensures |r.actions| == |heard|
  {
    if heard == [] then RunResult(first, [])
    else
      var r0 := Run(config, mode, first, heard[..|heard| - 1]);
      var (c, a) := Observed(config, mode, r0.counters, heard[|heard| - 1]);
      RunResult(c, r0.actions + [a])
  }

  predicate Opening(c: Counters) {
    c == Fresh() || c == Resumed()
  }

  // The chunks burnt before a session opens: at least one, whatever the configured window.
  function WarmUp(config: SessionConfig, first: Counters): nat {
    var window := if first.state == ColdStart then config.coldStart else config.settle;
    if window == 0 then 1 else window
  }

  // ----- History, read off the actions and observations alone.

  predicate IsTrigger(a: Action) {
    a == StartCapture || a == RestartCapture
  }

  predicate InCapture(actions: seq<Action>) {
    actions != [] && (IsTrigger(actions[|actions| - 1]) || actions[|actions| - 1] == Capture)
  }

  // Index of the last start or restart, -1 if there was none.
  function LastTrigger(actions: seq<Action>): (k: int)
    ensures -1 <= k < |actions|
  {
    if actions == [] then -1
    else if IsTrigger(actions[|actions| - 1]) then |actions| - 1
    else LastTrigger(actions[..|actions| - 1])
  }

  // Silent chunks at the end of `heard[from..]`.
  function TrailingSilence(heard: seq<Heard>, from: nat): (n: nat)
    ensures n <= |heard|
  {
    if |heard| <= from || heard[|heard| - 1].speech then 0
    else 1 + TrailingSilence(heard[..|heard| - 1], from)
  }

  function SpeechFrom(heard: seq<Heard>, from: nat): nat {
    if |heard| <= from then 0
    else SpeechFrom(heard[..|heard| - 1], from) + (if heard[|heard| - 1].speech then 1 else 0)
  }

  // The speech a capture begun at `k` counts: a restart counts its own chunk, a start does not.
  function CountedSpeech(heard: seq<Heard>, actions: seq<Action>, k: nat): nat
    requires k < |heard| && |actions| == |heard|
  {
    SpeechFrom(heard, k + 1) + (if actions[k] == RestartCapture && heard[k].speech then 1 else 0)
  }

  // Chunks since the session opened, or since the last capture ended, whichever is later.
  function QuietRun(actions: seq<Action>, warmUp: nat): nat {
    if |actions| <= warmUp || (actions[|actions| - 1] != Idle && actions[|actions| - 1] != Expired) then 0
    else 1 + QuietRun(actions[..|actions| - 1], warmUp)
  }

  /** What the next chunk must lead to, given only what was heard and done so far. */
  function Expected(config: SessionConfig, mode: ListenMode, warmUp: nat,
                    heard: seq<Heard>, actions: seq<Action>, h: Heard): Action
    requires |actions| == |heard|
  {
    if |heard| < warmUp then Idle
    else if InCapture(actions) then
      var k := LastTrigger(actions);
      if h.wake then RestartCapture
      else if |heard| - k + 1 >= config.maxUtterance then CompleteMaxDuration
      else if TrailingSilence(heard + [h], if k < 0 then 0 else k + 1) >= config.hangover then
        var spoken := (if k < 0 then 0 else CountedSpeech(heard, actions, k)) + (if h.speech then 1 else 0);
        if spoken >= config.minUtterance then Complete else Discard
      else Capture
    else if mode == FollowUp then
      if h.speech then StartCapture
      else if QuietRun(actions, warmUp) + 1 >= config.followUpWindow then Expired
      else Idle
    else if h.wake then StartCapture
    else Idle
  }

  /** Every counter is a function of the history since the last start or restart. */
  ghost predicate CountersMatch(config: SessionConfig, mode: ListenMode, first: Counters, heard: seq<Heard>,
                                r: RunResult)
    requires |r.actions| == |heard|
  {
    var c := r.counters;
    var warmUp := WarmUp(config, first);
    && (|heard| < warmUp <==> c.state == ColdStart || c.state == Settling)
    && (|heard| < warmUp ==> c == first.(elapsed := |heard|) && forall a | a in r.actions :: a == Idle)
    && (c.state == Capturing <==> InCapture(r.actions))
    && (c.state == Listening ==> mode == WakeWord)
    && (c.state == Waiting && mode == FollowUp ==> c.elapsed == QuietRun(r.actions, warmUp))
    && (c.state == Capturing ==>
          var k := LastTrigger(r.actions);
          && 0 <= k
          && c.captured == |heard| - k
          && c.silence == TrailingSilence(heard, k + 1)
          && c.speechChunks == CountedSpeech(heard, r.actions, k))
  }

  lemma {:induction false} CountersFromHistory(config: SessionConfig, mode: ListenMode, first: Counters,
      heard: seq<Heard>)
    requires Opening(first)
    ensures CountersMatch(config, mode, first, heard, Run(config, mode, first, heard))
  {
    if heard != [] {
      var n := |heard| - 1;
      CountersFromHistory(config, mode, first, heard[..n]);
      CountersStep(config, mode, first, heard[..n], Run(config, mode, first, heard[..n]), heard[n]);
      assert heard[..n] + [heard[n]] == heard;
    }
  }

  lemma {:induction false} CountersStep(config: SessionConfig, mode: ListenMode, first: Counters, heard: seq<Heard>,
      r: RunResult, h: Heard)
    requires Opening(first) && |r.actions| == |heard|
    requires CountersMatch(config, mode, first, heard, r)
    ensures var (c, a) := Observed(config, mode, r.counters, h);
            && a == Expected(config, mode, WarmUp(config, first), heard, r.actions, h)
            && CountersMatch(config, mode, first, heard + [h], RunResult(c, r.actions + [a]))
  {
    var (c, a) := Observed(config, mode, r.counters, h);
    var heard', actions' := heard + [h], r.actions + [a];
    assert heard'[..|heard|] == heard && actions'[..|heard|] == r.actions;
    if r.counters.state == Capturing {
      CapturingStep(config, mode, first, heard, r, h);
    } else {
      assert !InCapture(r.actions);
    }
  }

  lemma {:induction false} CapturingStep(config: SessionConfig, mode: ListenMode, first: Counters, heard: seq<Heard>,
      r: RunResult, h: Heard)
    requires Opening(first) && |r.actions| == |heard|
    requires CountersMatch(config, mode, first, heard, r)
    requires r.counters.state == Capturing
    ensures var (c, a) := ObservedCapturing(config, r.counters, h);
            && a == Expected(config, mode, WarmUp(config, first), heard, r.actions, h)
            && CountersMatch(config, mode, first, heard + [h], RunResult(c, r.actions + [a]))
  {
    var (c, a) := ObservedCapturing(config, r.counters, h);
    var heard', actions' := heard + [h], r.actions + [a];
    assert heard'[..|heard|] == heard && actions'[..|heard|] == r.actions;
    var k := LastTrigger(r.actions);
    assert LastTrigger(actions') == if h.wake then |heard| else if IsTrigger(a) then |heard| else k;
    assert TrailingSilence(heard', k + 1) == if h.speech then 0 else TrailingSilence(heard, k + 1) + 1;
    assert SpeechFrom(heard', k + 1) == SpeechFrom(heard, k + 1) + if h.speech then 1 else 0;
    if h.wake {
      assert LastTrigger(actions') == |heard|;
    }
  }

  /** Each action of a run is the one its history calls for. */
  lemma {:induction false} ActionsFromHistory(config: SessionConfig, mode: ListenMode, first: Counters,
      heard: seq<Heard>, i: nat)
    requires Opening(first) && i < |heard|
    ensures var actions := Run(config, mode, first, heard).actions;
            actions[i] == Expected(config, mode, WarmUp(config, first), heard[..i], actions[..i], heard[i])
  {
    var n := |heard| - 1;
    var actions := Run(config, mode, first, heard).actions;
    var before := Run(config, mode, first, heard[..n]);
    assert actions[..n] == before.actions;
    if i < n {
      ActionsFromHistory(config, mode, first, heard[..n], i);
      assert heard[..n][..i] == heard[..i];
      assert actions[..n][..i] == actions[..i];
    } else {
      CountersFromHistory(config, mode, first, heard[..n]);
      CountersStep(config, mode, first, heard[..n], before, heard[n]);
    }
  }

  lemma {:induction false} PrefixRun(config: SessionConfig, mode: ListenMode, first: Counters, heard: seq<Heard>,
      i: nat)
    requires i <= |heard|
    ensures Run(config, mode, first, heard[..i]).actions == Run(config, mode, first, heard).actions[..i]
    decreases |heard|
  {
    if i < |heard| {
      PrefixRun(config, mode, first, heard[..|heard| - 1], i);
      assert heard[..|heard| - 1][..i] == heard[..i];
    } else {
      assert heard[..i] == heard;
    }
  }

  /** The action grammar, read off adjacent actions: idle, start, (capture or restart)*, complete or max or discard. */
  lemma {:induction false} ActionGrammar(config: SessionConfig, mode: ListenMode, first: Counters, heard: seq<Heard>,
      i: nat)
    requires Opening(first) && i < |heard|
    ensures var actions := Run(config, mode, first, heard).actions;
            && (InCapture(actions[..i]) <==>
                  actions[i] in {Capture, RestartCapture, Complete, CompleteMaxDuration, Discard})
            && (!InCapture(actions[..i]) <==> actions[i] in {Idle, StartCapture, Expired})
            && (actions[i] == Expired ==> mode == FollowUp && !heard[i].speech)
  {
    ActionsFromHistory(config, mode, first, heard, i);
    CountersFromHistory(config, mode, first, heard[..i]);
    PrefixRun(config, mode, first, heard, i);
  }

  lemma {:induction false} TrailingSilenceMeans(heard: seq<Heard>, from: nat)
    requires from <= |heard|
    ensures var n := TrailingSilence(heard, from);
            && n <= |heard| - from
            && (forall j | |heard| - n <= j < |heard| :: !heard[j].speech)
            && (n < |heard| - from ==> heard[|heard| - n - 1].speech)
  {
    if |heard| > from && !heard[|heard| - 1].speech {
      TrailingSilenceMeans(heard[..|heard| - 1], from);
    }
  }

  lemma {:induction false} LastTriggerMeans(actions: seq<Action>)
    ensures var k := LastTrigger(actions);
            && (k >= 0 ==> IsTrigger(actions[k]))
            && (forall j | k < j < |actions| :: !IsTrigger(actions[j]))
  {
    if actions != [] {
      LastTriggerMeans(actions[..|actions| - 1]);
    }
  }

  // What a completion at the last of `heard` says about the capture that began at `k`.
  ghost predicate CompletedAfter(config: SessionConfig, heard: seq<Heard>, actions: seq<Action>, k: int) {
    && |actions| + 1 == |heard|
    && 0 <= k < |actions|
    && IsTrigger(actions[k])
    && |heard| - config.hangover > k
    && (forall j | k < j < |heard| && |heard| - config.hangover <= j :: !heard[j].speech)
    && CountedSpeech(heard[..|actions|], actions, k) + (if heard[|actions|].speech then 1 else 0)
       >= config.minUtterance
  }

  lemma {:induction false} ExpectedComplete(config: SessionConfig, mode: ListenMode, warmUp: nat, heard: seq<Heard>,
      actions: seq<Action>)
    requires |actions| + 1 == |heard| && LastTrigger(actions) >= 0
    requires Expected(config, mode, warmUp, heard[..|actions|], actions, heard[|actions|]) == Complete
    ensures CompletedAfter(config, heard, actions, LastTrigger(actions))
  {
    LastTriggerMeans(actions);
    assert heard[..|actions|] + [heard[|actions|]] == heard;
    TrailingSilenceMeans(heard, LastTrigger(actions) + 1);
  }

  /** A completed utterance really ended in `hangover` silent chunks after its start, with enough counted speech. */
  lemma {:induction false} CompleteMeans(config: SessionConfig, mode: ListenMode, first: Counters, heard: seq<Heard>,
      i: nat)
    requires Opening(first) && i < |heard|
    requires Run(config, mode, first, heard).actions[i] == Complete
    ensures var actions := Run(config, mode, first, heard).actions;
            CompletedAfter(config, heard[..i + 1], actions[..i], LastTrigger(actions[..i]))
  {
    var actions := Run(config, mode, first, heard).actions;
    ActionsFromHistory(config, mode, first, heard, i);
    ActionGrammar(config, mode, first, heard, i);
    InCaptureHasTrigger(config, mode, first, heard, i);
    assert heard[..i + 1][..i] == heard[..i];
    ExpectedComplete(config, mode, WarmUp(config, first), heard[..i + 1], actions[..i]);
  }

  lemma {:induction false} InCaptureHasTrigger(config: SessionConfig, mode: ListenMode, first: Counters,
      heard: seq<Heard>, i: nat)
    requires Opening(first) && i < |heard|
    requires InCapture(Run(config, mode, first, heard).actions[..i])
    ensures LastTrigger(Run(config, mode, first, heard).actions[..i]) >= 0
  {
    CountersFromHistory(config, mode, first, heard[..i]);
    PrefixRun(config, mode, first, heard, i);
  }

  function CaptureCap(config: SessionConfig): nat {
    if config.maxUtterance <= 2 then 1 else config.maxUtterance - 1
  }

  /** A capture that has not ended is never longer than one chunk short of the cap. */
  lemma {:induction false} CaptureBounded(config: SessionConfig, mode: ListenMode, first: Counters, heard: seq<Heard>)
    requires Opening(first)
    ensures var c := Run(config, mode, first, heard).counters;
            c.state == Capturing ==> c.captured <= CaptureCap(config) && c.speechChunks <= c.captured
  {
    if heard != [] {
      CaptureBounded(config, mode, first, heard[..|heard| - 1]);
    }
  }

  // ----- The speech gate.

  /** Latch state; probabilities are exact reals. */
  datatype GateView = GateView(consecutive: nat, active: bool)

  class SpeechGate {
    const enterThreshold: real
    const exitThreshold: real
    const enterChunks: nat
    var consecutive: nat
    var active: bool

    function View(): GateView
      reads this
    {
      GateView(consecutive, active)
    }

    constructor (enterThreshold: real, exitThreshold: real, enterChunks: nat)
      ensures this.enterThreshold == enterThreshold && this.exitThreshold == exitThreshold
      ensures this.enterChunks == enterChunks && View() == GateView(0, false)
    {
      this.enterThreshold, this.exitThreshold, this.enterChunks := enterThreshold, exitThreshold, enterChunks;
      consecutive, active := 0, false;
    }

    /** Feeds one chunk's probability and returns whether speech is active. */
    method Update(probability: real) returns (speech: bool)
      modifies this
      ensures View() == Gated(enterThreshold, exitThreshold, enterChunks, old(View()), probability)
      ensures speech == active
    {
      if active {
        if probability < exitThreshold {
          active := false;
          consecutive := 0;
        }
        return active;
      }
      if probability > enterThreshold {
        consecutive := consecutive + 1;
        if consecutive >= enterChunks {
          active := true;
        }
      } else {
        if probability < exitThreshold {
          consecutive := 0;
        }
      }
      return active;
    }
  }

  function Gated(enter: real, exit: real, enterChunks: nat, g: GateView, p: real): GateView {
    if g.active then (if p < exit then GateView(0, false) else g)
    else if p > enter then GateView(g.consecutive + 1, g.consecutive + 1 >= enterChunks)
    else if p < exit then GateView(0, false)
    else g
  }

  function GateRun(enter: real, exit: real, enterChunks: nat, ps: seq<real>): GateView {
    if ps == [] then GateView(0, false)
    else Gated(enter, exit, enterChunks, GateRun(enter, exit, enterChunks, ps[..|ps| - 1]), ps[|ps| - 1])
  }

  // Above-enter chunks since the last below-exit one.
  function ConfidentSinceExit(enter: real, exit: real, ps: seq<real>): nat {
    if ps == [] || ps[|ps| - 1] < exit then 0
    else ConfidentSinceExit(enter, exit, ps[..|ps| - 1]) + (if ps[|ps| - 1] > enter then 1 else 0)
  }

  ghost predicate GateClosedForm(enter: real, exit: real, enterChunks: nat, ps: seq<real>) {
    GateRun(enter, exit, enterChunks, ps).active <==>
    ConfidentSinceExit(enter, exit, ps) >= (if enterChunks == 0 then 1 else enterChunks)
  }

  lemma {:induction false} GateCounts(enter: real, exit: real, enterChunks: nat, ps: seq<real>)
    requires exit <= enter
    ensures GateClosedForm(enter, exit, enterChunks, ps)
    ensures !GateRun(enter, exit, enterChunks, ps).active ==>
              GateRun(enter, exit, enterChunks, ps).consecutive == ConfidentSinceExit(enter, exit, ps)
  {
    if ps != [] {
      GateCounts(enter, exit, enterChunks, ps[..|ps| - 1]);
    }
  }

  // Probabilities between swapped thresholds latch speech although every one is below exit.
  lemma {:induction false} SwappedThresholdsLatch(enter: real, exit: real, enterChunks: nat, p: real, n: nat)
    requires enter < p < exit && n <= enterChunks
    ensures GateRun(enter, exit, enterChunks, seq(n, _ => p))
            == GateView(n, n > 0 && n >= enterChunks)
    ensures ConfidentSinceExit(enter, exit, seq(n, _ => p)) == 0
  {
    if n > 0 {
      SwappedThresholdsLatch(enter, exit, enterChunks, p, n - 1);
      assert seq(n, _ => p)[..n - 1] == seq(n - 1, _ => p);
    }
  }

  /** Counting describes the gate on every input exactly when the exit threshold is not above the enter threshold. */
  lemma {:induction false} GateClosedFormExactly(enter: real, exit: real, enterChunks: nat)
    ensures (forall ps: seq<real> :: GateClosedForm(enter, exit, enterChunks, ps)) <==> exit <= enter
  {
    if exit <= enter {
      forall ps: seq<real> ensures GateClosedForm(enter, exit, enterChunks, ps) {
        GateCounts(enter, exit, enterChunks, ps);
      }
    } else {
      var p := (enter + exit) / 2.0;
      if enterChunks == 0 {
        var one := seq(1, _ => p);
        assert one[..0] == [] && one[0] == p;
        assert GateRun(enter, exit, enterChunks, one) == Gated(enter, exit, enterChunks, GateView(0, false), p);
        assert !GateClosedForm(enter, exit, enterChunks, one);
      } else {
        SwappedThresholdsLatch(enter, exit, enterChunks, p, enterChunks);
        assert !GateClosedForm(enter, exit, enterChunks, seq(enterChunks, _ => p));
      }
    }
  }
}
