/**
 The listening loop: microphone chunks in, exactly the right run of them out to the transcriber.
 The voice detector, wake detector, manual trigger and transcriber may answer anything.
 */
module Listening {
  import opened Audio
  import opened AudioRing
  import opened ListeningSession
  import opened Wrappers

  // Chunks kept beyond the largest look-back.
  const RING_MARGIN: nat := 8

  datatype ListenerConfig = ListenerConfig(
    session: SessionConfig, wakePriming: nat, wakePreRoll: nat, followUpPreRoll: nat)

  datatype ListenError = AudioSourceClosed | TranscribeFailed

  // ----- What a capture holds.

  lemma {:induction false} FlattenSuffix(chunks: seq<Chunk>, i: nat)
    requires i <= |chunks|
    ensures i * CHUNK_SAMPLES <= |Flatten(chunks)|
    ensures Flatten(chunks[i..]) == Flatten(chunks)[i * CHUNK_SAMPLES..]
  {
    FlattenLength(chunks);
    if i < |chunks| {
      var n := |chunks| - 1;
      FlattenLength(chunks[..n]);
      FlattenSuffix(chunks[..n], i);
      assert chunks[..n][i..] == chunks[i..][..n - i];
    }
  }

  function RingChunks(config: ListenerConfig): nat {
    var a := if config.wakePriming > config.wakePreRoll then config.wakePriming else config.wakePreRoll;
    (if a > config.followUpPreRoll then a else config.followUpPreRoll) + RING_MARGIN
  }

  function PreRollChunks(config: ListenerConfig, mode: ListenMode): nat {
    if mode == WakeWord then config.wakePreRoll else config.followUpPreRoll
  }

  // A restart always uses the wake-word look-back, whatever the mode.
  function TriggerMode(mode: ListenMode, trigger: Action): ListenMode {
    if trigger == RestartCapture then WakeWord else mode
  }

  // The window of `chunks` chunks ending at the last one heard, or nothing when fewer have been heard.
  function PreRoll(heard: seq<Chunk>, chunks: nat): seq<Sample> {
    if chunks <= |heard| then Flatten(heard[|heard| - chunks..]) else []
  }

  // A capture up to chunk `end`, begun by `trigger` on chunk `start`.
  function CaptureFrom(config: ListenerConfig, mode: ListenMode, heard: seq<Chunk>, start: nat, end: nat,
      trigger: Action): seq<Sample>
    requires start < end <= |heard|
  {
    PreRoll(heard[..start + 1], PreRollChunks(config, TriggerMode(mode, trigger))) + Flatten(heard[start..end])
  }

  lemma {:induction false} CaptureFromNext(config: ListenerConfig, mode: ListenMode, heard: seq<Chunk>, start: nat,
      end: nat, trigger: Action)
    requires start < end < |heard|
    ensures CaptureFrom(config, mode, heard, start, end + 1, trigger)
            == CaptureFrom(config, mode, heard, start, end, trigger) + heard[end]
  {
    assert heard[start..end + 1][..end - start] == heard[start..end];
  }

  /**
   The capture under way after `actions`, the first of them taken on chunk `base`: the look-back window that
   ends with the trigger chunk, then the trigger chunk (again) and every chunk since.
   */
  function CaptureAudio(config: ListenerConfig, mode: ListenMode, heard: seq<Chunk>, base: nat, actions: seq<Action>):
    seq<Sample>
    requires base + |actions| <= |heard|
  {
    var k := LastTrigger(actions);
    if k < 0 then [] else CaptureFrom(config, mode, heard, base + k, base + |actions|, actions[k])
  }

  /** Everything a listen hands to the transcriber: at each completion, the capture without the completing chunk. */
  function HandedOver(config: ListenerConfig, mode: ListenMode, heard: seq<Chunk>, base: nat, actions: seq<Action>):
    seq<seq<Sample>>
    requires base + |actions| <= |heard|
  {
    if actions == [] then []
    else
      var before := actions[..|actions| - 1];
      var last := actions[|actions| - 1];
      HandedOver(config, mode, heard, base, before)
      + (if last == Complete || last == CompleteMaxDuration then [CaptureAudio(config, mode, heard, base, before)]
         else [])
  }

  lemma {:induction false} CaptureAudioFrame(config: ListenerConfig, mode: ListenMode, heard: seq<Chunk>, base: nat,
      actions: seq<Action>, c: Chunk)
    requires base + |actions| <= |heard|
    ensures CaptureAudio(config, mode, heard + [c], base, actions) == CaptureAudio(config, mode, heard, base, actions)
  {
    var k := LastTrigger(actions);
    if k >= 0 {
      assert (heard + [c])[..base + k + 1] == heard[..base + k + 1];
      assert (heard + [c])[base + k..base + |actions|] == heard[base + k..base + |actions|];
    }
  }

  lemma {:induction false} HandedOverFrame(config: ListenerConfig, mode: ListenMode, heard: seq<Chunk>, base: nat,
      actions: seq<Action>, c: Chunk)
    requires base + |actions| <= |heard|
    ensures HandedOver(config, mode, heard + [c], base, actions) == HandedOver(config, mode, heard, base, actions)
  {
    if actions != [] {
      HandedOverFrame(config, mode, heard, base, actions[..|actions| - 1], c);
      CaptureAudioFrame(config, mode, heard, base, actions[..|actions| - 1], c);
    }
  }

  // One more captured chunk, or a fresh trigger, in terms of the capture before it.
  lemma {:induction false} CaptureAudioStep(config: ListenerConfig, mode: ListenMode, heard: seq<Chunk>, base: nat,
      actions: seq<Action>, a: Action)
    requires base + |actions| + 1 == |heard|
    ensures IsTrigger(a) ==>
              CaptureAudio(config, mode, heard, base, actions + [a])
              == PreRoll(heard, PreRollChunks(config, TriggerMode(mode, a))) + heard[|heard| - 1]
    ensures a == Capture && LastTrigger(actions) >= 0 ==>
              CaptureAudio(config, mode, heard, base, actions + [a])
              == CaptureAudio(config, mode, heard, base, actions) + heard[|heard| - 1]
  {
    if IsTrigger(a) {
      CaptureStarts(config, mode, heard, base, actions, a);
    } else if a == Capture && LastTrigger(actions) >= 0 {
      CaptureGoesOn(config, mode, heard, base, actions);
    }
  }

  lemma {:induction false} CaptureStarts(config: ListenerConfig, mode: ListenMode, heard: seq<Chunk>, base: nat,
      actions: seq<Action>, a: Action)
    requires base + |actions| + 1 == |heard| && IsTrigger(a)
    ensures CaptureAudio(config, mode, heard, base, actions + [a])
            == PreRoll(heard, PreRollChunks(config, TriggerMode(mode, a))) + heard[|heard| - 1]
  {
    var n := |actions|;
    assert LastTrigger(actions + [a]) == n;
    assert heard[..base + n + 1] == heard;
    assert heard[base + n..base + n + 1] == [heard[|heard| - 1]];
    FlattenOne(heard[|heard| - 1]);
  }

  lemma {:induction false} CaptureGoesOn(config: ListenerConfig, mode: ListenMode, heard: seq<Chunk>, base: nat,
      actions: seq<Action>)
    requires base + |actions| + 1 == |heard| && LastTrigger(actions) >= 0
    ensures CaptureAudio(config, mode, heard, base, actions + [Capture])
            == CaptureAudio(config, mode, heard, base, actions) + heard[|heard| - 1]
  {
    LastTriggerStays(actions);
    CaptureFromNext(config, mode, heard, base + LastTrigger(actions), base + |actions|, actions[LastTrigger(actions)]);
  }

  lemma {:induction false} LastTriggerStays(actions: seq<Action>)
    ensures LastTrigger(actions + [Capture]) == LastTrigger(actions)
  {
    assert (actions + [Capture])[..|actions|] == actions;
  }

  lemma {:induction false} FlattenOne(c: Chunk)
    ensures Flatten([c]) == c
  {
    assert [c][..0] == [];
  }

  // `s` ends in `c` twice and then `after`.
  predicate TwiceBefore(s: seq<Sample>, c: Chunk, after: seq<Sample>) {
    |s| >= 2 * |c| + |after| && s[|s| - 2 * |c| - |after|..] == c + c + after
  }

  /**
   The chunk that triggered the capture under way is in it twice exactly when the look-back window is at least one chunk
   and that many have been heard; otherwise the capture starts with it.
   */
  lemma {:induction false} TriggerChunkTwice(config: ListenerConfig, mode: ListenMode, heard: seq<Chunk>, base: nat,
      actions: seq<Action>)
    requires base + |actions| <= |heard| && LastTrigger(actions) >= 0
    ensures var k := LastTrigger(actions);
            var t, preRoll := base + k, PreRollChunks(config, TriggerMode(mode, actions[k]));
            var capture := CaptureAudio(config, mode, heard, base, actions);
            var after := Flatten(heard[t + 1..base + |actions|]);
            && (TwiceBefore(capture, heard[t], after) <==> 1 <= preRoll <= t + 1)
            && (!TwiceBefore(capture, heard[t], after) ==> capture == heard[t] + after)
  {
    var k := LastTrigger(actions);
    var t, preRoll := base + k, PreRollChunks(config, TriggerMode(mode, actions[k]));
    var since := heard[t..base + |actions|];
    FlattenFirst(since);
    assert since[1..] == heard[t + 1..base + |actions|];
    var window := PreRollEnds(heard[..t + 1], preRoll);
    var after := Flatten(since[1..]);
    if 1 <= preRoll <= t + 1 {
      var c: seq<Sample> := heard[t];
      assert window + c + (c + after) == window + (c + c + after);
    }
  }

  // The window before the last chunk of a look-back that is there.
  lemma {:induction false} PreRollEnds(heard: seq<Chunk>, chunks: nat) returns (before: seq<Sample>)
    requires heard != []
    ensures PreRoll(heard, chunks) == if 1 <= chunks <= |heard| then before + heard[|heard| - 1] else []
  {
    before := [];
    if chunks <= |heard| {
      var window := heard[|heard| - chunks..];
      if chunks > 0 {
        assert window[chunks - 1] == heard[|heard| - 1];
        before := Flatten(window[..chunks - 1]);
      }
    }
  }

  // `n` chunks of look-back ending with chunk `t`, if there are that many, and then everything from `t` on.
  predicate OpensWith(capture: seq<Sample>, heard: seq<Chunk>, t: nat, end: nat, n: nat)
    requires t < end <= |heard|
  {
    capture == (if n <= t + 1 then Flatten(heard[t + 1 - n..t + 1]) else []) + Flatten(heard[t..end])
  }

  /** Which look-back a capture opens with: a follow-up's own for its start, the wake word's for everything else. */
  lemma {:induction false} OpeningWindow(config: ListenerConfig, mode: ListenMode, heard: seq<Chunk>, base: nat,
      actions: seq<Action>)
    requires base + |actions| <= |heard| && LastTrigger(actions) >= 0
    ensures var k := LastTrigger(actions);
            var capture := CaptureAudio(config, mode, heard, base, actions);
            && (mode == WakeWord || actions[k] == RestartCapture ==>
                  OpensWith(capture, heard, base + k, base + |actions|, config.wakePreRoll))
            && (mode == FollowUp && actions[k] == StartCapture ==>
                  OpensWith(capture, heard, base + k, base + |actions|, config.followUpPreRoll))
            && (actions[k] == StartCapture || actions[k] == RestartCapture)
  {
    var k := LastTrigger(actions);
    LastTriggerIsOne(actions);
    var window := PreRollChunks(config, TriggerMode(mode, actions[k]));
    if window <= base + k + 1 {
      assert heard[..base + k + 1][base + k + 1 - window..] == heard[base + k + 1 - window..base + k + 1];
    }
  }

  lemma {:induction false} LastTriggerIsOne(actions: seq<Action>)
    requires LastTrigger(actions) >= 0
    ensures IsTrigger(actions[LastTrigger(actions)])
  {
    if !IsTrigger(actions[|actions| - 1]) {
      LastTriggerIsOne(actions[..|actions| - 1]);
    }
  }

  lemma {:induction false} FlattenFirst(chunks: seq<Chunk>)
    requires chunks != []
    ensures Flatten(chunks) == chunks[0] + Flatten(chunks[1..])
  {
    var n := |chunks| - 1;
    if n == 0 {
      FlattenOne(chunks[0]);
      assert chunks == [chunks[0]];
    } else {
      FlattenFirst(chunks[..n]);
      assert chunks[..n][1..] == chunks[1..][..n - 1];
    }
  }

  // In samples: the longer look-back and the utterance cap.
  function LongestCapture(config: ListenerConfig): nat {
    var longest := if config.wakePreRoll > config.followUpPreRoll then config.wakePreRoll else config.followUpPreRoll;
    (longest + CaptureCap(config.session)) * CHUNK_SAMPLES
  }

  lemma {:induction false} CaptureLength(config: ListenerConfig, mode: ListenMode, heard: seq<Chunk>, base: nat,
      first: Counters, run: seq<Heard>)
    requires Opening(first) && base + |run| <= |heard|
    requires InCapture(Run(config.session, mode, first, run).actions)
    ensures |CaptureAudio(config, mode, heard, base, Run(config.session, mode, first, run).actions)|
            <= LongestCapture(config)
  {
    var actions := Run(config.session, mode, first, run).actions;
    CaptureBounded(config.session, mode, first, run);
    CountersFromHistory(config.session, mode, first, run);
    var k := LastTrigger(actions);
    var preRoll := PreRollChunks(config, TriggerMode(mode, actions[k]));
    PreRollLength(heard[..base + k + 1], preRoll);
    FlattenLength(heard[base + k..base + |actions|]);
  }

  lemma {:induction false} PreRollLength(heard: seq<Chunk>, chunks: nat)
    ensures |PreRoll(heard, chunks)| <= chunks * CHUNK_SAMPLES
  {
    if chunks <= |heard| {
      FlattenLength(heard[|heard| - chunks..]);
    }
  }

  predicate NoneLonger(buffers: seq<seq<Sample>>, n: nat) {
    forall b | b in buffers :: |b| <= n
  }

  /** No utterance handed over is longer than the longer look-back plus the utterance cap. */
  lemma {:induction false} HandedOverLength(config: ListenerConfig, mode: ListenMode, heard: seq<Chunk>, base: nat,
      first: Counters, run: seq<Heard>)
    requires Opening(first) && base + |run| <= |heard|
    ensures var actions := Run(config.session, mode, first, run).actions;
            |actions| == |run| && NoneLonger(HandedOver(config, mode, heard, base, actions), LongestCapture(config))
  {
    if run != [] {
      var before, h := run[..|run| - 1], run[|run| - 1];
      HandedOverLength(config, mode, heard, base, first, before);
      assert run == before + [h];
      NextNotLonger(config, mode, heard, base, first, before, h);
    }
  }

  lemma {:induction false} NextNotLonger(config: ListenerConfig, mode: ListenMode, heard: seq<Chunk>, base: nat,
      first: Counters, run: seq<Heard>, h: Heard)
    requires Opening(first) && base + |run| < |heard| && |Run(config.session, mode, first, run).actions| == |run|
    requires NoneLonger(HandedOver(config, mode, heard, base, Run(config.session, mode, first, run).actions),
                        LongestCapture(config))
    ensures |Run(config.session, mode, first, run + [h]).actions| == |run| + 1
    ensures NoneLonger(HandedOver(config, mode, heard, base, Run(config.session, mode, first, run + [h]).actions),
                       LongestCapture(config))
  {
    var a := LastAction(config, mode, first, run, h);
    if a == Complete || a == CompleteMaxDuration {
      CaptureLength(config, mode, heard, base, first, run);
    }
    OneMoreNotLonger(config, mode, heard, base, Run(config.session, mode, first, run).actions, a,
                     LongestCapture(config));
  }

  // A run's last action, and that only a capture under way completes.
  lemma {:induction false} LastAction(config: ListenerConfig, mode: ListenMode, first: Counters, run: seq<Heard>,
      h: Heard)
      returns (a: Action)
    requires Opening(first)
    ensures Run(config.session, mode, first, run + [h]).actions == Run(config.session, mode, first, run).actions + [a]
    ensures |Run(config.session, mode, first, run).actions| == |run|
    ensures a == Complete || a == CompleteMaxDuration ==> InCapture(Run(config.session, mode, first, run).actions)
  {
    ActionStep(config, mode, first, run, h);
    CountersFromHistory(config.session, mode, first, run);
    a := Observed(config.session, mode, Run(config.session, mode, first, run).counters, h).1;
  }

  lemma {:induction false} OneMoreNotLonger(config: ListenerConfig, mode: ListenMode, heard: seq<Chunk>, base: nat,
      actions: seq<Action>, a: Action, n: nat)
    requires base + |actions| < |heard| && NoneLonger(HandedOver(config, mode, heard, base, actions), n)
    requires a == Complete || a == CompleteMaxDuration ==> |CaptureAudio(config, mode, heard, base, actions)| <= n
    ensures NoneLonger(HandedOver(config, mode, heard, base, actions + [a]), n)
  {
    assert (actions + [a])[..|actions|] == actions;
  }

  /** A listen in progress: session counters, buffers handed over and the capture all follow from what was observed. */
  ghost predicate InStep(config: ListenerConfig, mode: ListenMode, first: Counters, heard: seq<Chunk>, base: nat,
                         run: seq<Heard>, c: Counters, handed: seq<seq<Sample>>, capture: seq<Sample>) {
    && base + |run| == |heard|
    && forall r | IsRun(r, config, mode, first, run) && |r.actions| == |run| ::
      && c == r.counters
      && handed == HandedOver(config, mode, heard, base, r.actions)
      && (InCapture(r.actions) ==> capture == CaptureAudio(config, mode, heard, base, r.actions))
  }

  // A name for a run, so that it is only looked into where it is named.
  predicate IsRun(r: RunResult, config: ListenerConfig, mode: ListenMode, first: Counters, run: seq<Heard>) {
    r == Run(config.session, mode, first, run)
  }

  lemma {:induction false} InStepMeans(config: ListenerConfig, mode: ListenMode, first: Counters, heard: seq<Chunk>,
      base: nat, run: seq<Heard>, c: Counters, handed: seq<seq<Sample>>, capture: seq<Sample>)
    requires Opening(first)
    ensures |Run(config.session, mode, first, run).actions| == |run|
    ensures InStep(config, mode, first, heard, base, run, c, handed, capture) <==>
            base + |run| == |heard| &&
            var r := Run(config.session, mode, first, run);
            && c == r.counters && handed == HandedOver(config, mode, heard, base, r.actions)
            && (InCapture(r.actions) ==> capture == CaptureAudio(config, mode, heard, base, r.actions))
  {
    CountersFromHistory(config.session, mode, first, run);
    assert IsRun(Run(config.session, mode, first, run), config, mode, first, run);
  }

  lemma {:induction false} NothingHeardYet(config: ListenerConfig, mode: ListenMode, first: Counters, heard: seq<Chunk>)
    requires Opening(first)
    ensures InStep(config, mode, first, heard, |heard|, [], first, [], [])
  {
    InStepMeans(config, mode, first, heard, |heard|, [], first, [], []);
  }

  // What reacting to `action` does with the capture, and with the buffers handed over.
  ghost predicate Reacted(config: ListenerConfig, mode: ListenMode, heard: seq<Chunk>, chunk: Chunk, action: Action,
                          capture: seq<Sample>, next: seq<Sample>) {
    && (IsTrigger(action) ==> next == PreRoll(heard, PreRollChunks(config, TriggerMode(mode, action))) + chunk)
    && (action == Capture ==> next == capture + chunk)
  }

  function Completed(action: Action, capture: seq<Sample>): seq<seq<Sample>> {
    if action == Complete || action == CompleteMaxDuration then [capture] else []
  }

  // One chunk's worth of actions, in terms of the run and the capture before it.
  lemma {:induction false} ActionStep(config: ListenerConfig, mode: ListenMode, first: Counters, run: seq<Heard>,
      h: Heard)
    requires Opening(first)
    ensures var before := Run(config.session, mode, first, run);
            var (c, a) := Observed(config.session, mode, before.counters, h);
            var actions := before.actions + [a];
            && Run(config.session, mode, first, run + [h]) == RunResult(c, actions)
            && (InCapture(actions) && !IsTrigger(a) ==> InCapture(before.actions))
            && (a == Complete || a == CompleteMaxDuration ==> InCapture(before.actions))
            && (InCapture(before.actions) ==> LastTrigger(before.actions) >= 0)
            && (a == Expired ==> mode == FollowUp)
  {
    assert (run + [h])[..|run|] == run;
    CountersFromHistory(config.session, mode, first, run);
  }

  lemma {:induction false} HandedOverStep(config: ListenerConfig, mode: ListenMode, heard: seq<Chunk>, base: nat,
                                          actions: seq<Action>, a: Action, chunk: Chunk)
    requires base + |actions| == |heard|
    ensures HandedOver(config, mode, heard + [chunk], base, actions + [a])
            == HandedOver(config, mode, heard, base, actions)
               + Completed(a, CaptureAudio(config, mode, heard, base, actions))
  {
    assert (actions + [a])[..|actions|] == actions;
    CaptureAudioFrame(config, mode, heard, base, actions, chunk);
    HandedOverFrame(config, mode, heard, base, actions, chunk);
  }

  // One chunk's worth of a listen keeps it in step.
  lemma {:induction false} ListenStep(config: ListenerConfig, mode: ListenMode, first: Counters, heard: seq<Chunk>,
      base: nat,
                                      run: seq<Heard>, c: Counters, handed: seq<seq<Sample>>, capture: seq<Sample>,
                                      chunk: Chunk, h: Heard, next: seq<Sample>)
    requires Opening(first)
    requires InStep(config, mode, first, heard, base, run, c, handed, capture)
    requires Reacted(config, mode, heard + [chunk], chunk, Observed(config.session, mode, c, h).1, capture, next)
    ensures var (c', a) := Observed(config.session, mode, c, h);
            && InStep(config, mode, first, heard + [chunk], base, run + [h], c', handed + Completed(a, capture), next)
            && (a == Expired ==> mode == FollowUp)
  {
    var actions := Run(config.session, mode, first, run).actions;
    InStepMeans(config, mode, first, heard, base, run, c, handed, capture);
    var (c', a) := Observed(config.session, mode, c, h);
    InStepMeans(config, mode, first, heard + [chunk], base, run + [h], c', handed + Completed(a, capture), next);
    ActionStep(config, mode, first, run, h);
    HandedOverStep(config, mode, heard, base, actions, a, chunk);
    CaptureAudioFrame(config, mode, heard, base, actions, chunk);
    CaptureAudioStep(config, mode, heard + [chunk], base, actions, a);
  }

  // The ring's newest samples are the newest chunks.
  lemma {:induction false} NewestChunks(heard: seq<Chunk>, capacity: nat, chunks: nat)
    requires chunks * CHUNK_SAMPLES <= capacity
    ensures chunks * CHUNK_SAMPLES <= |LastOf(Flatten(heard), capacity)| <==> chunks <= |heard|
    ensures chunks <= |heard| ==>
              Newest(LastOf(Flatten(heard), capacity), chunks * CHUNK_SAMPLES) == PreRoll(heard, chunks)
  {
    FlattenLength(heard);
    LastOfSuffix(Flatten(heard), capacity, chunks * CHUNK_SAMPLES);
    if chunks <= |heard| {
      FlattenSuffix(heard, |heard| - chunks);
    }
  }

  lemma {:induction false} LookBack(contents: seq<Sample>, heard: seq<Chunk>, capacity: nat, chunks: nat)
    requires contents == LastOf(Flatten(heard), capacity) && chunks * CHUNK_SAMPLES <= capacity
    ensures chunks * CHUNK_SAMPLES <= |contents| ==>
              contents[|contents| - chunks * CHUNK_SAMPLES..] == PreRoll(heard, chunks)
    ensures chunks * CHUNK_SAMPLES > |contents| ==> PreRoll(heard, chunks) == []
  {
    NewestChunks(heard, capacity, chunks);
  }

  function Newest(s: seq<Sample>, m: nat): seq<Sample> {
    if m <= |s| then s[|s| - m..] else []
  }

  lemma {:induction false} LastOfSuffix(s: seq<Sample>, n: nat, m: nat)
    requires m <= n
    ensures m <= |LastOf(s, n)| <==> m <= |s|
    ensures Newest(LastOf(s, n), m) == Newest(s, m)
  {
  }

  // ----- What the detectors said.

  const ENTER_THRESHOLD: real := 0.55
  const EXIT_THRESHOLD: real := 0.35
  const ENTER_CHUNKS: nat := 2

  /**
   One chunk as the session is told of it: speech when at least two probabilities so far were above 0.55 since the last
   one below 0.35, and wake when the wake detector, asked only in speech, said so or a manual trigger was pending.
   */
  ghost predicate HeardRightly(h: Heard, probabilities: seq<real>, answer: bool, trigger: bool) {
    && (h.speech <==> ConfidentSinceExit(0.55, 0.35, probabilities) >= 2)
    && (h.wake <==> (h.speech && answer) || trigger)
  }

  /** A run of chunks, the first of them chunk `base` of all that were ever read. */
  ghost predicate RunHeard(
    run: seq<Heard>, base: nat, probabilities: seq<real>, answers: seq<bool>, triggers: seq<bool>)
  {
    && base + |run| == |probabilities| == |answers| == |triggers|
    && forall i | 0 <= i < |run| ::
      HeardRightly(run[i], probabilities[..base + i + 1], answers[base + i], triggers[base + i])
  }

  // ----- How a listen ends.

  // A name for a run's actions, so that it is only looked into where they are named.
  ghost predicate ActionsAre(
    config: ListenerConfig, mode: ListenMode, first: Counters, run: seq<Heard>, actions: seq<Action>)
  {
    forall r | IsRun(r, config, mode, first, run) :: r.actions == actions
  }

  lemma {:induction false} ActionsMean(
      config: ListenerConfig, mode: ListenMode, first: Counters, run: seq<Heard>, actions: seq<Action>)
    ensures ActionsAre(config, mode, first, run, actions) <==> Run(config.session, mode, first, run).actions == actions
  {
    assert IsRun(Run(config.session, mode, first, run), config, mode, first, run);
  }

  lemma {:induction false} ActionsNext(config: ListenerConfig, mode: ListenMode, first: Counters, heard: seq<Chunk>,
      base: nat, run: seq<Heard>, c: Counters, handed: seq<seq<Sample>>, capture: seq<Sample>, actions: seq<Action>,
      h: Heard)
    requires Opening(first) && InStep(config, mode, first, heard, base, run, c, handed, capture)
    requires ActionsAre(config, mode, first, run, actions)
    ensures ActionsAre(config, mode, first, run + [h], actions + [Observed(config.session, mode, c, h).1])
  {
    InStepMeans(config, mode, first, heard, base, run, c, handed, capture);
    ActionsMean(config, mode, first, run, actions);
    ActionStep(config, mode, first, run, h);
    ActionsMean(config, mode, first, run + [h], actions + [Observed(config.session, mode, c, h).1]);
  }

  // The transcriber's failures and its transcripts, and what makes one of them a result.
  datatype Filter = Filter(stripWakePrefix: string -> string, isSane: string -> bool)
  {
    ghost predicate IsOutcome(r: Result<Option<string>, ListenError>, raw: Option<string>) {
      match raw
      case None => r == Err(TranscribeFailed)
      case Some(text) => r.Ok? && (r.value.Some? <==> isSane(stripWakePrefix(text))) &&
                         (r.value.Some? ==> r.value.value == stripWakePrefix(text))
    }

    // Nonsense is not worth surfacing while waiting for the wake word.
    ghost predicate GoesOn(mode: ListenMode, raw: Option<string>) {
      mode == WakeWord && raw.Some? && !isSane(stripWakePrefix(raw.value))
    }

    // What the session's action did: a completion was transcribed, and only that or an expiry may end the listen.
    ghost predicate Stopped(mode: ListenMode, action: Action, raws: seq<Option<string>>,
                            stop: Option<Result<Option<string>, ListenError>>)
    {
      match action
      case Complete => CompletedTo(mode, raws, stop)
      case CompleteMaxDuration => CompletedTo(mode, raws, stop)
      case Expired => raws == [] && stop == Some(Ok(None))
      case _ => raws == [] && stop == None
    }

    ghost predicate CompletedTo(mode: ListenMode, raws: seq<Option<string>>,
                                stop: Option<Result<Option<string>, ListenError>>)
    {
      |raws| == 1 && if GoesOn(mode, raws[0]) then stop.None? else stop.Some? && IsOutcome(stop.value, raws[0])
    }

    ghost predicate StillListening(mode: ListenMode, actions: seq<Action>, raws: seq<Option<string>>) {
      Expired !in actions && forall raw | raw in raws :: GoesOn(mode, raw)
    }

    /**
     A listen ends on the first transcript that is worth surfacing, or that fails, or that is the follow-up's only one;
     on the expiry of the follow-up window; or when the microphone closes. Up to then it goes on.
     */
    ghost predicate EndsAs(mode: ListenMode, actions: seq<Action>, raws: seq<Option<string>>,
                           result: Result<Option<string>, ListenError>, closed: bool)
    {
      if StillListening(mode, actions, raws) then result == Err(AudioSourceClosed) && closed
      else
        && actions != []
        && var last := |actions| - 1;
           if actions[last] == Expired then
             StillListening(mode, actions[..last], raws) && result == Ok(None)
           else
             && raws != [] && (actions[last] == Complete || actions[last] == CompleteMaxDuration)
             && var n := |raws| - 1;
                StillListening(mode, actions[..last], raws[..n]) && IsOutcome(result, raws[n])
    }

    lemma {:induction false} OneMoreAction(mode: ListenMode, actions: seq<Action>, raws: seq<Option<string>>,
        action: Action, more: seq<Option<string>>, stop: Option<Result<Option<string>, ListenError>>)
      requires StillListening(mode, actions, raws) && Stopped(mode, action, more, stop)
      ensures stop.None? ==> StillListening(mode, actions + [action], raws + more)
      ensures stop.Some? ==> forall closed :: EndsAs(mode, actions + [action], raws + more, stop.value, closed)
    {
      assert (actions + [action])[..|actions|] == actions;
      if more == [] {
        assert raws + more == raws;
      } else {
        assert (raws + more)[..|raws|] == raws;
        assert more[0] in raws + more;
      }
    }
  }

  /** What a listener had heard, handed over and been told when a listen began. */
  datatype Origin = Origin(
    mode: ListenMode, first: Counters, base: nat, chunks: seq<Chunk>, transcribed: seq<seq<Sample>>,
    transcripts: seq<Option<string>>, probabilities: seq<real>, answers: seq<bool>, triggers: seq<bool>)

  /** A listen since then. */
  datatype Progress = Progress(
    origin: Origin, run: seq<Heard>, actions: seq<Action>, handed: seq<seq<Sample>>, raws: seq<Option<string>>)

  predicate OneMore<T(==)>(was: seq<T>, now: seq<T>) {
    was <= now && |now| == |was| + 1
  }

  lemma {:induction false} RunHeardNext(
      run: seq<Heard>, base: nat, ps: seq<real>, answers: seq<bool>, triggers: seq<bool>,
      h: Heard, ps': seq<real>, answers': seq<bool>, triggers': seq<bool>)
    requires RunHeard(run, base, ps, answers, triggers)
    requires OneMore(ps, ps') && OneMore(answers, answers') && OneMore(triggers, triggers')
    requires HeardRightly(h, ps', answers'[|answers|], triggers'[|triggers|])
    ensures RunHeard(run + [h], base, ps', answers', triggers')
  {
    forall i | 0 <= i < |run| + 1
      ensures HeardRightly((run + [h])[i], ps'[..base + i + 1], answers'[base + i], triggers'[base + i])
    {
      if i < |run| {
        assert ps'[..base + i + 1] == ps[..base + i + 1];
      } else {
        assert ps'[..base + i + 1] == ps';
      }
    }
  }

  class Listener {
    const config: ListenerConfig
    const gate: SpeechGate
    const recent: Ring
    // The transcript clean-up and sanity filters, taken as they are.
    const filter: Filter
    var firstCall: bool
    // Chunks the microphone has yet to deliver before it closes.
    var source: seq<Chunk>
    // Every audio buffer handed to the transcriber.
    var transcribed: seq<seq<Sample>>
    // What the transcriber made of each of them, if it did not fail.
    ghost var transcripts: seq<Option<string>>
    // Every chunk read so far, over all listens.
    ghost var heard: seq<Chunk>
    // What the voice detector, the wake detector and the manual trigger said of each of them.
    ghost var probabilities: seq<real>
    ghost var answers: seq<bool>
    ghost var triggers: seq<bool>

    ghost predicate Valid()
      reads this, gate, recent, recent.samples
    {
      && |probabilities| == |answers| == |triggers| == |heard|
      && gate.enterThreshold == ENTER_THRESHOLD && gate.exitThreshold == EXIT_THRESHOLD
      && gate.enterChunks == ENTER_CHUNKS
      && gate.View() == GateRun(ENTER_THRESHOLD, EXIT_THRESHOLD, ENTER_CHUNKS, probabilities)
      && recent.Valid()
      && recent.Capacity() == RingChunks(config) * CHUNK_SAMPLES
      && recent.Contents() == LastOf(Flatten(heard), recent.Capacity())
    }

    constructor New(config: ListenerConfig, source: seq<Chunk>, filter: Filter)
      ensures Valid() && fresh(gate) && fresh(recent) && fresh(recent.samples)
      ensures this.config == config && this.source == source && heard == [] && transcribed == [] && firstCall
      ensures this.filter == filter && transcripts == []
    {
      this.config := config;
      this.filter := filter;
      gate := new SpeechGate(ENTER_THRESHOLD, EXIT_THRESHOLD, ENTER_CHUNKS);
      recent := new Ring.WithCapacity(RingChunks(config) * CHUNK_SAMPLES);
      firstCall := true;
      this.source, transcribed, transcripts, heard := source, [], [], [];
      probabilities, answers, triggers := [], [], [];
    }

    // The listen so far: what was observed, what the session made of it, and what the transcriber got and said.
    ghost predicate Progressed(p: Progress, c: Counters, capture: seq<Sample>)
      reads this
    {
      && Told(p)
      && InStep(config, p.origin.mode, p.origin.first, heard, p.origin.base, p.run, c, p.handed, capture)
      && RunHeard(p.run, p.origin.base, probabilities, answers, triggers)
      && ActionsAre(config, p.origin.mode, p.origin.first, p.run, p.actions)
    }

    ghost predicate Told(p: Progress)
      reads this
    {
      && heard + source == p.origin.chunks
      && transcribed == p.origin.transcribed + p.handed && transcripts == p.origin.transcripts + p.raws
      && |p.raws| == |p.handed|
      && p.origin.probabilities <= probabilities && p.origin.answers <= answers && p.origin.triggers <= triggers
    }

    // Listening starts here.
    ghost predicate StartsAs(o: Origin)
      reads this
    {
      o == Origin(o.mode, o.first, |heard|, heard + source, transcribed, transcripts, probabilities, answers, triggers)
    }

    lemma {:induction false} NothingYet(o: Origin)
      requires Valid() && StartsAs(o) && Opening(o.first)
      ensures Progressed(Progress(o, [], [], [], []), o.first, [])
    {
      NothingHeardYet(config, o.mode, o.first, heard);
      ActionsMean(config, o.mode, o.first, [], []);
    }

    /**
     A whole listen: the speech and wake flags of each chunk are what the detectors said, the buffers handed over are
     exactly those that the session's actions on them call for, and the listen ended when those and the transcripts say.
     */
    ghost predicate Listened(o: Origin, run: seq<Heard>, result: Result<Option<string>, ListenError>)
      reads this
    {
      && heard + source == o.chunks && |heard| == o.base + |run|
      && RunHeard(run, o.base, probabilities, answers, triggers)
      && o.probabilities <= probabilities && o.answers <= answers && o.triggers <= triggers
      && o.transcripts <= transcripts && o.transcribed <= transcribed
      && |transcripts| - |o.transcripts| == |transcribed| - |o.transcribed|
      && NoneLonger(transcribed[|o.transcribed|..], LongestCapture(config))
      && var actions := Run(config.session, o.mode, o.first, run).actions;
         && |actions| == |run|
         && transcribed == o.transcribed + HandedOver(config, o.mode, heard, o.base, actions)
         && filter.EndsAs(o.mode, actions, transcripts[|o.transcripts|..], result, source == [])
    }

    /** Blocks until an utterance is transcribed, listening from `o`, where the listener stood. */
    method Listen(mode: ListenMode)
      returns (result: Result<Option<string>, ListenError>, ghost run: seq<Heard>, ghost o: Origin)
      requires Valid()
      modifies this, gate, recent, recent.samples
      ensures Valid() && !firstCall
      ensures o == Origin(mode, if old(firstCall) then Fresh() else Resumed(), |old(heard)|, old(heard + source),
                          old(transcribed), old(transcripts), old(probabilities), old(answers), old(triggers))
      ensures Listened(o, run, result)
      ensures mode == WakeWord ==> result != Ok(None)
    {
      ghost var first;
      var session;
      session, first := Begin(mode);
      o := Origin(mode, first, |heard|, heard + source, transcribed, transcripts, probabilities, answers, triggers);
      ghost var p, capture;
      result, p, capture := ListenUntilDone(session, mode, o);
      run := p.run;
      ListenDone(p, session.View(), capture, result);
    }

    // The listen as a whole.
    lemma {:induction false} ListenDone(p: Progress, c: Counters, capture: seq<Sample>,
        result: Result<Option<string>, ListenError>)
      requires Progressed(p, c, capture) && Opening(p.origin.first)
      requires filter.EndsAs(p.origin.mode, p.actions, p.raws, result, source == [])
      ensures Listened(p.origin, p.run, result)
    {
      var o := p.origin;
      HandedOverLength(config, o.mode, heard, o.base, o.first, p.run);
      InStepMeans(config, o.mode, o.first, heard, o.base, p.run, c, p.handed, capture);
      ActionsMean(config, o.mode, o.first, p.run, p.actions);
      assert transcripts[|o.transcripts|..] == p.raws;
      assert transcribed[|o.transcribed|..] == p.handed;
    }

    // The listening loop.
    method ListenUntilDone(session: Session, mode: ListenMode, ghost origin: Origin)
      returns (result: Result<Option<string>, ListenError>, ghost p: Progress, ghost last: seq<Sample>)
      requires Valid() && !firstCall && Opening(origin.first) && session.View() == origin.first
      requires session.config == config.session && session.mode == mode == origin.mode && StartsAs(origin)
      modifies session, this`source, this`heard, this`transcribed, this`transcripts, gate, recent, recent.samples
      modifies this`probabilities, this`answers, this`triggers
      ensures Valid() && p.origin == origin && Progressed(p, session.View(), last)
      ensures mode == WakeWord ==> result != Ok(None)
      ensures filter.EndsAs(mode, p.actions, p.raws, result, source == [])
    {
      var capture: seq<Sample> := [];
      p, last := Progress(origin, [], [], [], []), [];
      NothingYet(origin);
      while true
        invariant Valid() && last == capture && p.origin == origin && Progressed(p, session.View(), capture)
        invariant session.config == config.session && session.mode == mode
        invariant filter.StillListening(mode, p.actions, p.raws)
        decreases |source|
      {
        if source == [] {
          return Err(AudioSourceClosed), p, last;
        }
        var stop;
        capture, stop, p := ListenOnce(session, mode, capture, p);
        last := capture;
        if stop.Some? {
          return stop.value, p, last;
        }
      }
    }

    // The very first listen warms the device up; every later one only settles.
    method Begin(mode: ListenMode) returns (session: Session, ghost first: Counters)
      modifies this`firstCall
      ensures fresh(session) && session.config == config.session && session.mode == mode
      ensures first == (if old(firstCall) then Fresh() else Resumed()) && session.View() == first
      ensures !firstCall
    {
      if firstCall {
        firstCall := false;
        session := new Session.New(config.session, mode);
        first := Fresh();
      } else {
        session := new Session.Resume(config.session, mode);
        first := Resumed();
      }
    }

    // One turn of the listening loop.
    method ListenOnce(session: Session, mode: ListenMode, capture: seq<Sample>, ghost was: Progress)
      returns (next: seq<Sample>, stop: Option<Result<Option<string>, ListenError>>, ghost p: Progress)
      requires Valid() && source != [] && Opening(was.origin.first)
      requires session.config == config.session && session.mode == mode == was.origin.mode
      requires Progressed(was, session.View(), capture)
      requires filter.StillListening(mode, was.actions, was.raws)
      modifies session, this`source, this`heard, this`transcribed, this`transcripts, gate, recent, recent.samples
      modifies this`probabilities, this`answers, this`triggers
      ensures Valid() && |source| < |old(source)| && p.origin == was.origin
      ensures Progressed(p, session.View(), next)
      ensures stop == Some(Ok(None)) ==> mode == FollowUp
      ensures stop.None? ==> filter.StillListening(mode, p.actions, p.raws)
      ensures stop.Some? ==>
                stop != Some(Err(AudioSourceClosed)) &&
                forall closed :: filter.EndsAs(mode, p.actions, p.raws, stop.value, closed)
    {
      ghost var before, view, ps, ans, ts := heard, session.View(), probabilities, answers, triggers;
      var chunk, speech, wake := ReadChunk();
      ghost var h := Heard(speech, wake);
      RunHeardNext(was.run, was.origin.base, ps, ans, ts, h, probabilities, answers, triggers);
      ghost var raws;
      var action;
      action, next, stop, raws := Respond(session, mode, Heard(speech, wake), chunk, capture);
      p := Progress(was.origin, was.run + [h], was.actions + [action], was.handed + Completed(action, capture),
                    was.raws + raws);
      OneMoreChunk(was, before, view, capture, chunk, h, next, action);
      filter.OneMoreAction(mode, was.actions, was.raws, action, raws, stop);
    }

    lemma {:induction false} OneMoreChunk(was: Progress, before: seq<Chunk>, view: Counters, capture: seq<Sample>,
        chunk: Chunk, h: Heard, next: seq<Sample>, action: Action)
      requires var o := was.origin;
               && Opening(o.first)
               && InStep(config, o.mode, o.first, before, o.base, was.run, view, was.handed, capture)
               && ActionsAre(config, o.mode, o.first, was.run, was.actions)
               && action == Observed(config.session, o.mode, view, h).1
               && Reacted(config, o.mode, before + [chunk], chunk, action, capture, next)
      ensures var (o, run, handed) := (was.origin, was.run + [h], was.handed + Completed(action, capture));
              var c := Observed(config.session, o.mode, view, h).0;
              && InStep(config, o.mode, o.first, before + [chunk], o.base, run, c, handed, next)
              && ActionsAre(config, o.mode, o.first, run, was.actions + [action])
              && (action == Expired ==> o.mode == FollowUp)
    {
      var o := was.origin;
      ActionsNext(config, o.mode, o.first, before, o.base, was.run, view, was.handed, capture, was.actions, h);
      ListenStep(config, o.mode, o.first, before, o.base, was.run, view, was.handed, capture, chunk, h, next);
    }

    // Reports the chunk to the session and does what it asks.
    method Respond(session: Session, mode: ListenMode, h: Heard, chunk: Chunk, capture: seq<Sample>)
      returns (action: Action, next: seq<Sample>, stop: Option<Result<Option<string>, ListenError>>,
               ghost raws: seq<Option<string>>)
      requires Valid()
      modifies session, this`transcribed, this`transcripts
      ensures Valid() && (session.View(), action) == Observed(session.config, session.mode, old(session.View()), h)
      ensures transcribed == old(transcribed) + Completed(action, capture) && transcripts == old(transcripts) + raws
      ensures Reacted(config, mode, heard, chunk, action, capture, next)
      ensures filter.Stopped(mode, action, raws, stop)
    {
      action := session.Observe(h.speech, h.wake);
      next, stop, raws := React(mode, action, chunk, capture);
    }

    // The match on the session's action: the capture it leaves, and the result when the listen is over.
    method React(mode: ListenMode, action: Action, chunk: Chunk, capture: seq<Sample>)
      returns (next: seq<Sample>, stop: Option<Result<Option<string>, ListenError>>, ghost raws: seq<Option<string>>)
      requires Valid()
      modifies this`transcribed, this`transcripts
      ensures transcribed == old(transcribed) + Completed(action, capture) && transcripts == old(transcripts) + raws
      ensures Reacted(config, mode, heard, chunk, action, capture, next)
      ensures filter.Stopped(mode, action, raws, stop)
    {
      next, stop, raws := capture, None, [];
      match action {
        case Idle =>
        case StartCapture =>
          next := PrependPreRoll(mode);
          next := next + chunk;
        case RestartCapture =>
          next := PrependPreRoll(WakeWord);
          next := next + chunk;
        case Capture =>
          next := capture + chunk;
        case Complete | CompleteMaxDuration =>
          var text;
          text, raws := Transcribe(capture);
          if text.Err? || text.value.Some? || mode == FollowUp {
            return next, Some(text), raws;
          }
          next := [];
        case Discard =>
          next := [];
        case Expired =>
          return next, Some(Ok(None)), raws;
      }
    }

    // The next chunk, remembered for look-back, and what the detectors made of it.
    method ReadChunk() returns (chunk: Chunk, speech: bool, wake: bool)
      requires Valid() && source != []
      modifies this`source, this`heard, gate, recent, recent.samples
      modifies this`probabilities, this`answers, this`triggers
      ensures Valid() && heard == old(heard) + [chunk] && [chunk] + source == old(source)
      ensures OneMore(old(probabilities), probabilities) && OneMore(old(answers), answers)
      ensures OneMore(old(triggers), triggers)
      ensures HeardRightly(Heard(speech, wake), probabilities, answers[|old(answers)|], triggers[|old(triggers)|])
    {
      chunk := Remember();
      speech := HearSpeech();
      var detected := false;
      if speech {
        detected := AskWakeDetector();
      } else {
        answers := answers + [false];
      }
      var forced := TriggerPending();
      wake := detected || forced;
    }

    method Remember() returns (chunk: Chunk)
      requires Valid() && source != []
      modifies this`source, this`heard, recent, recent.samples
      ensures recent.Valid()
      ensures recent.Contents() == LastOf(Flatten(heard), recent.Capacity())
      ensures heard == old(heard) + [chunk] && [chunk] + source == old(source)
    {
      chunk := source[0];
      source := source[1..];
      LastOfAppend(Flatten(heard), chunk, recent.Capacity());
      assert (heard + [chunk])[..|heard|] == heard;
      recent.Write(chunk);
      heard := heard + [chunk];
    }

    // The voice detector's probability, through the gate.
    method HearSpeech() returns (speech: bool)
      requires gate.enterThreshold == ENTER_THRESHOLD && gate.exitThreshold == EXIT_THRESHOLD
      requires gate.enterChunks == ENTER_CHUNKS
      requires gate.View() == GateRun(ENTER_THRESHOLD, EXIT_THRESHOLD, ENTER_CHUNKS, probabilities)
      modifies this`probabilities, gate
      ensures OneMore(old(probabilities), probabilities)
      ensures gate.View() == GateRun(ENTER_THRESHOLD, EXIT_THRESHOLD, ENTER_CHUNKS, probabilities)
      ensures speech <==> ConfidentSinceExit(0.55, 0.35, probabilities) >= 2
    {
      var probability := Probability();
      assert probabilities[..|probabilities| - 1] == old(probabilities);
      speech := gate.Update(probability);
      GateCounts(ENTER_THRESHOLD, EXIT_THRESHOLD, ENTER_CHUNKS, probabilities);
    }

    // The voice detector, the wake detector and the manual trigger: any answer.
    method Probability() returns (probability: real)
      modifies this`probabilities
      ensures probabilities == old(probabilities) + [probability]
    {
      probability := *;
      probabilities := probabilities + [probability];
    }

    method AskWakeDetector() returns (detected: bool)
      modifies this`answers
      ensures answers == old(answers) + [detected]
    {
      detected := *;
      answers := answers + [detected];
    }

    method TriggerPending() returns (forced: bool)
      modifies this`triggers
      ensures triggers == old(triggers) + [forced]
    {
      forced := *;
      triggers := triggers + [forced];
    }

    // Hands the capture over; `Ok(None)` is a transcript the sanity filter rejects.
    method Transcribe(capture: seq<Sample>)
      returns (text: Result<Option<string>, ListenError>, ghost raws: seq<Option<string>>)
      modifies this`transcribed, this`transcripts
      ensures transcribed == old(transcribed) + [capture] && transcripts == old(transcripts) + raws
      ensures |raws| == 1 && filter.IsOutcome(text, raws[0])
    {
      transcribed := transcribed + [capture];
      var raw: Option<string> := *;
      raws, transcripts := [raw], transcripts + [raw];
      match raw {
        case None =>
          text := Err(TranscribeFailed);
        case Some(heardText) =>
          var stripped := filter.stripWakePrefix(heardText);
          text := Ok(if filter.isSane(stripped) then Some(stripped) else None);
      }
    }

    method PrependPreRoll(mode: ListenMode) returns (capture: seq<Sample>)
      requires Valid()
      ensures capture == PreRoll(heard, PreRollChunks(config, mode))
    {
      var chunks := PreRollChunks(config, mode);
      var preRoll := new Sample[chunks * CHUNK_SAMPLES](_ => 0.0);
      LookBack(recent.Contents(), heard, recent.Capacity(), chunks);
      var ok := recent.PeekLast(preRoll);
      capture := if ok then preRoll[..] else [];
    }
  }
}
