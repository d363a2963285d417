/**
 The wake-phrase checker: a listening thread that feeds audio and polls, and a worker thread that transcribes.
 Every shared access is one atomic step; the two threads interleave freely, and transcripts are arbitrary.
 */
module WakeWord {
  import opened Audio
  import opened Wrappers

  const CHECK_INTERVAL_CHUNKS: nat := 3
  const MAX_BUFFER_SAMPLES: nat := 63 * 512
  const JOB_QUEUE_CAPACITY: nat := 1

  datatype WakeJob = WakeJob(generation: nat, samples: seq<Sample>)

  /** A finished check, with the job it answers. */
  datatype WakeResult = WakeResult(job: WakeJob, text: string)

  /** Where the listening thread stands inside `detect`. */
  datatype Phase = Idle | Polling(detected: bool) | Sending(detected: bool)

  /** A detection: the audio of the transcript that fired, and all audio fed since the last reset at that moment. */
  datatype Firing = Firing(audio: seq<Sample>, fed: seq<Sample>)

  datatype WakeView = WakeView(
    buffer: seq<Sample>, sinceCheck: nat, generation: nat, checkInFlight: bool,
    toWorker: seq<WakeJob>, running: Option<WakeJob>, fromWorker: seq<WakeResult>,
    phase: Phase,
    // History: audio fed since the last reset, detections, and whether some reset found a job outstanding.
    fed: seq<Sample>, fired: seq<Firing>, staleReset: bool)

  datatype Step =
    | BeginDetect(chunk: seq<Sample>) | PollResult | PollEmpty | Send | Reset
    | WorkerTake | WorkerFinish(text: string)

  function Start(): WakeView {
    WakeView([], 0, 0, false, [], None, [], Idle, [], [], false)
  }

  predicate Enabled(v: WakeView, s: Step) {
    match s
    case BeginDetect(_) => v.phase.Idle?
    case PollResult => v.phase.Polling? && v.fromWorker != []
    case PollEmpty => v.phase.Polling? && v.fromWorker == []
    case Send => v.phase.Sending?
    case Reset => v.phase.Idle?
    case WorkerTake => v.running.None? && v.toWorker != []
    case WorkerFinish(_) => v.running.Some?
  }

  function Apply(isWakePhrase: string -> bool, v: WakeView, s: Step): WakeView
    requires Enabled(v, s)
  {
    match s
    case BeginDetect(chunk) =>
      v.(buffer := v.buffer + chunk, fed := v.fed + chunk, sinceCheck := v.sinceCheck + 1, phase := Polling(false))
    case PollResult => Handled(isWakePhrase, v.(fromWorker := v.fromWorker[1..]), v.fromWorker[0])
    case PollEmpty => v.(phase := Sending(v.phase.detected))
    case Send => Trimmed(CheckStarted(v)).(phase := Idle)
    case Reset =>
      v.(buffer := [], sinceCheck := 0, generation := v.generation + 1, checkInFlight := false, fed := [],
         staleReset := v.staleReset || Outstanding(v) != [])
    case WorkerTake => v.(running := Some(v.toWorker[0]), toWorker := v.toWorker[1..])
    case WorkerFinish(text) => v.(running := None, fromWorker := v.fromWorker + [WakeResult(v.running.value, text)])
  }

  function Handled(isWakePhrase: string -> bool, v: WakeView, r: WakeResult): WakeView {
    var landed := v.(checkInFlight := false);
    if r.job.generation != v.generation || !isWakePhrase(r.text) then landed
    else landed.(buffer := [], phase := Polling(true), fired := v.fired + [Firing(r.job.samples, v.fed)])
  }

  function CheckStarted(v: WakeView): WakeView {
    if v.sinceCheck < CHECK_INTERVAL_CHUNKS then v
    else if v.checkInFlight || |v.toWorker| >= JOB_QUEUE_CAPACITY then v.(sinceCheck := 0)
    else v.(sinceCheck := 0, checkInFlight := true, toWorker := v.toWorker + [WakeJob(v.generation, v.buffer)])
  }

  function Trimmed(v: WakeView): WakeView
    requires v.phase.Sending?
  {
    if !v.phase.detected && |v.buffer| > MAX_BUFFER_SAMPLES then
      v.(buffer := v.buffer[|v.buffer| - MAX_BUFFER_SAMPLES..])
    else v
  }

  // Jobs sent and not yet handled, oldest first.
  function Outstanding(v: WakeView): seq<WakeJob> {
    Jobs(v.fromWorker) + (if v.running.Some? then [v.running.value] else []) + v.toWorker
  }

  function Jobs(results: seq<WakeResult>): seq<WakeJob> {
    seq(|results|, i requires 0 <= i < |results| => results[i].job)
  }

  /** The state an interleaving leads to, when each of its steps was possible. */
  function After(isWakePhrase: string -> bool, steps: seq<Step>): Option<WakeView> {
    if steps == [] then Some(Start())
    else
      var before := After(isWakePhrase, steps[..|steps| - 1]);
      var s := steps[|steps| - 1];
      if before.Some? && Enabled(before.value, s) then Some(Apply(isWakePhrase, before.value, s)) else None
  }

  // ----- What holds in every interleaving.

  predicate RunAt(audio: seq<Sample>, fed: seq<Sample>, i: nat) {
    i + |audio| <= |fed| && fed[i..i + |audio|] == audio
  }

  ghost predicate IsRunOf(audio: seq<Sample>, fed: seq<Sample>) {
    exists i: nat :: RunAt(audio, fed, i)
  }

  predicate IsSuffixOf(s: seq<Sample>, t: seq<Sample>) {
    |s| <= |t| && t[|t| - |s|..] == s
  }

  ghost predicate Safe(v: WakeView) {
    && IsSuffixOf(v.buffer, v.fed)
    && (v.phase.Idle? ==> |v.buffer| <= MAX_BUFFER_SAMPLES)
    && (!v.phase.Idle? && v.phase.detected ==> v.buffer == [])
    && |v.toWorker| <= JOB_QUEUE_CAPACITY
    && JobsSafe(v.generation, v.fed, Outstanding(v))
    && (forall k | 0 <= k < |v.fired| :: IsRunOf(v.fired[k].audio, v.fired[k].fed))
    && (v.checkInFlight ==>
          Outstanding(v) != [] && Outstanding(v)[|Outstanding(v)| - 1].generation == v.generation)
    && (!v.staleReset ==> |Outstanding(v)| == if v.checkInFlight then 1 else 0)
  }

  // No job is from the future, and one of this generation holds audio fed since the last reset.
  ghost predicate JobSafe(generation: nat, fed: seq<Sample>, job: WakeJob) {
    job.generation <= generation && (job.generation == generation ==> IsRunOf(job.samples, fed))
  }

  ghost predicate JobsSafe(generation: nat, fed: seq<Sample>, jobs: seq<WakeJob>) {
    forall j | 0 <= j < |jobs| :: JobSafe(generation, fed, jobs[j])
  }

  lemma {:induction false} JobsSafeFed(generation: nat, fed: seq<Sample>, jobs: seq<WakeJob>, more: seq<Sample>)
    requires JobsSafe(generation, fed, jobs)
    ensures JobsSafe(generation, fed + more, jobs)
  {
    forall j | 0 <= j < |jobs| ensures JobSafe(generation, fed + more, jobs[j]) {
      assert JobSafe(generation, fed, jobs[j]);
      if jobs[j].generation == generation {
        RunExtends(jobs[j].samples, fed, more);
      }
    }
  }

  lemma {:induction false} JobsSafeReset(generation: nat, fed: seq<Sample>, jobs: seq<WakeJob>)
    requires JobsSafe(generation, fed, jobs)
    ensures JobsSafe(generation + 1, [], jobs)
  {
    forall j | 0 <= j < |jobs| ensures JobSafe(generation + 1, [], jobs[j]) {
      assert JobSafe(generation, fed, jobs[j]);
    }
  }

  lemma {:induction false} RunExtends(audio: seq<Sample>, fed: seq<Sample>, more: seq<Sample>)
    requires IsRunOf(audio, fed)
    ensures IsRunOf(audio, fed + more)
  {
    var i: nat :| RunAt(audio, fed, i);
    assert (fed + more)[i..i + |audio|] == fed[i..i + |audio|];
    assert RunAt(audio, fed + more, i);
  }

  lemma {:induction false} SuffixIsRun(s: seq<Sample>, t: seq<Sample>)
    requires IsSuffixOf(s, t)
    ensures IsRunOf(s, t)
  {
    assert RunAt(s, t, |t| - |s|);
  }

  lemma {:induction false} SuffixOfSuffix(s: seq<Sample>, t: seq<Sample>, n: nat)
    requires IsSuffixOf(s, t) && n <= |s|
    ensures IsSuffixOf(s[|s| - n..], t)
  {
    assert t[|t| - n..] == t[|t| - |s|..][|s| - n..];
  }

  // The worker moves jobs along without reordering, losing or adding any.
  lemma {:induction false} WorkerKeepsJobs(isWakePhrase: string -> bool, v: WakeView, s: Step)
    requires Enabled(v, s) && (s.WorkerTake? || s.WorkerFinish?)
    ensures Outstanding(Apply(isWakePhrase, v, s)) == Outstanding(v)
  {
  }

  lemma {:induction false} PollTakesFirst(v: WakeView)
    requires v.fromWorker != []
    ensures Outstanding(v.(fromWorker := v.fromWorker[1..])) == Outstanding(v)[1..]
    ensures Outstanding(v) != [] && Outstanding(v)[0] == v.fromWorker[0].job
  {
  }

  lemma {:induction false} BeginStepSafe(isWakePhrase: string -> bool, v: WakeView, chunk: seq<Sample>)
    requires Safe(v) && v.phase.Idle?
    ensures Safe(Apply(isWakePhrase, v, BeginDetect(chunk)))
  {
    assert Outstanding(Apply(isWakePhrase, v, BeginDetect(chunk))) == Outstanding(v);
    JobsSafeFed(v.generation, v.fed, Outstanding(v), chunk);
  }

  // Sending a check leaves everything but the queue, the flag and the interval counter alone.
  lemma {:induction false} CheckStartedJobs(v: WakeView)
    ensures var v' := CheckStarted(v);
            && v' == v.(sinceCheck := v'.sinceCheck, checkInFlight := v'.checkInFlight, toWorker := v'.toWorker)
            && (if v'.checkInFlight == v.checkInFlight then Outstanding(v') == Outstanding(v)
                else !v.checkInFlight && Outstanding(v') == Outstanding(v) + [WakeJob(v.generation, v.buffer)])
            && (|v.toWorker| <= JOB_QUEUE_CAPACITY ==> |v'.toWorker| <= JOB_QUEUE_CAPACITY)
  {
    var v' := CheckStarted(v);
    if v'.toWorker != v.toWorker {
      assert Outstanding(v') == Outstanding(v) + [WakeJob(v.generation, v.buffer)];
    }
  }

  lemma {:induction false} CheckStartedSafe(v: WakeView)
    requires Safe(v)
    ensures Safe(CheckStarted(v))
  {
    SuffixIsRun(v.buffer, v.fed);
    assert JobSafe(v.generation, v.fed, WakeJob(v.generation, v.buffer));
    CheckStartedJobs(v);
  }

  // A step that keeps the jobs and the history, and leaves a good buffer for its phase, keeps Safe.
  lemma {:induction false} SameJobsSafe(v: WakeView, v': WakeView)
    requires Safe(v) && Outstanding(v') == Outstanding(v) && |v'.toWorker| <= |v.toWorker|
    requires v'.generation == v.generation && v'.checkInFlight == v.checkInFlight
    requires v'.fed == v.fed && v'.fired == v.fired && v'.staleReset == v.staleReset
    requires IsSuffixOf(v'.buffer, v'.fed)
    requires if v'.phase.Idle? then |v'.buffer| <= MAX_BUFFER_SAMPLES else v'.phase.detected ==> v'.buffer == []
    ensures Safe(v')
  {
  }

  lemma {:induction false} TrimSafe(v: WakeView)
    requires Safe(v) && v.phase.Sending?
    ensures Safe(Trimmed(v).(phase := Idle))
  {
    var v' := Trimmed(v).(phase := Idle);
    SuffixOfSuffix(v.buffer, v.fed, |v'.buffer|);
    SameJobsSafe(v, v');
  }

  lemma {:induction false} ResetStepSafe(isWakePhrase: string -> bool, v: WakeView)
    requires Safe(v) && v.phase.Idle?
    ensures Safe(Apply(isWakePhrase, v, Reset))
  {
    assert Outstanding(Apply(isWakePhrase, v, Reset)) == Outstanding(v);
    JobsSafeReset(v.generation, v.fed, Outstanding(v));
  }

  lemma {:induction false} PollStepSafe(isWakePhrase: string -> bool, v: WakeView)
    requires Safe(v) && Enabled(v, PollResult)
    ensures Safe(Apply(isWakePhrase, v, PollResult))
  {
    var v' := Apply(isWakePhrase, v, PollResult);
    PollTakesFirst(v);
    assert Outstanding(v') == Outstanding(v)[1..];
    assert JobSafe(v.generation, v.fed, Outstanding(v)[0]);
  }

  lemma {:induction false} SendStepSafe(isWakePhrase: string -> bool, v: WakeView)
    requires Safe(v) && v.phase.Sending?
    ensures Safe(Apply(isWakePhrase, v, Send))
  {
    CheckStartedSafe(v);
    TrimSafe(CheckStarted(v));
  }

  lemma {:induction false} WorkerStepSafe(isWakePhrase: string -> bool, v: WakeView, s: Step)
    requires Safe(v) && Enabled(v, s) && (s.WorkerTake? || s.WorkerFinish?)
    ensures Safe(Apply(isWakePhrase, v, s))
  {
    WorkerKeepsJobs(isWakePhrase, v, s);
    SameJobsSafe(v, Apply(isWakePhrase, v, s));
  }

  lemma {:induction false} StepSafe(isWakePhrase: string -> bool, v: WakeView, s: Step)
    requires Safe(v) && Enabled(v, s)
    ensures Safe(Apply(isWakePhrase, v, s))
  {
    match s {
      case BeginDetect(chunk) => BeginStepSafe(isWakePhrase, v, chunk);
      case PollResult => PollStepSafe(isWakePhrase, v);
      case PollEmpty => SameJobsSafe(v, Apply(isWakePhrase, v, s));
      case Send => SendStepSafe(isWakePhrase, v);
      case Reset => ResetStepSafe(isWakePhrase, v);
      case WorkerTake => WorkerStepSafe(isWakePhrase, v, s);
      case WorkerFinish(_) => WorkerStepSafe(isWakePhrase, v, s);
    }
  }

  /** Every interleaving of feeding, resetting and the worker is safe. */
  lemma {:induction false} InterleavingSafe(isWakePhrase: string -> bool, steps: seq<Step>)
    requires After(isWakePhrase, steps).Some?
    ensures Safe(After(isWakePhrase, steps).value)
  {
    if steps != [] {
      var before := steps[..|steps| - 1];
      InterleavingSafe(isWakePhrase, before);
      StepSafe(isWakePhrase, After(isWakePhrase, before).value, steps[|steps| - 1]);
    }
  }

  /** A detection only ever fires on a contiguous run of audio fed after the last reset. */
  lemma {:induction false} FiresOnlyOnFreshAudio(isWakePhrase: string -> bool, steps: seq<Step>, k: nat)
    requires After(isWakePhrase, steps).Some? && k < |After(isWakePhrase, steps).value.fired|
    ensures var f := After(isWakePhrase, steps).value.fired[k]; IsRunOf(f.audio, f.fed)
  {
    InterleavingSafe(isWakePhrase, steps);
  }

  // ----- What a check gets to hear.

  predicate IsHit(isWakePhrase: string -> bool, v: Option<WakeView>) {
    v.Some? && v.value.fromWorker != [] && v.value.fromWorker[0].job.generation == v.value.generation &&
    isWakePhrase(v.value.fromWorker[0].text)
  }

  /** All audio fed since the last reset or detection. */
  function SinceCleared(isWakePhrase: string -> bool, steps: seq<Step>): seq<Sample> {
    if steps == [] then []
    else
      var before := steps[..|steps| - 1];
      match steps[|steps| - 1]
      case BeginDetect(chunk) => SinceCleared(isWakePhrase, before) + chunk
      case Reset => []
      case PollResult =>
        if IsHit(isWakePhrase, After(isWakePhrase, before)) then [] else SinceCleared(isWakePhrase, before)
      case _ => SinceCleared(isWakePhrase, before)
  }

  // All of it, or at least the newest that the cap leaves.
  predicate HoldsNewest(s: seq<Sample>, all: seq<Sample>) {
    IsSuffixOf(s, all) && (s == all || |s| >= 63 * 512)
  }

  lemma {:induction false} BufferHoldsNewest(isWakePhrase: string -> bool, steps: seq<Step>)
    requires After(isWakePhrase, steps).Some?
    ensures HoldsNewest(After(isWakePhrase, steps).value.buffer, SinceCleared(isWakePhrase, steps))
  {
    if steps != [] {
      var before := steps[..|steps| - 1];
      var v, s := After(isWakePhrase, before).value, steps[|steps| - 1];
      BufferHoldsNewest(isWakePhrase, before);
      match s {
        case BeginDetect(chunk) => StillNewest(v.buffer, SinceCleared(isWakePhrase, before), chunk);
        case Send => TrimmedHoldsNewest(CheckStarted(v), SinceCleared(isWakePhrase, before));
        case _ =>
      }
    }
  }

  lemma {:induction false} StillNewest(s: seq<Sample>, all: seq<Sample>, more: seq<Sample>)
    requires HoldsNewest(s, all)
    ensures HoldsNewest(s + more, all + more)
  {
    assert (all + more)[|all| - |s|..] == all[|all| - |s|..] + more;
  }

  lemma {:induction false} TrimmedHoldsNewest(v: WakeView, all: seq<Sample>)
    requires v.phase.Sending? && HoldsNewest(v.buffer, all)
    ensures HoldsNewest(Trimmed(v).buffer, all)
  {
    SuffixOfSuffix(v.buffer, all, |Trimmed(v).buffer|);
  }

  /** A check sent to the worker holds all audio fed since the last reset or detection, or the newest of it. */
  lemma {:induction false} CheckHearsNewest(isWakePhrase: string -> bool, steps: seq<Step>)
    requires After(isWakePhrase, steps + [Send]).Some?
    ensures After(isWakePhrase, steps).Some?
    ensures var v, v' := After(isWakePhrase, steps).value, After(isWakePhrase, steps + [Send]).value;
            v'.toWorker == v.toWorker ||
            (|v'.toWorker| == |v.toWorker| + 1 &&
             v'.toWorker[|v.toWorker|].generation == v.generation &&
             HoldsNewest(v'.toWorker[|v.toWorker|].samples, SinceCleared(isWakePhrase, steps)))
  {
    assert (steps + [Send])[..|steps|] == steps;
    BufferHoldsNewest(isWakePhrase, steps);
  }

  // ----- What the flag means, and exactly when.

  /** After the first `n` steps, one job is outstanding while the flag is up, and none while it is down. */
  ghost predicate FlagExactAt(isWakePhrase: string -> bool, steps: seq<Step>, n: nat)
    requires n <= |steps|
  {
    var v := After(isWakePhrase, steps[..n]);
    v.Some? && |Outstanding(v.value)| == if v.value.checkInFlight then 1 else 0
  }

  ghost predicate FlagAlwaysExact(isWakePhrase: string -> bool, steps: seq<Step>) {
    forall n | 0 <= n <= |steps| :: FlagExactAt(isWakePhrase, steps, n)
  }

  lemma {:induction false} FlagOfPrefix(isWakePhrase: string -> bool, steps: seq<Step>)
    requires steps != []
    ensures FlagAlwaysExact(isWakePhrase, steps)
            <==> FlagAlwaysExact(isWakePhrase, steps[..|steps| - 1]) && FlagExactAt(isWakePhrase, steps, |steps|)
  {
    var before := steps[..|steps| - 1];
    forall n | 0 <= n < |steps|
      ensures FlagExactAt(isWakePhrase, steps, n) <==> FlagExactAt(isWakePhrase, before, n)
    {
      assert before[..n] == steps[..n];
    }
  }

  /**
   `check_in_flight` says throughout whether a job is outstanding exactly when no reset found one: the first reset
   that does breaks it at once.
   */
  lemma {:induction false} FlagMeansOneJob(isWakePhrase: string -> bool, steps: seq<Step>)
    requires After(isWakePhrase, steps).Some?
    ensures FlagAlwaysExact(isWakePhrase, steps) <==> !After(isWakePhrase, steps).value.staleReset
  {
    InterleavingSafe(isWakePhrase, steps);
    assert steps[..|steps|] == steps;
    if steps != [] {
      var before := steps[..|steps| - 1];
      FlagMeansOneJob(isWakePhrase, before);
      FlagOfPrefix(isWakePhrase, steps);
      ResetBreaksFlag(isWakePhrase, After(isWakePhrase, before).value, steps[|steps| - 1]);
    }
  }

  // The step that first leaves a stale job behind leaves it uncounted; no step mends the history.
  lemma {:induction false} ResetBreaksFlag(isWakePhrase: string -> bool, v: WakeView, s: Step)
    requires Enabled(v, s)
    ensures var v' := Apply(isWakePhrase, v, s);
            && (v.staleReset ==> v'.staleReset)
            && (!v.staleReset && v'.staleReset ==> !v'.checkInFlight && Outstanding(v') == Outstanding(v) != [])
  {
  }

  lemma {:induction false} AfterStep(isWakePhrase: string -> bool, steps: seq<Step>, s: Step)
    requires After(isWakePhrase, steps).Some? && Enabled(After(isWakePhrase, steps).value, s)
    ensures After(isWakePhrase, steps + [s]) == Some(Apply(isWakePhrase, After(isWakePhrase, steps).value, s))
  {
    assert (steps + [s])[..|steps|] == steps;
  }

  // ----- A reset while a check is out: the stale result clears the flag of the next check.

  function Heard(v: WakeView, chunk: Chunk): WakeView {
    v.(buffer := v.buffer + chunk, fed := v.fed + chunk, sinceCheck := v.sinceCheck + 1)
  }

  // One `detect` with nothing to poll: the chunk is kept, and a check starts if the interval has elapsed.
  lemma {:induction false} QuietDetect(isWakePhrase: string -> bool, steps: seq<Step>, v: WakeView, chunk: Chunk)
      returns (longer: seq<Step>)
    requires After(isWakePhrase, steps) == Some(v)
    requires v.phase.Idle? && v.fromWorker == [] && |v.buffer| <= MAX_BUFFER_SAMPLES - CHUNK_SAMPLES
    ensures After(isWakePhrase, longer) == Some(CheckStarted(Heard(v, chunk)))
  {
    AfterStep(isWakePhrase, steps, BeginDetect(chunk));
    longer := steps + [BeginDetect(chunk)];
    AfterStep(isWakePhrase, longer, PollEmpty);
    longer := longer + [PollEmpty];
    AfterStep(isWakePhrase, longer, Send);
    longer := longer + [Send];
  }

  // Three chunks into an empty buffer send one check.
  lemma {:induction false} QuietCheck(isWakePhrase: string -> bool, steps: seq<Step>, v: WakeView, chunk: Chunk)
      returns (longer: seq<Step>)
    requires After(isWakePhrase, steps) == Some(v)
    requires v.phase.Idle? && v.fromWorker == [] && v.buffer == [] && v.sinceCheck == 0
    requires !v.checkInFlight && v.toWorker == []
    ensures After(isWakePhrase, longer) == Some(Checking(v, chunk))
  {
    var one := Heard(v, chunk);
    var two := Heard(one, chunk);
    longer := QuietDetect(isWakePhrase, steps, v, chunk);
    NotYetDue(v, chunk);
    longer := QuietDetect(isWakePhrase, longer, one, chunk);
    NotYetDue(one, chunk);
    longer := QuietDetect(isWakePhrase, longer, two, chunk);
    ThirdChunkDue(v, chunk);
  }

  lemma {:induction false} NotYetDue(v: WakeView, chunk: Chunk)
    requires v.sinceCheck + 1 < CHECK_INTERVAL_CHUNKS
    ensures CheckStarted(Heard(v, chunk)) == Heard(v, chunk)
  {
  }

  lemma {:induction false} ThirdChunkDue(v: WakeView, chunk: Chunk)
    requires v.buffer == [] && v.sinceCheck == 0 && !v.checkInFlight && v.toWorker == []
    ensures CheckStarted(Heard(Heard(Heard(v, chunk), chunk), chunk)) == Checking(v, chunk)
  {
    HeardThrice(v, chunk);
    assert v.toWorker + [WakeJob(v.generation, Thrice(chunk))] == [WakeJob(v.generation, Thrice(chunk))];
  }

  lemma {:induction false} HeardThrice(v: WakeView, chunk: Chunk)
    requires v.buffer == []
    ensures Heard(Heard(Heard(v, chunk), chunk), chunk)
            == v.(buffer := Thrice(chunk), fed := v.fed + Thrice(chunk), sinceCheck := v.sinceCheck + 3)
  {
    assert v.buffer + chunk == chunk;
    assert v.fed + chunk + chunk + chunk == v.fed + Thrice(chunk);
  }

  function Thrice(chunk: Chunk): seq<Sample> {
    chunk + chunk + chunk
  }

  function Checking(v: WakeView, chunk: Chunk): WakeView {
    v.(buffer := Thrice(chunk), fed := v.fed + Thrice(chunk), checkInFlight := true,
       toWorker := [WakeJob(v.generation, Thrice(chunk))])
  }

  /**
   The flag is not exact in general: it can be down while a check of the current generation is still out. Three chunks
   start a check, a reset comes while it runs, three more start the next, and then the first one's result lands.
   */
  lemma {:induction false} StaleResultClearsFlag(isWakePhrase: string -> bool, chunk: Chunk) returns (steps: seq<Step>)
    ensures After(isWakePhrase, steps).Some?
    ensures var v := After(isWakePhrase, steps).value;
            !v.checkInFlight && |Outstanding(v)| == 1 && Outstanding(v)[0].generation == v.generation
  {
    steps := ResetDuringCheck(isWakePhrase, chunk);
    var v := Start().(generation := 1, running := Some(WakeJob(0, Thrice(chunk))), staleReset := true);
    steps := QuietCheck(isWakePhrase, steps, v, chunk);
    v := Checking(v, chunk);
    AfterStep(isWakePhrase, steps, WorkerFinish(""));
    steps := steps + [WorkerFinish("")];
    v := v.(running := None, fromWorker := v.fromWorker + [WakeResult(WakeJob(0, Thrice(chunk)), "")]);
    steps := StaleResultPolled(isWakePhrase, steps, v, chunk);
  }

  lemma {:induction false} ResetDuringCheck(isWakePhrase: string -> bool, chunk: Chunk) returns (steps: seq<Step>)
    ensures After(isWakePhrase, steps)
            == Some(Start().(generation := 1, running := Some(WakeJob(0, Thrice(chunk))), staleReset := true))
  {
    steps := QuietCheck(isWakePhrase, [], Start(), chunk);
    var v := Checking(Start(), chunk);
    AfterStep(isWakePhrase, steps, WorkerTake);
    assert v.toWorker[1..] == [];
    steps, v := steps + [WorkerTake], v.(running := Some(WakeJob(0, Thrice(chunk))), toWorker := []);
    AfterStep(isWakePhrase, steps, Reset);
    assert Outstanding(v) == [WakeJob(0, Thrice(chunk))];
    steps := steps + [Reset];
  }

  lemma {:induction false} StaleResultPolled(isWakePhrase: string -> bool, steps: seq<Step>, v: WakeView, chunk: Chunk)
      returns (longer: seq<Step>)
    requires After(isWakePhrase, steps) == Some(v)
    requires v.phase.Idle? && |v.fromWorker| == 1 && v.running.None? && |v.toWorker| == 1
    requires v.fromWorker[0].job.generation != v.generation == v.toWorker[0].generation
    ensures var v' := After(isWakePhrase, longer);
            v'.Some? && !v'.value.checkInFlight && Outstanding(v'.value) == v.toWorker &&
            v'.value.generation == v.generation
  {
    AfterStep(isWakePhrase, steps, BeginDetect(chunk));
    longer := steps + [BeginDetect(chunk)];
    AfterStep(isWakePhrase, longer, PollResult);
    longer := longer + [PollResult];
  }

  // ----- The checker itself.

  class WhisperWake {
    const isWakePhrase: string -> bool
    var buffer: seq<Sample>
    var sinceCheck: nat
    var generation: nat
    var checkInFlight: bool
    // The two channels, and the job the worker is busy with.
    var toWorker: seq<WakeJob>
    var running: Option<WakeJob>
    var fromWorker: seq<WakeResult>
    ghost var phase: Phase
    ghost var fed: seq<Sample>
    ghost var fired: seq<Firing>
    ghost var staleReset: bool
    // Every atomic step taken so far by either thread.
    ghost var trace: seq<Step>

    ghost function View(): WakeView
      reads this
    {
      WakeView(buffer, sinceCheck, generation, checkInFlight, toWorker, running, fromWorker,
               phase, fed, fired, staleReset)
    }

    /** The object is in the state its recorded interleaving leads to. */
    ghost predicate Valid()
      reads this
    {
      After(isWakePhrase, trace) == Some(View())
    }

    constructor (isWakePhrase: string -> bool)
      ensures Valid() && View() == Start() && this.isWakePhrase == isWakePhrase
    {
      this.isWakePhrase := isWakePhrase;
      buffer, sinceCheck, generation, checkInFlight := [], 0, 0, false;
      toWorker, running, fromWorker := [], None, [];
      phase, fed, fired, staleReset, trace := Idle, [], [], false, [];
    }

    ghost method Record(s: Step, before: WakeView)
      requires After(isWakePhrase, trace) == Some(before) && Enabled(before, s)
      requires View() == Apply(isWakePhrase, before, s)
      modifies this`trace
      ensures Valid() && trace == old(trace) + [s]
    {
      AfterStep(isWakePhrase, trace, s);
      trace := trace + [s];
    }

    /** Feeds one chunk while the worker runs at will, and reports whether a check fired. */
    method Detect(chunk: seq<Sample>) returns (detected: bool)
      requires Valid() && phase.Idle?
      modifies this
      ensures Valid() && phase.Idle? && old(trace) + [BeginDetect(chunk)] <= trace
      ensures generation == old(generation) && fed == old(fed) + chunk
      ensures |buffer| <= MAX_BUFFER_SAMPLES
      ensures old(fired) <= fired && detected == (|fired| > |old(fired)|)
    {
      ghost var before := View();
      buffer := buffer + chunk;
      sinceCheck := sinceCheck + 1;
      fed, phase := fed + chunk, Polling(false);
      Record(BeginDetect(chunk), before);
      detected := PollResults();
      FinishDetect(detected);
    }

    // `while let Ok(result) = try_recv()`: no new job is sent meanwhile, so the polling ends.
    method PollResults() returns (detected: bool)
      requires Valid() && phase == Polling(false)
      modifies this
      ensures Valid() && phase == Sending(detected) && old(trace) <= trace
      ensures generation == old(generation) && fed == old(fed)
      ensures old(fired) <= fired && detected == (|fired| > |old(fired)|)
    {
      detected := false;
      while true
        invariant Valid() && phase == Polling(detected) && old(trace) <= trace
        invariant generation == old(generation) && fed == old(fed)
        invariant old(fired) <= fired && detected == (|fired| > |old(fired)|)
        decreases |Outstanding(View())|
      {
        WorkerRuns();
        if fromWorker == [] {
          ghost var before := View();
          phase := Sending(detected);
          Record(PollEmpty, before);
          return;
        }
        var hit := PollOne();
        if hit {
          detected := true;
        }
      }
    }

    method PollOne() returns (hit: bool)
      requires Valid() && phase.Polling? && fromWorker != []
      modifies this
      ensures Valid() && trace == old(trace) + [PollResult]
      ensures phase == Polling(old(phase).detected || hit)
      ensures generation == old(generation) && fed == old(fed)
      ensures old(fired) <= fired && |fired| == |old(fired)| + (if hit then 1 else 0)
      ensures |Outstanding(View())| == |old(Outstanding(View()))| - 1
    {
      ghost var before := View();
      PollTakesFirst(before);
      var result := fromWorker[0];
      fromWorker := fromWorker[1..];
      ghost var polled := View();
      hit := HandleResult(result);
      assert Outstanding(View()) == Outstanding(polled);
      Record(PollResult, before);
    }

    method FinishDetect(detected: bool)
      requires Valid() && phase == Sending(detected)
      modifies this
      ensures Valid() && phase.Idle? && old(trace) <= trace
      ensures generation == old(generation) && fed == old(fed) && fired == old(fired)
      ensures |buffer| <= MAX_BUFFER_SAMPLES
    {
      WorkerRuns();
      SendAndTrim(detected);
      InterleavingSafe(isWakePhrase, trace);
    }

    method SendAndTrim(detected: bool)
      requires Valid() && phase == Sending(detected)
      modifies this`sinceCheck, this`checkInFlight, this`toWorker, this`buffer, this`phase, this`trace
      ensures Valid() && phase.Idle? && trace == old(trace) + [Send]
    {
      ghost var before := View();
      MaybeStartCheck();
      if !detected {
        TrimBufferIfOverCap();
      }
      phase := Idle;
      Record(Send, before);
    }

    method HandleResult(result: WakeResult) returns (hit: bool)
      requires phase.Polling?
      modifies this
      ensures View() == Handled(isWakePhrase, old(View()), result)
      ensures hit == (result.job.generation == generation && isWakePhrase(result.text))
      ensures trace == old(trace)
    {
      checkInFlight := false;
      if result.job.generation != generation {
        return false;
      }
      if isWakePhrase(result.text) {
        buffer := [];
        phase, fired := Polling(true), fired + [Firing(result.job.samples, fed)];
        return true;
      }
      return false;
    }

    method MaybeStartCheck()
      modifies this`sinceCheck, this`checkInFlight, this`toWorker
      ensures View() == CheckStarted(old(View()))
    {
      if sinceCheck < CHECK_INTERVAL_CHUNKS {
        return;
      }
      sinceCheck := 0;
      if checkInFlight {
        return;
      }
      var job := WakeJob(generation, buffer);
      if |toWorker| < JOB_QUEUE_CAPACITY {
        toWorker := toWorker + [job];
        checkInFlight := true;
      }
    }

    method TrimBufferIfOverCap()
      modifies this`buffer
      ensures buffer == if |old(buffer)| > MAX_BUFFER_SAMPLES then old(buffer)[|old(buffer)| - MAX_BUFFER_SAMPLES..]
                        else old(buffer)
    {
      if |buffer| > MAX_BUFFER_SAMPLES {
        var excess := |buffer| - MAX_BUFFER_SAMPLES;
        buffer := buffer[excess..];
      }
    }

    method ResetDetector()
      requires Valid() && phase.Idle?
      modifies this
      ensures Valid() && trace == old(trace) + [Reset]
      ensures View() == Apply(isWakePhrase, old(View()), Reset)
    {
      ghost var before := View();
      ghost var stale := staleReset || Outstanding(before) != [];
      Forget();
      fed, staleReset := [], stale;
      Record(Reset, before);
    }

    // What a reset clears.
    method Forget()
      modifies this`buffer, this`sinceCheck, this`generation, this`checkInFlight
      ensures buffer == [] && sinceCheck == 0 && generation == old(generation) + 1 && !checkInFlight
    {
      buffer := [];
      sinceCheck := 0;
      generation := generation + 1;
      checkInFlight := false;
    }

    /** Any number of worker steps, at any point: receive a job, or finish one with any transcript. */
    method WorkerRuns()
      requires Valid()
      modifies this`toWorker, this`running, this`fromWorker, this`trace
      ensures Valid() && old(trace) <= trace
      ensures Outstanding(View()) == old(Outstanding(View()))
    {
      var steps: int := *;
      while steps > 0
        invariant Valid() && old(trace) <= trace
        invariant Outstanding(View()) == old(Outstanding(View()))
      {
        steps := steps - 1;
        ghost var before := View();
        if running.Some? {
          var text: string := *;
          fromWorker := fromWorker + [WakeResult(running.value, text)];
          running := None;
          WorkerKeepsJobs(isWakePhrase, before, WorkerFinish(text));
          Record(WorkerFinish(text), before);
        } else if toWorker != [] {
          running, toWorker := Some(toWorker[0]), toWorker[1..];
          WorkerKeepsJobs(isWakePhrase, before, WorkerTake);
          Record(WorkerTake, before);
        }
      }
    }
  }
}
