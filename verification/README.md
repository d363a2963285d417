# Nala, modelled in Dafny

Nala is a voice assistant: an agent loop that lets a language model call tools, an always-listening pipeline in front of
it, devices and clients that come and go around it, and metrics that record what it did. This project models the parts
of it that are deterministic and stateful, and proves what they promise. The model, the tools, the microphone, the
transcriber, the clock, other threads and hash-map order are arbitrary, and cancellation may be requested at any moment:
every theorem holds for all of them.

Each module follows one source component. Code that updates state is a class whose methods have the source's loops and
branches and are proved against a specification function over values; the properties are lemmas about that function.
Components shared by several threads (`WakeWord`, `DeviceCalls`, `ClipOutbox`, `SpeechQueue`) are modelled twice, and the
two are tied together. A view and a datatype of atomic steps describe every interleaving, and lemmas prove what holds in
all of them. A class holds the real fields; each of its methods is proved to take those very steps, with any number of
steps by the other threads in between, and its `Valid()` says that its fields are where its recorded interleaving leads.

- `CivilDate`: days since the epoch to calendar dates.
- `Audio`, `Resampling`, `AudioRing`, `ListeningSession`, `Listening`, `WakeWord`: the listening pipeline. Samples and
  probabilities are exact reals; the resampler's position is kept in units of one over the target rate.
- `DeviceCalls`, `ClipOutbox`, `SpeechQueue`: the concurrent protocols.
- `Wav`: the WAV writer and the RIFF chunk reader, over bytes, with Kotlin's 32-bit and 16-bit wrap-around.
- `ToolRouting`: what tools the model is offered, and where a call by name goes.
- `Prompt`, `ContextBudget`, `Transcripts`: messages, the eviction steps and the pruned history.
- `TurnEvents`, `TurnLogs`: the events of a turn, an automaton for the orders the loop keeps, and tallies.
- `MetricsSinks`: the CSV and JSONL sinks.
- `TurnExchanges`, `Questions`: what a turn sends to the model and to the dispatcher, with what comes back; what each
  question consists of, and what fitting it to the budget leaves.
- `AgentLoop`: the turn itself. Its main contract is `Assistant.ProcessFrom`. Whatever is sent to the model or to the
  dispatcher is noted, with what came back, where it leaves the loop (`CallLlm`, `Dispatch`); the limits, the prompts, the
  reasons and the events are all stated of those notes.
- `Recording`: the loop and the sinks together.

Some of what the code's comments or its design suggest is not what the code does. The model follows the code, and these
lemmas say exactly how far it goes:

- The speech gate is a counter only while the exit threshold is not above the enter threshold
  (`ListeningSession.GateClosedFormExactly`).
- The chunk that triggers a capture is already in the look-back buffer when it is appended, so with a pre-roll of at
  least one chunk, if that much has been heard, it is in the utterance twice, and otherwise once
  (`Listening.TriggerChunkTwice`).
- "A check is in flight" says throughout whether one is out exactly when no reset came while one was
  (`WakeWord.FlagMeansOneJob`); after such a reset it can be false while a check of the current generation is out
  (`WakeWord.StaleResultClearsFlag`).
- A clip put back after a failed send may stand beyond the outbox's cap (`ClipOutbox.CapExceeded`); the queue stays within
  the cap exactly when no failed send finds it full (`ClipOutbox.WithinCapExactly`, `ClipOutbox.StepOverCapExactly`).
- A speech worker that dies while speaking leaves `is_speaking` true for good (`SpeechQueue.DeadWorkerNeverQuiet`).
- Truncating a barely long tool result makes it longer, and doing it again counts it again
  (`ContextBudget.ShortenTwice`, `ContextBudget.TruncateTwice`).
- The two implementations of shadowing agree for a device exactly when its name has no underscore or it publishes nothing
  (`ToolRouting.HiddenMeansHandledExactly`, with an example in `ToolRouting.UnderscoredNameDisagrees`), and an MCP tool
  named like a native one is shown with the server's definition but runs the native tool
  (`ToolRouting.BootAgreesExactly`).
- A call that is abandoned on cancellation gets a number and no outcome, so the recorded call indices of a turn run
  without a gap exactly when no call was abandoned (`Recording.NoGapExactly`, `Recording.RecordGapless`). Only the last
  two can be missing, and there is a hole exactly when the next to last call, then a summary, was abandoned and the last
  was not (`Recording.HoleExactly`, with such a turn in `Recording.AbandonedSummaryLeavesHole`).
- The two sinks would record different errors for a task that first failed and then completed
  (`MetricsSinks.FiledErrorsAgreeExactly`); the agent loop never emits such a trace.

## Model

| member | source | states |
|---|---|---|
| CivilDate.CivilFromDaysCorrect | apps/nala/src/adapters/metrics/timestamp.rs:29-41 | for every day number the result is a real proleptic Gregorian date, and summing month lengths under the leap rule of Appendix C of RFC 3339 counts back to that number |
| CivilDate.CivilFromDaysInverse | apps/nala/src/adapters/metrics/timestamp.rs:29-41 | every real date is produced by its own day number |
| CivilDate.CivilFromDaysMonotone | apps/nala/src/adapters/metrics/timestamp.rs:29-41 | a later day number gives a later (year, month, day), and only then |
| CivilDate.CivilFromDaysSteps | apps/nala/src/adapters/metrics/timestamp.rs:29-41 | one more day is the next date on the calendar, across month ends, leap days and year ends |
| CivilDate.DaysFromCivilMonotone | apps/nala/src/adapters/metrics/timestamp.rs:29-41 | the reference day count orders dates as the calendar does |
| CivilDate.FormatFieldsExact | apps/nala/src/adapters/metrics/timestamp.rs:10-27 | the printed fields are a real date and time of day and lose no second; a clock before the epoch prints the epoch |
| Resampling.DueExactly | crates/stt/src/resample.rs:44-91 | off the identity path ceil((n - 1) * to / from) outputs are due after n samples: exactly those whose two neighbours have arrived |
| Resampling.WholePrefix | crates/stt/src/resample.rs:44-91 | more input only appends output |
| Resampling.WholeAffine | crates/stt/src/resample.rs:64-84 | of a straight line c + d * i, output k is c + d * (k * from / to): each output is the signal at its own time |
| Resampling.WholeOnSample | crates/stt/src/resample.rs:64-84 | an output that lands on a source sample is that sample |
| Resampling.WholeBetween | crates/stt/src/resample.rs:64-84 | every output lies between the two source samples around its time |
| Resampling.CarriedPosition | crates/stt/src/resample.rs:69-90 | the carried position reaches back at most one sample, and only when one is kept, so the fallback to the first sample is never taken |
| Resampling.Resampler.Push | crates/stt/src/resample.rs:44-91 | one push appends exactly the outputs that became due, each interpolated between its two source samples as in the whole signal |
| Resampling.Resampler.Interpolate | crates/stt/src/resample.rs:56-84 | the loop over the carried position emits exactly the outputs that became due and stops at the next one |
| Resampling.Resampler.NeighboursInBlock | crates/stt/src/resample.rs:69-83 | the sample before the block and the block itself hold both neighbours of every due output |
| Resampling.PushInBlocks | crates/stt/src/resample.rs:44-91 | pushing a signal in any blocks, empty ones included, emits what one push of the whole emits; a straight line comes out as the same line at the new rate |
| AudioRing.LastOfAppend | crates/stt/src/ring.rs:44-66 | keeping the newest samples after every write keeps the newest of the whole history |
| AudioRing.WriteKeepsLast | crates/stt/src/ring.rs:44-66 | a run of writes at a wrapping head leaves the last capacity samples of old contents and input readable in order |
| AudioRing.ReadDropsFirst | crates/stt/src/ring.rs:70-86 | taking from the tail removes the oldest samples and nothing else |
| AudioRing.Ring.Write | crates/stt/src/ring.rs:44-66 | the contents become the last capacity samples of contents and input; the overrun flag goes up exactly when they did not fit |
| AudioRing.Ring.Read | crates/stt/src/ring.rs:70-86 | fills the buffer with the oldest samples and removes them, or changes nothing |
| AudioRing.Ring.PeekLast | crates/stt/src/ring.rs:89-100 | fills the buffer with the newest samples and removes none, or changes nothing |
| AudioRing.Ring.CopyFrom | crates/stt/src/ring.rs:102-108 | copies a run of slots, wrapping at the end |
| AudioRing.Ring.Clear | crates/stt/src/ring.rs:110-114 | drops everything |
| AudioRing.Ring.TakeOverrun | crates/stt/src/ring.rs:116-120 | reports the overrun flag and lowers it |
| AudioRing.OverrunMeans | crates/stt/src/ring.rs:44-120 | the flag is up exactly when some write since the last take did not fit |
| AudioRing.WritesKeepNewest | crates/stt/src/ring.rs:44-66 | writes alone leave the newest capacity samples ever written, however they were cut into calls |
| AudioRing.RunRing | crates/stt/src/ring.rs:44-120 | through any run of operations the ring is the plain sequence its operations describe |
| ListeningSession.Session.Observe | crates/stt/src/session.rs:158-272 | one chunk moves the five states and four counters and returns the action as specified |
| ListeningSession.CountersFromHistory | crates/stt/src/session.rs:158-272 | while capturing, the captured, speech and trailing-silence counters are functions of what was heard since the last start or restart; warm-up and follow-up windows likewise |
| ListeningSession.ActionsFromHistory | crates/stt/src/session.rs:158-272 | each action of a run is the one its history of observations and actions calls for |
| ListeningSession.ActionGrammar | crates/stt/src/session.rs:158-272 | idle, start, (capture or restart)*, then complete, max or discard; expiry only in follow-up mode, outside a capture, on a silent chunk |
| ListeningSession.CompleteMeans | crates/stt/src/session.rs:223-256 | a completion comes after the start, ends in `hangover` silent chunks, and had at least `min_utterance` counted speech chunks |
| ListeningSession.CaptureBounded | crates/stt/src/session.rs:223-258 | a capture that goes on holds fewer chunks than the utterance cap |
| ListeningSession.SpeechGate.Update | crates/stt/src/session.rs:315-339 | one probability moves the latch between its two thresholds |
| ListeningSession.GateCounts | crates/stt/src/session.rs:315-339 | with exit at most enter the gate is active exactly when at least max(1, enter_chunks) chunks above enter were seen since the last one below exit |
| ListeningSession.GateClosedFormExactly | crates/stt/src/session.rs:303-339 | that closed form describes the gate on all inputs exactly when exit is at most enter |
| Listening.CaptureLength | crates/stt/src/listener.rs:159-275 | a capture under way is never longer than the longer pre-roll plus max(1, max_utterance - 1) chunks |
| Listening.HandedOverLength | crates/stt/src/listener.rs:159-275 | no utterance handed to the transcriber is longer than the longer pre-roll plus max(1, max_utterance - 1) chunks |
| Listening.TriggerChunkTwice | crates/stt/src/listener.rs:197-213 | the chunk that triggered the capture is in it twice, one copy after the other, exactly when the pre-roll is at least one chunk and that many have been heard; otherwise the capture starts with it |
| Listening.OpeningWindow | crates/stt/src/listener.rs:193-214 | a wake-word start and any restart open with the wake word's look-back, and a follow-up's start with its own |
| Listening.NewestChunks | crates/stt/src/listener.rs:265-275 | the ring's newest samples are the newest chunks, and a pre-roll that is not there yet is left out |
| Listening.ListenStep | crates/stt/src/listener.rs:170-250 | one chunk of listening keeps the session, the capture and the audio handed over functions of what was observed |
| Listening.Listener.Listen | crates/stt/src/listener.rs:159-252 | over all chunks ever read, speech is what the gate makes of the voice probabilities (two above 0.55 since the last below 0.35) and wake is the wake detector's yes, asked only in speech, or a pending trigger; the audio handed to the transcriber is the pre-roll ending at the last trigger chunk, that chunk, then every later chunk up to but not including the completing one, never longer than the longer pre-roll plus the cap; the listen ends on the first transcript that is sane after clean-up, or fails, or is a follow-up's, or on expiry, or when the microphone closes, and returns just that; a wake-word listen never returns nothing |
| Listening.Listener.New | crates/stt/src/listener.rs:108-131 | the look-back ring is sized for the longest of the priming and pre-roll windows, plus a margin |
| Listening.Listener.Begin | crates/stt/src/listener.rs:159-168 | only the first listen warms the device up; later ones settle |
| Listening.Listener.React | crates/stt/src/listener.rs:189-249 | what each action does to the capture, and when the listen is over: on a completion whose transcript ends it, or on expiry |
| Listening.Listener.ReadChunk | crates/stt/src/listener.rs:171-187 | one chunk is remembered for look-back, its probability goes through the gate, and the wake detector is asked only in speech |
| Listening.Listener.Transcribe | crates/stt/src/listener.rs:221-241 | the capture is handed over; the transcript is cleaned up, and dropped when it is not sane |
| Listening.Listener.PrependPreRoll | crates/stt/src/listener.rs:265-275 | the capture starts with the pre-roll window of the mode, or empty |
| WakeWord.InterleavingSafe | crates/stt/src/wake.rs:104-236 | in every interleaving of detect, reset and the worker: the buffer is a suffix of the audio fed since the last reset and within its cap after detect, at most one job is queued plus one running, and jobs of this generation hold a run of that audio |
| WakeWord.FiresOnlyOnFreshAudio | crates/stt/src/wake.rs:156-171 | a detection fires only from a transcript of a contiguous run of audio fed after the last reset |
| WakeWord.CheckHearsNewest | crates/stt/src/wake.rs:173-222 | in every interleaving a check sent to the worker holds all audio fed since the last reset or detection, or at least the newest the cap leaves |
| WakeWord.FlagMeansOneJob | crates/stt/src/wake.rs:156-232 | `check_in_flight` says at every step whether a job is outstanding exactly when no reset found one outstanding |
| WakeWord.ResetBreaksFlag | crates/stt/src/wake.rs:224-232 | the first reset that finds a job outstanding leaves it outstanding with the flag down, and no step undoes that |
| WakeWord.StaleResultClearsFlag | crates/stt/src/wake.rs:156-232 | for any chunk: three start a check, a reset comes while it runs, three more start the next, and the stale result clears the flag while that one is out |
| WakeWord.WhisperWake.Detect | crates/stt/src/wake.rs:205-222 | feeds, polls every finished check, then starts a check and trims; reports exactly whether a detection fired |
| WakeWord.WhisperWake.PollResults | crates/stt/src/wake.rs:205-222 | drains the results that have arrived, one atomic step each |
| WakeWord.WhisperWake.MaybeStartCheck | crates/stt/src/wake.rs:173-194 | every third chunk sends the buffer unless a check is in flight or the queue is full |
| WakeWord.WhisperWake.TrimBufferIfOverCap | crates/stt/src/wake.rs:196-202 | keeps the newest samples within the cap |
| WakeWord.WhisperWake.ResetDetector | crates/stt/src/wake.rs:224-232 | empties the buffer and starts a new generation |
| WakeWord.WhisperWake.WorkerRuns | crates/stt/src/wake.rs:104-143 | the worker takes and answers jobs at any time, and touches nothing else |
| DeviceCalls.InterleavingSafe | apps/nala/src/adapters/devices/websocket.rs:30-150 | in every interleaving of invokes, deliveries, send failures and timeouts the waiter table, the calls and their channels stay consistent |
| DeviceCalls.ReturnsItsOwnOutcome | apps/nala/src/adapters/devices/websocket.rs:111-148 | a finished invoke returns an outcome delivered under its own request id, or its own failure or timeout |
| DeviceCalls.RequestIdsUnique | apps/nala/src/adapters/devices/websocket.rs:111-117 | no two invokes ever share a request id |
| DeviceCalls.QuietTableEmpty | apps/nala/src/adapters/devices/websocket.rs:111-148 | the waiter table is empty whenever no invoke is in progress |
| DeviceCalls.WaiterNeverDisconnected | apps/nala/src/adapters/devices/websocket.rs:34-45 | a waiting call with an empty channel is still in the table, so its sender is never dropped unused |
| DeviceCalls.DeliveryTouchesOneCall | apps/nala/src/adapters/devices/websocket.rs:34-45 | a delivery reaches at most the one live call registered under its id; late, duplicate and unknown results touch none |
| DeviceCalls.FirstOutcomeSticks | apps/nala/src/adapters/devices/websocket.rs:34-45 | the first outcome to reach a call is the one it keeps |
| DeviceCalls.DecimalInjective | apps/nala/src/adapters/devices/websocket.rs:111-117 | request ids written in decimal are as unique as the counter |
| DeviceCalls.WsDevice.Invoke | apps/nala/src/adapters/devices/websocket.rs:111-148 | with any other steps in between, returns its own delivered outcome, a send failure or a timeout, and leaves no waiter behind |
| DeviceCalls.WsDevice.DeliverResult | apps/nala/src/adapters/devices/websocket.rs:97-99 | hands a result to the waiter of its id and forgets the waiter |
| DeviceCalls.WsDevice.Abandon | apps/nala/src/adapters/devices/websocket.rs:124-148 | an invoke that gives up takes its waiter out of the table |
| ClipOutbox.NothingLost | apps/voice/src/session.rs:45-101 | with any number of connections every pushed clip is, exactly once, delivered, in a hand, queued or dropped; each dropped one had expired or had MAX_CLIPS clips behind it; the queue plus hands never exceeds MAX_CLIPS plus the most connections ever open |
| ClipOutbox.StampsAreTrue | apps/voice/src/session.rs:45-101 | in every interleaving each queued entry's stamp, and each drop's, is the clock at that clip's last push or put-back |
| ClipOutbox.DropsAreJust | apps/voice/src/session.rs:45-101 | every dropped clip was dropped by one step, more than TTL after its last push or put-back, or with MAX_CLIPS clips behind it |
| ClipOutbox.PoppedIsFresh | apps/voice/src/session.rs:66-70 | a popped clip's last push or put-back is at most TTL ago |
| ClipOutbox.PutBackIsNext | apps/voice/src/session.rs:56-70 | a clip put back is the one the next connection pops within TTL, and the queue is then as it was |
| ClipOutbox.WithinCapExactly | apps/voice/src/session.rs:45-70 | in any interleaving the queue stays within MAX_CLIPS throughout exactly when no failed send finds it full |
| ClipOutbox.StepOverCapExactly | apps/voice/src/session.rs:45-70 | from within the cap an operation exceeds it exactly when it puts a clip back on a full queue |
| ClipOutbox.CapExceeded | apps/voice/src/session.rs:58-62 | a run of one connection, one pop and 33 pushes in which a failed send leaves MAX_CLIPS + 1 clips queued |
| ClipOutbox.DeliveredInPushOrder | apps/voice/src/audio_server.rs:108-123 | with one connection at a time, delivered clips, the clip in hand and the queue are a subsequence of the pushed clips, in order and without duplicates |
| ClipOutbox.StepConserves | apps/voice/src/session.rs:45-101 | no atomic operation loses or duplicates a clip |
| ClipOutbox.StepBounded | apps/voice/src/session.rs:45-101 | every operation keeps the bound on queue and hands |
| ClipOutbox.StepKeepsOrder | apps/voice/src/session.rs:45-101 | with at most one connection every operation keeps the line of clips in push order |
| ClipOutbox.Outbox.PurgeExpired | apps/voice/src/session.rs:92-101 | drops expired clips off the front and no others |
| ClipOutbox.Outbox.PushClip | apps/voice/src/session.rs:45-54 | purges, appends, and trims the oldest down to the cap |
| ClipOutbox.Outbox.PushFront | apps/voice/src/session.rs:58-62 | puts a popped clip back at the front with its age starting over, and trims nothing |
| ClipOutbox.Outbox.PopNext | apps/voice/src/session.rs:66-70 | pops the oldest clip that has not expired, and never an expired one |
| ClipOutbox.DrainOutbox | apps/voice/src/audio_server.rs:114-123 | sends queued clips in turn until the queue is empty or a send fails, and puts the failed clip back |
| ClipOutbox.RunAudioSession | apps/voice/src/audio_server.rs:103-160 | a whole connection: what it sent was delivered and no clip stays in its hand; unless a send fails, the outbox was empty once for every look at the wire, and only pushes and time follow the last time before the connection closes; it ends early only on a failed send, with a clip back in the queue |
| SpeechQueue.InterleavingSafe | crates/tts/src/async_speech.rs:41-113 | in every interleaving of speakers, narrators, flushers and the worker, even one that dies, the channel, the counter and the order of speech stay consistent |
| SpeechQueue.PendingIsOutstanding | crates/tts/src/async_speech.rs:46-104 | `pending` is exactly the announced and unsent, the queued and the message being spoken, and never underflows |
| SpeechQueue.SpokenInSendOrder | crates/tts/src/async_speech.rs:46-62 | what has been spoken is a prefix of what was sent, in the order it was sent |
| SpeechQueue.FlushMeansSpoken | crates/tts/src/async_speech.rs:89-94 | an acknowledged flush means everything sent before the call began has been spoken, even if the worker dies later; only a dead worker releases a flush unacknowledged |
| SpeechQueue.FlushReturnsExactly | crates/tts/src/async_speech.rs:46-94 | a flush that has come back was acknowledged exactly when the worker got to its message; otherwise the worker had died |
| SpeechQueue.NarrationsBounded | crates/tts/src/async_speech.rs:68-73 | pending narrations exceed MAX_QUEUED_NARRATION only by those that raced past the check; with narrations from one thread they never do |
| SpeechQueue.QuietMeansSpoken | crates/tts/src/async_speech.rs:84-86 | when `is_speaking` is false everything ever sent has been spoken and nothing is on its way |
| SpeechQueue.DeadWorkerNeverQuiet | crates/tts/src/async_speech.rs:46-62 | a worker that dies while speaking leaves `is_speaking` true |
| SpeechQueue.AnswersNeverDropped | crates/tts/src/async_speech.rs:96-113 | an answer is never dropped, and lost only to a dead worker |
| SpeechQueue.AsyncSpeech.Say | crates/tts/src/async_speech.rs:109-112 | queued behind everything sent so far, or refused by a dead worker |
| SpeechQueue.AsyncSpeech.SayNarration | crates/tts/src/async_speech.rs:68-73 | dropped at the check or queued behind everything sent so far |
| SpeechQueue.AsyncSpeech.NarrateFrom | crates/tts/src/async_speech.rs:68-73 | dropped exactly when two or more messages are pending at the check |
| SpeechQueue.AsyncSpeech.Flush | crates/tts/src/async_speech.rs:89-94 | returns: acknowledged, with everything sent before the call spoken, or released by a dead worker |
| SpeechQueue.AsyncSpeech.IsSpeaking | crates/tts/src/async_speech.rs:84-86 | true exactly when something is announced, queued or being spoken |
| SpeechQueue.AsyncSpeech.SendMessage | crates/tts/src/async_speech.rs:96-104 | sends, or undoes the announcement when the worker is gone |
| Wav.RoundTripExactly | apps/android/app/src/main/kotlin/com/bassi/nala/audio/WavReader.kt:20-70 | decoding what the writer wrote gives the same samples, rate and channel count exactly when the rate is positive and the channel count is in 1..32767 |
| Wav.Wrap | apps/android/app/src/main/kotlin/com/bassi/nala/audio/WavWriter.kt:16-46 | writes the 44-byte header and the samples as a format and a data chunk, whenever the size fits an Int |
| Wav.WrittenBytes | apps/android/app/src/main/kotlin/com/bassi/nala/audio/WavWriter.kt:16-46 | every byte of a written file by its offset: chunk names and sizes, format tag, channels, rate, byte rate, block align and bits, and each sample, as little-endian values |
| Wav.Decode | apps/android/app/src/main/kotlin/com/bassi/nala/audio/WavReader.kt:20-70 | the chunk walk ends on every byte array, with the clip or the error specified |
| Wav.WalkChunk | apps/android/app/src/main/kotlin/com/bassi/nala/audio/WavReader.kt:34-64 | one turn of the walk rejects an impossible size, reads the chunk, and steps past its padding if it is there |
| Wav.DecodesChunks | apps/android/app/src/main/kotlin/com/bassi/nala/audio/WavReader.kt:34-69 | any list of well-formed chunks, with up to seven trailing bytes, decodes to what its chunks mean |
| Wav.ExtraChunksIgnored | apps/android/app/src/main/kotlin/com/bassi/nala/audio/WavReader.kt:34-64 | inserting or removing any other chunks, anywhere, changes nothing |
| Wav.TruncatedRejected | apps/android/app/src/main/kotlin/com/bassi/nala/audio/WavReader.kt:20-70 | every proper prefix of a written file is rejected |
| Wav.IntRoundTrip | apps/android/app/src/main/kotlin/com/bassi/nala/audio/WavWriter.kt:22-35 | a little-endian Int reads back as written, wrapped to 32 bits |
| Wav.SamplesRoundTrip | apps/android/app/src/main/kotlin/com/bassi/nala/audio/WavWriter.kt:37-40 | the samples read back as written |
| ToolRouting.BareExactly | apps/nala/src/application/tools/registry.rs:71-76 | stripping a prefixed name gives the capability back exactly when the device's name has no underscore, and something longer otherwise |
| ToolRouting.RegisterKeepsOrder | apps/nala/src/application/tools/registry.rs:26-35 | re-registering never changes the order of names, and names stay distinct |
| ToolRouting.RegisterFinds | apps/nala/src/application/tools/registry.rs:26-35 | the last definition registered under a name is the one found |
| ToolRouting.ToolRegistry.Register | apps/nala/src/application/tools/registry.rs:26-35 | replaces in place or appends |
| ToolRouting.ToolRegistry.Get | apps/nala/src/application/tools/registry.rs:37-43 | the unshadowed static definition, or the device's |
| ToolRouting.ToolRegistry.Definitions | apps/nala/src/application/tools/registry.rs:61-68 | the device layer, then the statics it does not shadow, in registration order |
| ToolRouting.GetAgreesWithOffered | apps/nala/src/application/tools/registry.rs:37-68 | a name can be looked up exactly when a definition of that name is offered |
| ToolRouting.AllDefinitionsAre | apps/nala/src/application/tools/device_toolset.rs:26-37 | the device layer is exactly the connected devices' capabilities under their prefixed names |
| ToolRouting.DeviceToolReachesItsDevice | apps/nala/src/application/tools/dispatcher.rs:210-239 | with distinct underscore-free device names, every offered device tool reaches its own device under the capability it published |
| ToolRouting.OfferedStaticReachesItsProvider | apps/nala/src/application/tools/dispatcher.rs:256-452 | every offered static tool that exists and carries no prefixed name reaches the first provider of that name, never a device |
| ToolRouting.HiddenMeansPublishedBare | apps/nala/src/application/tools/registry.rs:55-59 | with underscore-free device names, a name is hidden exactly when some connected device publishes it bare |
| ToolRouting.HiddenMeansHandledExactly | apps/nala/src/application/tools/registry.rs:55-76 | for one device, the names hidden are the names it handles bare exactly when its name has no underscore or it publishes nothing |
| ToolRouting.BareNameRoute | apps/nala/src/application/tools/dispatcher.rs:210-239 | a bare name reaches a device exactly when one device alone publishes it, and that device; otherwise the static tools decide |
| ToolRouting.UnderscoredNameDisagrees | apps/nala/src/application/tools/device_toolset.rs:50-77 | the example: a device "my_pc" with "open" takes the calls of an offered native "open" and hides a native "pc_open" whose calls it does not take |
| ToolRouting.BootAgreesExactly | apps/nala/src/bootstrap.rs:102-167 | the definition shown for a static name is the one of the provider its calls reach, exactly unless an MCP server publishes a native tool's name differently |
| ToolRouting.ToolDispatcher.Dispatch | apps/nala/src/application/tools/dispatcher.rs:256-452 | devices first, then the first static tool of that name, over a fresh snapshot |
| ToolRouting.ToolDispatcher.SyncDevices | apps/nala/src/application/tools/dispatcher.rs:188-201 | replaces every device entry by one with the snapshot's devices, or leaves an unwired list alone |
| ToolRouting.ToolDispatcher.DeviceTools | apps/nala/src/application/tools/dispatcher.rs:454-470 | the definitions of every connected device, after a sync |
| ContextBudget.EvictImages | apps/nala/src/application/context_budget.rs:68-94 | clears exactly the evictable images behind at least `keep` later image-bearing messages, and counts the images stripped |
| ContextBudget.TruncateLongToolResults | apps/nala/src/application/context_budget.rs:99-133 | shortens exactly the evictable long tool results, and counts them |
| ContextBudget.DropOldestUntilFits | apps/nala/src/application/context_budget.rs:138-152 | drops the fewest of the oldest evictable messages that make the rest fit, or all of them |
| ContextBudget.EvictedKeepsRecent | apps/nala/src/application/context_budget.rs:68-94 | at most `keep` evictable messages still carry images, as many as before when there were fewer; doing it again changes nothing |
| ContextBudget.PrefixUntouched | apps/nala/src/application/context_budget.rs:68-133 | eviction and truncation leave the protected prefix alone |
| ContextBudget.TruncateTwice | apps/nala/src/application/context_budget.rs:99-133 | truncating again changes nothing and counts the same messages again |
| ContextBudget.ShortenTwice | apps/nala/src/application/context_budget.rs:112-129 | a long result comes out longer exactly when it is less than the marker over the limit |
| ContextBudget.ShortenedKeepsEnds | apps/nala/src/application/context_budget.rs:112-129 | a shortened result starts with its first head characters and ends with its last tail characters, with the 21-character marker in between |
| ContextBudget.TruncatedImages | apps/nala/src/application/context_budget.rs:99-133 | truncation never touches an image |
| Transcripts.KeepFrom | apps/nala/src/application/transcript.rs:27-33 | the start of the longest suffix of a history that fits beside the system prompt |
| Transcripts.Transcript.Push | apps/nala/src/application/transcript.rs:27-33 | leaves the system prompt and the longest suffix that fits beside it |
| Transcripts.KeepsLongestSuffix | apps/nala/src/application/transcript.rs:27-33 | while the budget does not grow, incremental pruning keeps the longest suffix of the entire push history that fits: nothing a computation from scratch would keep is lost |
| Transcripts.OnlyFrontLost | apps/nala/src/application/transcript.rs:20-33 | whatever the budgets, only the front of the history is lost, and the system prompt never |
| Transcripts.Transcript.SystemPrompt | apps/nala/src/application/transcript.rs:50-57 | the first message's content while it is a system message |
| TurnLogs.EndedTrace | apps/nala/src/application/agent_loop.rs:94-321 | a finished turn's events extend the accepted trace by one whole turn with the given ending, counts and facts |
| TurnLogs.CallStarts | apps/nala/src/application/agent_loop.rs:66-70 | LLM calls of a turn are numbered 1, 2, 3, ... without a gap, whoever makes them |
| TurnLogs.LongestTrueMeans | apps/nala/src/application/agent_loop.rs:208-245 | the longest block of failures is below a limit exactly when no such block of adjacent failures exists |
| TurnLogs.LongestRunMeans | apps/nala/src/application/agent_loop.rs:178-190 | the longest run is below a limit exactly when no such block of equal adjacent calls exists |
| MetricsSinks.SinksReconcile | apps/nala/src/adapters/metrics/csv_sink.rs:212-417 | on every trace of whole turns, in any hash-map order, once both sinks are dropped: one row and one record per turn, in order, with the turn's status and error; the columns add up over the record's lists (see FilesAddUp); the call and tool rows are those lists; and the record's prompt, source, reply and lists are what the turn's events say |
| MetricsSinks.FilesAddUp | apps/nala/src/adapters/metrics/csv_sink.rs:267-403 | a call's row has a total exactly when both counts are there, and then it is their sum; a task's total is input plus output summed over the calls that report both, and its input plus its output when all do; a tool's row is an error exactly when its output starts with "ERROR:", and an LLM call's exactly when it failed |
| MetricsSinks.TotalMeans | apps/nala/src/adapters/metrics/csv_sink.rs:285-305 | a task's total is there exactly when some call reports both counts, and is the sum of input and output over those calls |
| MetricsSinks.StepAgrees | apps/nala/src/adapters/metrics/jsonl_sink.rs:178-300 | every event of an accepted trace keeps the two sinks telling the same story |
| MetricsSinks.StepTells | apps/nala/src/adapters/metrics/jsonl_sink.rs:178-300 | every event of an accepted trace keeps the record in the making equal to the turn's own facts: prompt, reply, every call with its tokens or error, every tool call with its arguments and output |
| MetricsSinks.FlushAgrees | apps/nala/src/adapters/metrics/csv_sink.rs:249-265 | both sinks file a turn left open as an error, with its last failure or the stock reason, whatever the map order |
| Recording.NoGapExactly | apps/nala/src/application/agent_loop.rs:373-431 | the recorded call numbers of a turn are 1, 2, ... up to its number of LLM calls exactly when no call of the turn was abandoned |
| Recording.RecordedExactly | apps/nala/src/application/agent_loop.rs:373-431 | a number is recorded exactly when it is the number of a call that was not abandoned |
| Recording.HoleExactly | apps/nala/src/application/agent_loop.rs:158-361 | at most the last two numbers are missing; there is a recorded number above a missing one exactly when the next to last call was abandoned and the last was not, and the missing one is then a summary |
| Recording.AbandonedSummaryLeavesHole | apps/nala/src/application/agent_loop.rs:158-320 | a turn with the events of the loop: a tool call, a prompt over budget, an abandoned summary, a drop and an answered call; calls 1 and 3 are recorded |
| Recording.RecordGapless | apps/nala/src/adapters/metrics/jsonl_sink.rs:190-262 | a turn's record has every call number of the turn exactly when no call was abandoned |
| Recording.RecordsTellTurns | apps/nala/src/adapters/metrics/jsonl_sink.rs:136-155 | the row and record of each turn carry what was asked, the status, reason and reply of its result, and exactly the exchanges with the model and the tools that had an outcome |
| Recording.CloseSinks | apps/nala/src/adapters/metrics/csv_sink.rs:413-417 | after any number of turns, dropping both sinks leaves one such row and record for each, with columns that add up over the record's calls |
| MetricsSinks.FiledErrorsAgreeExactly | apps/nala/src/adapters/metrics/jsonl_sink.rs:136-155 | filing without an error agrees between the sinks exactly when the task had not failed before, or failed with an empty reason |
| MetricsSinks.CsvMetricsSink.Record | apps/nala/src/adapters/metrics/csv_sink.rs:309-403 | each event updates the accumulators and rows as specified |
| MetricsSinks.CsvMetricsSink.HandleTokensUsed | apps/nala/src/adapters/metrics/csv_sink.rs:267-307 | writes a row only for the pending completion of the same call, and adds its counts; FilesAddUp says what the counts come to |
| MetricsSinks.CsvMetricsSink.FlushAbandoned | apps/nala/src/adapters/metrics/csv_sink.rs:249-265 | files every other task once, in the order the map gives |
| MetricsSinks.JsonlMetricsSink.Record | apps/nala/src/adapters/metrics/jsonl_sink.rs:178-300 | each event updates the accumulators and records as specified |
| MetricsSinks.JsonlMetricsSink.PatchTokens | apps/nala/src/adapters/metrics/jsonl_sink.rs:213-232 | patches the pending call's token counts in place |
| MetricsSinks.JsonlMetricsSink.FlushAbandoned | apps/nala/src/adapters/metrics/jsonl_sink.rs:160-176 | files every other task once, in the order the map gives |
| MetricsSinks.DropBoth | apps/nala/src/adapters/metrics/csv_sink.rs:413-417 | dropping both sinks after the same whole turns leaves files that match turn by turn and call by call, and whose columns add up |
| AgentLoop.Assistant.ProcessFrom | apps/nala/src/application/agent_loop.rs:94-321 | against any model and tools a turn ends; with M = max(1, max_tool_calls) and R = max_llm_retries it has at most 3M + 1 rounds, M tool calls and 1 + (3M + 1)(R + 2) LLM calls; the dispatched calls are those the model asked for, in order, with no max_identical_repeats equal ones in a row and never more than max(1, max_consecutive_tool_failures) refusals in a row; every prompt sent for an answer starts with the context, the facts, the transcript with the user's message and the plan, and fits or is that alone; every such prompt is the one before it, with the calls, results and nudges added since, in order, and reduced only by the budget's steps; in a turn whose events report no such step it is that start and all that was added; an abandoned call is the last, or a summary followed by one more; Verifying is entered at most once; an answer resting on an unchecked change was nudged once and marked, and no other turn is marked; the turn ends for the reason it gives; its events are an accepted turn that carries the input, every exchange with an outcome, and the result; the transcript gains the input and, on success, the answer |
| AgentLoop.Assistant.ProcessAll | apps/nala/src/application/agent_loop.rs:94-321 | any number of turns: whole turns of events, one by one carrying what was asked and by whom, ending with the status, reason and reply of their results, and telling exactly the exchanges that had an outcome |
| AgentLoop.Assistant.Rounds | apps/nala/src/application/agent_loop.rs:158-320 | the main loop ends within its bounds, by the measure of tool calls left, the unused gate and the empty responses left; every question it sent is what stood, fitted; it ended for the reason its exchanges bear out |
| AgentLoop.Assistant.Ask | apps/nala/src/application/agent_loop.rs:159-167 | one round makes at most R + 2 LLM calls: at most one for a summary and the rest all with the prompt as it stood, fitted; it fails only on the error of its last call or on cancellation |
| AgentLoop.Assistant.FitAndGenerate | apps/nala/src/application/agent_loop.rs:163-167 | the question is the previous one with everything added since, fitted to the budget, and all of it when no step was reported |
| AgentLoop.Assistant.React | apps/nala/src/application/agent_loop.rs:169-318 | tool calls, an answer, a nudge or an abort, each leaving the loop's variables as the history says and the prompt with just what that adds; what ends the turn is the text of the last answer, its emptiness, or a limit reached |
| AgentLoop.Assistant.ExecuteToolCall | apps/nala/src/application/agent_loop.rs:172-252 | cancelled, stopped as a loop before dispatch, or dispatched and then held to the failure and call limits, in that order; a dispatched call adds itself and its result to the prompt; it stops as a loop only when the undispatched call would make the run of equal calls reach max_identical_repeats, for failures only when the refusals at the end reach their limit, and for the call limit only at the last call allowed |
| AgentLoop.Assistant.StopAtLimit | apps/nala/src/application/agent_loop.rs:234-251 | stops when a limit is reached and only then, failures before the count of calls |
| AgentLoop.Assistant.RunTools | apps/nala/src/application/agent_loop.rs:172-254 | dispatches every requested call in turn unless one stops the turn, for a reason true of the calls dispatched and the next one |
| AgentLoop.Assistant.RunTool | apps/nala/src/application/agent_loop.rs:194-228 | emits the start, dispatches, and emits the outcome; a refusal, and only a refusal, is a failure, and becomes a readable outcome that changed nothing |
| AgentLoop.Assistant.AnswerWith | apps/nala/src/application/agent_loop.rs:257-304 | nudges once on an unchecked change, with the words and the event of the code, marks the second answer, and otherwise just answers |
| AgentLoop.Assistant.NudgeEmpty | apps/nala/src/application/agent_loop.rs:306-318 | an empty response is nudged twice and given up on the third time |
| AgentLoop.Assistant.GenerateWithRetry | apps/nala/src/application/agent_loop.rs:327-361 | at most R + 1 attempts, all with the same messages; only failed requests are tried again, and such a failure is the result only after all attempts; an answer is the last attempt's, and so is an error; cancellation ends it at once |
| AgentLoop.Assistant.InstrumentedCallLlm | apps/nala/src/application/agent_loop.rs:373-431 | a call draws the next number, sends the messages it was given, and emits exactly its start and its outcome: completion with its token counts, or failure with its error, or nothing when abandoned |
| AgentLoop.Assistant.BuildPlan | apps/nala/src/application/agent_loop.rs:529-555 | one LLM call with the planning instructions appended, and a plan exactly when its text is not blank |
| AgentLoop.Assistant.FitToBudget | apps/nala/src/application/agent_loop.rs:566-634 | whatever the summarising model does, the protected prefix stays and the prompt fits or is the prefix alone; the steps come in order, each only when the ones before were not enough; images are accounted for when nothing was dropped or compacted; no smaller drop would have done; what is left is the fitted form of what was there, and nothing changes without a report |
| AgentLoop.Assistant.TrimInPlace | apps/nala/src/application/agent_loop.rs:573-606 | stale images go first, long results only if that was not enough; each step that changed something is reported with the estimate it left |
| AgentLoop.Assistant.Shrink | apps/nala/src/application/agent_loop.rs:608-633 | a summary first, then the least drop that makes the rest fit |
| AgentLoop.Assistant.Compact | apps/nala/src/application/agent_loop.rs:641-674 | replaces everything evictable but the most recent messages by the summary the model gave of exactly those, or changes nothing; it asks the model exactly when there is something to fold |
| AgentLoop.Assistant.CancelTurn | apps/nala/src/application/agent_loop.rs:486-497 | a cancelled turn emits its two events, in order, and ends as cancelled |
| AgentLoop.Assistant.Abort | apps/nala/src/application/agent_loop.rs:499-516 | an aborted turn ends as an error with its reason |
| AgentLoop.Assistant.BuildPromptMessages | apps/nala/src/application/agent_loop.rs:688-718 | the context, then the remembered facts if there are any, then the transcript; a context failure is the only error |
| AgentLoop.CallCounted | apps/nala/src/application/agent_loop.rs:178-251 | a dispatched call keeps the bounds on equal repeats, the dispatcher's refusals and calls, and the loop's counters equal the runs they stand for |
| AgentLoop.LimitsMean | apps/nala/src/application/agent_loop.rs:178-251 | no max_identical_repeats equal calls are dispatched in a row, and among any max(1, max_consecutive_tool_failures) + 1 dispatches in a row the dispatcher accepted one |
| AgentLoop.LastRound | apps/nala/src/application/agent_loop.rs:158-320 | from the loop's invariant, the totals of rounds and LLM calls |
| Questions.ResultsReachTheModel | apps/nala/src/application/agent_loop.rs:158-254 | while the budget has cut nothing, every tool call of the turn and its result, or its refusal as "ERROR: ...", stand in every later question, one right behind the other, behind the prefix and in the order they were made |
| Questions.StandsAfterQuestion | apps/nala/src/application/agent_loop.rs:163-318 | a question that is the fitted form of what stood keeps every question right, and leaves it and its answer's nudge standing; if no budget step was reported it is still the prefix and all additions |
| Questions.StandsAfter | apps/nala/src/application/agent_loop.rs:66-70 | a summary, a plan or a tool call is no question, and adds to the prompt nothing or the call and its result |
| Questions.LeastDropIs | apps/nala/src/application/agent_loop.rs:618-633 | the fewest oldest messages that have to go, found from below |

## Left out

- Integer widths of ids and counters: request ids, generations, call indices, token sums and the retry delay are unbounded. Day numbers near the ends of a 64-bit integer are not excluded.
- Floating-point rounding and NaN: samples and probabilities are exact reals.
- Real time: the outbox's clock counts whole seconds and only moves forward; timeouts, poll intervals, backoff sleeps, durations and timestamps in events and rows are left out, and `pop_blocking` with them.
- An LLM call that never answers and is never cancelled: `call_llm` polls finitely often.
- A cancel signal that lowers itself during a turn: neither of the two implementations does.
- The wording of the planning and summary instructions, the tool definitions sent along with a prompt, and the argument parsing and bodies of the native tools.
- The tool dispatcher as the agent loop calls it is arbitrary; `ToolRouting` models which provider a name reaches, not what the provider does.
- The wake-phrase test, the transcript clean-up and the sanity filter are arbitrary functions of the text; priming the wake detector and the status and check callbacks are left out.
- The microphone delivers finitely many chunks and then closes, and a connection's wire answers finitely often.
- A panicking wake worker or LLM thread, poisoned locks, and a device whose old connection removes the entry of its new one.
- Speech that the backend fails to play counts as spoken, as it does in the code, which ignores the result.
- A byte array as long as an Int can count, where the reader's position would overflow.
- Metrics without a directory (every write is skipped), write failures, and CSV and JSON text.
- `Facts`, `Backoff`, the autonomous queue, the template narrator, URL encoding, environment configuration and the percentile report: simple next to the rest.
- Listening.Listener.Listen: the transcripts themselves are arbitrary, whatever audio they are of.
- AgentLoop.Assistant.ProcessFrom: its events omit provider, model and durations, and a task id is a number that is never reused.
