# Verification of the voice navigation audio path and Agent

A Dafny model of the parts of the repository whose correctness rests on interleavings, fences and
long-running state, with proofs over every run.

* **Continuous recognition** (`SenseVoice*`, `SpeechEvents`, `Buffers`, `Rings`): the bounded frame queue,
  the utterance buffer and the worker, interleaved with producers, finish and shutdown at the granularity
  of critical sections and single atomic reads.
* **Audio engine** (`AudioEngine*`, `AudioFence`, `AudioLockstep`, `AudioOffset`, `AudioAccounts`, `AudioFade`,
  `AudioRings`, `AudioCallback`,
  `AudioCallbackTable`, `AudioPlayback`, `AudioCaptures`, `AudioPumps`): the real-time callback, one atomic access at a time, interleaved with a playback producer,
  the capture consumer, the reader of accounts and any number of control threads.
* **Resampling pipeline and its driver** (`ResampleFilter`, `Dsp*`, `Vad*`, `Pcm16`): the streaming seven-tap
  filter against its definition, the quarantine of generations, and the pump that joins engine and pipeline.
* **Agent planning protocol** (`AgentEngine*`): generations, delivery leases, snapshots and lifetimes, with late
  planner workers interleaved at every lock.
* **Agent node** (`AgentNode*`): Mission slots, Speak operations and stops under late futures and timers.
* **Agent core** (`AgentCore*`, `MissionValidator`, `MissionMeaning`, `AgentStops`): the Voice fence, sequence allocation,
  clarifications and the semantic validator, and how the engine takes the core's decisions.
* **Motion readiness** (`MotionReadiness`, `MotionMeaning`): the safe-stationary barrier against the log of observations.
* **C++ scanner** (`Cpp*`): comments, literals and raw strings of sections 5.2, 5.7 and 5.13.5 of ISO/IEC
  14882:2020, and brace matching.

The value-level modules (`...State`, `...Runs`) define states, critical sections and steps; the `...Object`
modules, `SenseVoiceProvider`, `DspPipeline` and `VadSession` hold the classes whose methods are proved to have exactly
those effects on arrays, rings and linked objects and to keep the invariants; the remaining modules hold the theorems.

## How the source is read

* Fields that only ever change together are grouped into small records; ring buffers and sample buffers are
  objects of their own. Voice detection, recognition, text normalisation, echo cancellation and the language
  model answer arbitrarily, as inputs of the steps.
* Atomics are sequentially consistent, each future completes at most once, and each accepted planner request has
  one worker. A cancelled timer does not fire, except that a timer already waiting may still run after its
  operation has been given up. 64-bit counters are unbounded except where the source checks or wraps them:
  source and Speak sequences, and the pipeline's sequence numbers.
* Histories (submissions, events, recognition calls and the endpoints named for them, final frames, device input, passes of
  the renderer, planner answers, leases, deliveries, goals, admitted commands) are kept in the state for stating theorems;
  nothing reads them to decide a step. A field such as `calls`, `asked`, `id`, `attempts` or `place` that orders or
  counts things is history of this kind.
* The audio callback's publication checks are two separate loads, and a moment is told by how many requests of each
  kind had been published. Counters that only the metrics snapshot reads move with the access beside them.
* A Voice turn always reaches the Agent engine as a turn object, so an ignored turn always takes a new generation.
* Main operations of the Agent engine other than shutdown hold the serial seam from start to end; shutdown does not.
* Destroying the node retires the Speak operation before it enters the serial seam (agent_node.py, line 387); here it
  is one callback like any other. A cancel is attempted by calling `cancel_goal_async`, and sent if that does not raise.

Where the code does not do what one might expect, the code is modelled and the difference is proved:

* A cancel before a Mission goal is accepted disables the goal's send deadline (`DeadlineClearsUnlessCancelled`,
  `CancelBeforeAcceptanceHoldsTheSlot`, `DeadlineCanMissTheSlot`).
* A best-effort cancel may raise, and is not tried again: a Mission accepted after its deadline can then run beside the
  next one (`MissionHandlesAreAccountedFor`, `LateMissionCanRunBesideTheNext`).
* A denied capability is tested before a stop clause, so a command that names both is rejected (`StopIsEmittedIff`).
* The readiness query reads its clock more than once, and may report readiness on odometry that has gone stale in
  between (`ReadinessIsTruthfulIff`, `SeparateReadingsCanMislead`).
* A capture and a reference handed over by one pump belong together only if the rings were level when the capture was
  accepted and the generation stood still from then on (`PairsComeFromOneCallback`); after one move the rings can stay
  out of step for any number of pumps (`OffsetOutlivesTheMove`).
* Stripping comments is not idempotent on all physical sources (`StripIsNotAlwaysIdempotent`), only where
  `StripIsIdempotentIff` says.
* A fade of N samples is forgotten at the end of the frame in which it runs out, so later frames are at full volume
  again (`FadeScalesEachSample`).
* A lost playback account, a full playback ring and a capacity-one planner have refusal paths; the planner's is
  unreachable for a current turn (`PlannerIsNeverUnavailable`).

## Model

| member | source | states |
|---|---|---|
| SenseVoiceProofs.RecognitionHearsContiguousRuns | src/voice_nav_audio/src/sensevoice_provider.cpp:401-439 | over every interleaving each recognition call gets exactly the samples, up to the endpoint that detection or the flush named, of one contiguous run of submitted frames; later calls hear later runs; no frame reaches two calls |
| SenseVoiceOutcomes.RecognitionHearsEachSample | src/voice_nav_audio/src/sensevoice_provider.cpp:412-417 | sample j of each frame of that run stands in the call's input behind all valid samples of the frames before it, if the endpoint lies behind it |
| SenseVoiceOutcomes.FinalEventsAreEarned | src/voice_nav_audio/src/sensevoice_provider.cpp:412-439 | until shutdown the final events, with the one about to go out, are one for one and in order the calls that were recognised inside a scope, each with its call's frame and scope; none is ever reported that a call did not earn |
| SenseVoiceServing.FrameServedAlone | src/voice_nav_audio/src/sensevoice_provider.cpp:490-561 | an undisturbed worker brings a queued frame, whatever the turn so far and the adapters' answers, to exactly one outcome of a table: refused, timed out, incoherent, silent, told as activity, or closed and recognised up to the endpoint, with the wake before the first speech; a turn that ends leaves a fresh one |
| SenseVoiceServing.FinishServedAlone | src/voice_nav_audio/src/sensevoice_provider.cpp:441-488 | an undisturbed worker answers a finish with one terminal event and a fresh turn: recognition up to the flushed endpoint if the turn has heard a frame and the flush names a usable endpoint, a failure otherwise |
| SenseVoiceOutcomes.NothingAfterShutdown | src/voice_nav_audio/src/sensevoice_provider.cpp:145-171 | in every run nothing is reported and no frame is taken any more once shutdown has gone through |
| SenseVoiceProofs.EventsFormTurns | src/voice_nav_audio/src/sensevoice_provider.cpp:381-399 | the events of every run are turns of the shape (Wake Activity*)? then exactly one terminal, with at most one open turn, open exactly while its wake is out and its terminal is not |
| SenseVoiceProofs.BufferBoundNeverRefuses | src/voice_nav_audio/src/sensevoice_provider.cpp:570-584 | an armed worker refuses a frame if and only if the frame is badly sized; the utterance bound is never the reason |
| SenseVoiceProofs.IdleWorkerIsReady | src/voice_nav_audio/src/sensevoice_provider.cpp:246-290 | until a stop is requested an idle worker is armed unless an overflow waits, and the default-frame fall-through and the duplicate-finish branch are unreachable |
| SenseVoiceProofs.OverflowIsReported | src/voice_nav_audio/src/sensevoice_provider.cpp:351-387 | in every run, until a stop is requested, an idle worker left to itself answers a waiting overflow with exactly one event, a failure naming the refused frame, and rearms |
| SenseVoiceProofs.ReachableStatesAreGood | src/voice_nav_audio/src/sensevoice_provider.cpp:173-205 | the invariant behind the above holds in every reachable state: ring positions, buffer contents as a prefix of the submission history, event grammar, recognition history |
| SpeechEvents.AcceptedRunsSplitIntoTurns | src/voice_nav_audio/src/sensevoice_provider.cpp:389-399 | the event automaton accepts only sequences that split into closed turns and one open tail |
| SpeechEvents.SplitRunsAreAccepted | src/voice_nav_audio/src/sensevoice_provider.cpp:389-399 | conversely every sequence that splits this way is accepted |
| SenseVoiceProvider.Recognizer.constructor | src/voice_nav_audio/src/sensevoice_provider.cpp:120-138 | the object starts in the fresh state for the clamped frame bound |
| SenseVoiceProvider.Recognizer.ProcessFrame | src/voice_nav_audio/src/sensevoice_provider.cpp:173-205 | the critical section on the real ring, buffer and flags has exactly the abstract effect that the interleaving semantics uses, and keeps the ring aligned until shutdown |
| SenseVoiceProvider.Recognizer.FinishInput | src/voice_nav_audio/src/sensevoice_provider.cpp:207-229 | the critical section on the real ring, buffer and flags has exactly the abstract effect that the interleaving semantics uses, and keeps the ring aligned until shutdown |
| SenseVoiceProvider.Recognizer.RequestStop | src/voice_nav_audio/src/sensevoice_provider.cpp:148 | the critical section on the real ring, buffer and flags has exactly the abstract effect that the interleaving semantics uses, and keeps the ring aligned until shutdown |
| SenseVoiceProvider.Recognizer.Shutdown | src/voice_nav_audio/src/sensevoice_provider.cpp:145-171 | the critical section on the real ring, buffer and flags has exactly the abstract effect that the interleaving semantics uses, and keeps the ring aligned until shutdown |
| SenseVoiceProvider.Recognizer.TakeWork | src/voice_nav_audio/src/sensevoice_provider.cpp:246-290 | the critical section on the real ring, buffer and flags has exactly the abstract effect that the interleaving semantics uses, and keeps the ring aligned until shutdown |
| SenseVoiceProvider.Recognizer.RetireTurn | src/voice_nav_audio/src/sensevoice_provider.cpp:310-316 | the critical section on the real ring, buffer and flags has exactly the abstract effect that the interleaving semantics uses, and keeps the ring aligned until shutdown |
| SenseVoiceProvider.Recognizer.ResetTurn | src/voice_nav_audio/src/sensevoice_provider.cpp:318-349 | the critical section on the real ring, buffer and flags has exactly the abstract effect that the interleaving semantics uses, and keeps the ring aligned until shutdown |
| SenseVoiceProvider.Recognizer.ClaimOverflowFrame | src/voice_nav_audio/src/sensevoice_provider.cpp:351-363 | the critical section on the real ring, buffer and flags has exactly the abstract effect that the interleaving semantics uses, and keeps the ring aligned until shutdown |
| SenseVoiceProvider.Recognizer.FinishEndpoint | src/voice_nav_audio/src/sensevoice_provider.cpp:401-410 | the critical section on the real ring, buffer and flags has exactly the abstract effect: disarmed, the queue dropped, the utterance cut at the endpoint, which `RecognitionHearsContiguousRuns` shows is what recognition hears |
| SenseVoiceProvider.Recognizer.AdmitFrame | src/voice_nav_audio/src/sensevoice_provider.cpp:490-500 | the critical section on the real ring, buffer and flags has exactly the abstract effect that the interleaving semantics uses, and keeps the ring aligned until shutdown |
| SenseVoiceProvider.Recognizer.CopyFrame | src/voice_nav_audio/src/sensevoice_provider.cpp:570-584 | the critical section on the real ring, buffer and flags has exactly the abstract effect that the interleaving semantics uses, and keeps the ring aligned until shutdown |
| SenseVoiceProvider.Recognizer.ReadFinish | src/voice_nav_audio/src/sensevoice_provider.cpp:441-460 | the critical section on the real ring, buffer and flags has exactly the abstract effect that the interleaving semantics uses, and keeps the ring aligned until shutdown |
| Buffers.CircularQueue.Push | src/voice_nav_audio/src/sensevoice_provider.cpp:195-203 | a push at the write index appends to the live contents |
| Buffers.CircularQueue.Pop | src/voice_nav_audio/src/sensevoice_provider.cpp:266-272 | a pop at the read index removes the oldest live item |
| Buffers.CircularQueue.Clear | src/voice_nav_audio/src/sensevoice_provider.cpp:310-316 | emptying by moving the read index up keeps the indices aligned |
| Buffers.SampleBuffer.Append | src/voice_nav_audio/src/sensevoice_provider.cpp:570-584 | the valid samples of a frame are copied behind the filled part and nothing else moves |
| DspStreams.StreamedOutputIsBatch | src/voice_nav_audio/src/dsp_pipeline.cpp:94-117 | in every run and for every generation, the concatenated output is the batch filter of the concatenated accepted frames: the half-away-from-zero rounding of the seven-tap sum at input 3j+2, the first sample standing in before the start |
| ResampleFilter.StreamingIsBatch | src/voice_nav_audio/src/dsp_pipeline.cpp:98-115 | feeding samples one by one through history and phase leaves the filter, and its output, where the definition over the whole stream says |
| ResampleFilter.RoundIsHalfAway | src/voice_nav_audio/src/dsp_pipeline.cpp:108-112 | the two truncating divisions compute the nearest integer with ties away from zero, and nothing else does |
| ResampleFilter.OutputWithinWindow | src/voice_nav_audio/src/dsp_pipeline.cpp:26-37 | every decimated sample lies between the least and greatest sample of its seven-sample window, so saturation never clips |
| ResampleFilter.ConstantPasses | src/voice_nav_audio/src/dsp_pipeline.cpp:26-30 | a constant stream maps to the same constant |
| ResampleFilter.NyquistVanishes | src/voice_nav_audio/src/dsp_pipeline.cpp:26-30 | a stream alternating at the Nyquist rate maps to its mean, zero when symmetric, once the history holds real samples |
| DspRuns.RefusalIsFinal | src/voice_nav_audio/src/dsp_pipeline.cpp:54-82 | after any refusal nothing of that or an older generation is ever cleaned again |
| DspRuns.StaleFrameIsInert | src/voice_nav_audio/src/dsp_pipeline.cpp:59-61 | a frame older than the current generation changes no state and is refused |
| DspRuns.SequencesAreConsecutive | src/voice_nav_audio/src/dsp_pipeline.cpp:76-78 | two cleaned frames of one generation with no cleaned frame of that generation between them carry successive 64-bit sequence numbers, whatever other generations did |
| DspAnswers.EveryAnswerIsDeserved | src/voice_nav_audio/src/dsp_pipeline.cpp:54-118 | in every run each input gets the status that the inputs before it and its own adapter answers deserve; it is cleaned if and only if no newer generation and no refusal in its own came before it, its delay is between 40 and 250 milliseconds, it is continuous and next in sequence, and the adapter serves it |
| DspAnswers.InvalidConfigurationNeverServes | src/voice_nav_audio/src/dsp_pipeline.cpp:54-58 | an invalidly configured pipeline answers every input of every run with that |
| DspRuns.ProcessKeepsBoundary | src/voice_nav_audio/src/dsp_pipeline.cpp:98-117 | between frames the phase is always zero, and a cleaned frame has exactly 160 samples |
| DspStreams.StateDependsOnNewestOnly | src/voice_nav_audio/src/dsp_pipeline.cpp:62-70 | the state after a run is the state after the inputs of its newest generation alone |
| DspStreams.AnswerDependsOnOwnGeneration | src/voice_nav_audio/src/dsp_pipeline.cpp:54-117 | an input no older than the rest is answered as if only its own generation had ever been seen |
| DspStreams.NewGenerationStartsFresh | src/voice_nav_audio/src/dsp_pipeline.cpp:62-70 | the first input of a newer generation finds the pipeline as good as fresh |
| DspPipeline.SampleHistory.Accumulate | src/voice_nav_audio/src/dsp_pipeline.cpp:99-102 | the inner loop adds the history's share of the tap sum |
| DspPipeline.SampleHistory.Shift | src/voice_nav_audio/src/dsp_pipeline.cpp:103-106 | the in-place shift makes the newest sample first and drops the oldest |
| DspPipeline.Pipeline.constructor | src/voice_nav_audio/src/dsp_pipeline.cpp:41-52 | the object starts as the fresh pipeline |
| DspPipeline.Pipeline.ResetProcessingState | src/voice_nav_audio/src/dsp_pipeline.cpp:134-141 | the reset clears filter, sequence and adapter |
| DspPipeline.Pipeline.Reject | src/voice_nav_audio/src/dsp_pipeline.cpp:120-125 | a rejection resets, and quarantines the generation when asked to |
| DspPipeline.Pipeline.Enter | src/voice_nav_audio/src/dsp_pipeline.cpp:62-70 | a newer generation resets processing and starts its own sequence |
| DspPipeline.Pipeline.Feed | src/voice_nav_audio/src/dsp_pipeline.cpp:98-115 | one sample through the arrays is one step of the streaming filter, yielding on every third |
| DspPipeline.Pipeline.FilterFrame | src/voice_nav_audio/src/dsp_pipeline.cpp:97-115 | a frame of 480 samples yields exactly 160 and ends on a decimation boundary, as the streaming filter says |
| DspPipeline.Pipeline.Clean | src/voice_nav_audio/src/dsp_pipeline.cpp:91-117 | cleaning a frame is the abstract cleaning, filter state included |
| DspPipeline.Pipeline.Process | src/voice_nav_audio/src/dsp_pipeline.cpp:54-118 | the whole call has the abstract effect and answer, every refusal included |
| AudioFence.OvertakenPacketIsNeverHeard | src/voice_nav_audio/src/audio_engine_callback.cpp:105-122 | over every interleaving: a packet waiting at some point and overtaken by a discontinuity or fence request is never what a callback plays whose publication check was still ahead |
| AudioFence.FinalFramesAreSound | src/voice_nav_audio/src/audio_engine_callback.cpp:108-122 | every final frame is silent or plays a packet between whose generation read and publication checks no request was published |
| AudioPlayback.FinalFramesPlayTheirPacket | src/voice_nav_audio/src/audio_engine_callback.cpp:245-283 | in every run a final frame that names a packet holds, sample by sample, that packet's samples and silence past its end, scaled by the gain its callback read and by what is left of the fade; the fade is the one requested at that pass of the renderer or what the pass before left, and a callback makes at most one pass |
| AudioPlayback.UnityPlaysThePacket | src/voice_nav_audio/src/audio_engine_callback.cpp:263-275 | at unity gain and without a fade the frame is the packet itself, followed by silence |
| AudioCallbackTable.PlainCallbackPlays | src/voice_nav_audio/src/audio_engine_callback.cpp:91-122 | a callback without fault gives the device the first queued packet of the playback generation, sample by sample under gain and fade, names it, and drops the stale packets before it |
| AudioCallbackTable.PlainCallbackIsSilent | src/voice_nav_audio/src/audio_engine_callback.cpp:169-184 | without such a packet the device gets silence, every queued packet was stale and is gone, and the fade goes on all the same |
| AudioCallbackTable.PlainCallbackRecords | src/voice_nav_audio/src/audio_engine_callback.cpp:141-159 | the frame given to the device and the input handed in are published under one generation and callback number exactly when capturing with room for the reference; without room the overflow is counted and the capture generation moves |
| AudioCallbackTable.PlainCallbackAccounts | src/voice_nav_audio/src/audio_engine_callback.cpp:124-139 | playback of a scope is accounted for, with the packet's length and the playback generation, exactly when the device was given a sample of it that is not zero; without room for the account a fence is requested |
| AudioCallbackTable.FaultyCallback | src/voice_nav_audio/src/audio_engine_callback.cpp:39-89 | any other callback gives the device as many zeros as it asked for and counts at most one reason, by a table over status, size, room and activity; an input overflow alone moves only the capture generation, every other fault both, and rings and fade stay |
| AudioCaptures.CaptureIsTheInput | src/voice_nav_audio/src/audio_engine_callback.cpp:153-158 | in every run a capture handed over holds exactly what the device handed to the callback that it names |
| AudioFence.ReachableStatesKeep | src/voice_nav_audio/src/audio_engine_callback.cpp:209-238 | in every reachable state the playback generation counts exactly the requests acted on, and every queued packet carries the stamp of an earlier moment |
| AudioLockstep.PairsComeFromOneCallback | src/voice_nav_audio/src/audio_engine.cpp:54-97 | in every interleaving each pair handed over comes from one callback if and only if, when its capture was accepted, as many references waited as captures that could still have one, and the generation stood still from then on |
| AudioLockstep.StaleCapturesLeaveInPairs | src/voice_nav_audio/src/audio_engine.cpp:65-74 | in every interleaving a stale capture takes its own reference with it if and only if the rings held equally many before |
| AudioLockstep.ReferencesTrailCaptures | src/voice_nav_audio/src/audio_engine_callback.cpp:145-159 | in every reachable state the waiting references belong, index by index, to the newest captures that can still have one, in the order of their callbacks |
| AudioLockstep.WindowsRecord | src/voice_nav_audio/src/audio_engine.cpp:65-97 | the two conditions above are noted as they are: the ring lengths at acceptance, and whether any later step moved the generation; generations never decrease |
| AudioOffset.OffsetOutlivesTheMove | src/voice_nav_audio/src/continuous_vad_session.cpp:44-52 | for every n a run in which the generation moves inside one pump and the n pumps after it, quiet and of one generation, all hand over a capture with the reference of the next callback |
| AudioLockstep.UndisturbedRunsStayInStep | src/voice_nav_audio/src/audio_engine_callback.cpp:145-159 | in a run whose generation never moves between a capture's acceptance and the end of its pump, the two rings agree index by index and no capture is ever dropped |
| AudioLockstep.GenerationsNeverGoBack | src/voice_nav_audio/src/audio_engine.cpp:65-78 | captures are handed over in non-decreasing generations |
| AudioPumps.PumpYieldsAPair | src/voice_nav_audio/src/audio_engine.cpp:54-97 | left to itself, a pump that finds a capture of the current generation hands it over with the first waiting reference of that generation, and drops the references before it |
| AudioPumps.PumpDropsAStaleCapture | src/voice_nav_audio/src/audio_engine.cpp:65-74 | a stale capture is dropped with the oldest waiting reference, if there is one, as a single drop |
| AudioPumps.WholePump | src/voice_nav_audio/src/audio_engine.cpp:54-97 | the object's two pops get the same two halves and leave the same rings |
| AudioAccounts.QuiescentAccountsBalance | src/voice_nav_audio/src/audio_engine.cpp:54-79 | at every quiescent point generation advance equals discontinuities, playback generation advance equals observed requests of both kinds, the seven reasons sum to discontinuities plus pending requests, and captures produced are delivered, reported, in the ring or still to report |
| AudioAccounts.AccountsNeverExceedEmissions | src/voice_nav_audio/src/audio_engine_callback.cpp:124-139 | per scope, playback accounted never exceeds playback emitted, and the accounting ring holds exactly what is not yet taken |
| AudioAccounts.ReferenceIsTheFinalFrame | src/voice_nav_audio/src/audio_engine_callback.cpp:108-122 | each reference handed over is the very frame the device was given in that callback |
| AudioCallback.UndisturbedCallback | src/voice_nav_audio/src/audio_engine_callback.cpp:33-167 | with no other thread running, the fine-grained steps of one callback end in exactly the state and final frame that the callback computes as a whole |
| AudioFade.FadeScalesEachSample | src/voice_nav_audio/src/audio_engine_callback.cpp:245-283 | between requests a fade of N samples scales sample k by (N-k)/N across frames, is silent for the rest of the frame it ends in, and afterwards leaves full volume |
| AudioFade.FadeNeverRises | src/voice_nav_audio/src/audio_engine_callback.cpp:263-275 | a constant non-negative input fades without ever rising, down to zero |
| AudioFade.IntermediatesFit | src/voice_nav_audio/src/audio_engine_callback.cpp:263-275 | every product and quotient fits a signed 64-bit integer for all gains up to four and all 32-bit fades |
| AudioFade.StoredGain | src/voice_nav_audio/src/audio_engine.cpp:104-113 | the stored gain is the nearest Q15 value of a gain in range; refused values mute, larger ones clamp |
| AudioFade.RequestedFade | src/voice_nav_audio/src/audio_engine.cpp:115-121 | a fade length is stored exactly if it fits 32 bits and is clamped otherwise |
| AudioFade.Fader.RenderInto | src/voice_nav_audio/src/audio_engine_callback.cpp:263-278 | the sample loop writes the rendered frame and leaves the fade as the definition says |
| AudioRings.SpscRing.Push | src/voice_nav_audio/include/voice_nav_audio/audio_engine.hpp:173-183 | a push appends unless one slot is all that is left |
| AudioRings.SpscRing.Pop | src/voice_nav_audio/include/voice_nav_audio/audio_engine.hpp:185-194 | a pop takes the oldest item, or nothing from an empty ring |
| AudioRings.SpscRing.CanPush | src/voice_nav_audio/include/voice_nav_audio/audio_engine.hpp:166-171 | room is reported exactly when a push would succeed |
| AudioRings.OverwriteRing.PushDropOldest | src/voice_nav_audio/include/voice_nav_audio/audio_engine.hpp:219-231 | a push never waits: when full it overwrites the oldest frame, which becomes unreported |
| AudioRings.OverwriteRing.Pop | src/voice_nav_audio/include/voice_nav_audio/audio_engine.hpp:239-272 | a pop reports exactly the frames lost since the last one and hands over the oldest left |
| AudioEngineObject.AudioEngine.constructor | src/voice_nav_audio/include/voice_nav_audio/audio_engine.hpp:304-344 | the object starts in the start state of the interleaving semantics |
| AudioEngineObject.AudioEngine.EnqueuePlayback | src/voice_nav_audio/src/audio_engine.cpp:31-52 | a packet is queued under the current playback generation; a full ring requests a fence; an invalid one changes nothing |
| AudioEngineObject.AudioEngine.TryPopCapture | src/voice_nav_audio/src/audio_engine.cpp:54-79 | a current capture is delivered, a stale one leaves with its reference, and drops are reported exactly |
| AudioEngineObject.AudioEngine.TryPopReference | src/voice_nav_audio/src/audio_engine.cpp:81-97 | the bounded loop yields the first reference of the current generation |
| AudioEngineObject.AudioEngine.RequestPlaybackFence | src/voice_nav_audio/src/audio_engine.cpp:128-145 | a fence request is published and nothing else changes |
| AudioEngineObject.AudioEngine.MarkDiscontinuity | src/voice_nav_audio/src/audio_engine.cpp:147-170 | the reason is counted and the request published |
| AudioEngineObject.AudioEngine.CommitPendingDiscontinuities | src/voice_nav_audio/src/audio_engine_callback.cpp:209-226 | both generations advance by the number of pending requests, and playback goes inactive |
| AudioEngineObject.AudioEngine.CommitPendingPlaybackFences | src/voice_nav_audio/src/audio_engine_callback.cpp:228-238 | only the playback generation advances, by the number of pending fences |
| AudioEngineObject.AudioEngine.CommitCaptureDiscontinuity | src/voice_nav_audio/src/audio_engine_callback.cpp:198-207 | only the capture generation advances, with its reason |
| AudioEngineObject.AudioEngine.PopPlayback | src/voice_nav_audio/src/audio_engine_callback.cpp:169-184 | the bounded loop yields the first packet of the current playback generation and drops stale ones before it |
| AudioEngineObject.AudioEngine.RenderPlayback | src/voice_nav_audio/src/audio_engine_callback.cpp:245-283 | the output array holds the rendering of the packet found, or of silence, whose samples `AudioPlayback.FinalFramesPlayTheirPacket` and `AudioCallbackTable.PlainCallbackPlays` give one by one, and the fade goes on |
| AudioEngineObject.AudioEngine.ProcessCallback | src/voice_nav_audio/src/audio_engine_callback.cpp:33-167 | the whole callback has the effect and the final frame of the definition that the five tables of `AudioCallbackTable` characterise, every failure path included |
| VadRuns.PumpedPipelineAnswers | src/voice_nav_audio/src/continuous_vad_session.cpp:38-66 | in a session whose pumps hand over the pairs of any engine run, the status the pipeline returns to each pump is cleaned or adapter failure, or rejected after a failure in the same, quarantined, generation; reordering, staleness, delay and discontinuity are never reported |
| VadRuns.PumpsDriveThePipeline | src/voice_nav_audio/src/continuous_vad_session.cpp:54-66 | whatever is offered, the pipeline is driven with exactly the captures handed over, numbered from one without gaps modulo 2^64, and is in the state that those inputs lead to |
| VadRuns.WarmupWithholdsAPrefix | src/voice_nav_audio/src/continuous_vad_session.cpp:68-86 | what is passed on is exactly what was cleaned after the warm-up frames, in order |
| VadStreams.CleanedFramesAreTheAnswers | src/voice_nav_audio/src/continuous_vad_session.cpp:64-72 | after any run of pumps the frames cleaned are, in order and one for one, the inputs that the pipeline cleans, each with its input's generation and sequence number and with the samples the pipeline answers |
| VadStreams.PassedOnIsBatch | src/voice_nav_audio/src/continuous_vad_session.cpp:68-86 | what is passed on of each generation is the batch filter of everything the pipeline accepted of it, less the 160 samples of each of its frames withheld for the warm-up |
| VadStreams.PumpOutcome | src/voice_nav_audio/src/continuous_vad_session.cpp:38-88 | after any run of pumps the next one fails exactly without a reference, when its pair is not cleaned, or when the publisher refuses to open once three frames have been cleaned; each failure aborts once; only what is cleaned once the publisher is open is passed on |
| VadSession.Session.Pump | src/voice_nav_audio/src/continuous_vad_session.cpp:38-88 | one pump is a step of the runs that `VadStreams` characterises: counters, pipeline, frames cleaned and frames passed on, for every outcome |
| AgentEngineTheorems.OneLeasePerGeneration | src/voice_nav_agent/voice_nav_agent/_agent_engine.py:617-623 | over every interleaving each generation commits at most one outcome lease |
| AgentEngineTheorems.TwoRoundsPerTurn | src/voice_nav_agent/voice_nav_agent/_agent_engine.py:517-545 | over every interleaving the planner accepts at most two requests in the name of one turn |
| AgentEngineTheorems.DeliveriesAreCurrent | src/voice_nav_agent/voice_nav_agent/_agent_engine.py:323-334 | an outcome is delivered only while its generation is the newest, a planner outcome only in the lifetime and under the snapshot it was asked with, and no lease twice |
| AgentEngineTheorems.TurnGenerationRises | src/voice_nav_agent/voice_nav_agent/agent_node.py:356-361 | the node's turn generation rises strictly with every delivery and never passes the engine's |
| AgentEngineTheorems.PlannerIsNeverUnavailable | src/voice_nav_agent/voice_nav_agent/_planner.py:223-252 | the capacity-one planner never turns a current turn away: no run delivers that it is unavailable |
| AgentEngineTheorems.ReachableStatesKeep | src/voice_nav_agent/voice_nav_agent/_agent_engine.py:443-463 | the protocol invariant: a fresh generation is untouched until it is used, and at most one worker speaks for a generation |
| AgentEngineTheorems.RefusalMeansOvertaken | src/voice_nav_agent/voice_nav_agent/_planner.py:223-232 | a refused second round means shutdown or a newer generation |
| AgentEngineObject.AgentEngine.constructor | src/voice_nav_agent/voice_nav_agent/_agent_engine.py:151-180 | the engine and its planner start fresh |
| AgentEngineObject.AgentEngine.Invalidate | src/voice_nav_agent/voice_nav_agent/_agent_engine.py:315-321 | planner work is fenced on both sides: no request of an older generation is answered any more |
| AgentEngineObject.AgentEngine.ObserveRuntimeSnapshot | src/voice_nav_agent/voice_nav_agent/_agent_engine.py:336-349 | a snapshot that differs from the last one fences planner work, any other does not |
| AgentEngineObject.AgentEngine.Admit | src/voice_nav_agent/voice_nav_agent/_agent_engine.py:405-416 | a request becomes active and is submitted; a refusal undoes it; a closed engine does neither |
| AgentEngineObject.AgentEngine.Continue | src/voice_nav_agent/voice_nav_agent/_agent_engine.py:520-545 | the second round replaces the first while current, and a refusal restores the first |
| AgentEngineObject.AgentEngine.Restart | src/voice_nav_agent/voice_nav_agent/_agent_engine.py:351-362 | a new lifetime starts after a fence, with no snapshot |
| AgentEngineObject.AgentEngine.Shutdown | src/voice_nav_agent/voice_nav_agent/_agent_engine.py:364-374 | the engine closes once, fences and shuts the planner |
| AgentEngineObject.AgentEngine.HandleTurn | src/voice_nav_agent/voice_nav_agent/_agent_engine.py:182-313 | a turn is its program of critical sections, run alone up to the delivery; it takes a new generation, which voids every earlier lease and planner request; it emits a stop exactly when the core decides one and no denied capability is named, exactly one outcome unless it is ignored or left to the planner, and the planner always accepts it while the engine is open |
| AgentEngineTheorems.PlannerServesOneRequest | src/voice_nav_agent/voice_nav_agent/_planner.py:223-241 | in every reachable state the planner's slot holds at most one request, of its newest generation, and exactly one worker works on it |
| AgentEngineTheorems.FencedRequestsAreNeverServed | src/voice_nav_agent/voice_nav_agent/_planner.py:243-287 | once the planner has been fenced past a request or closed, it neither accepts that request nor lets its answer out, however late the worker |
| AgentEngineTheorems.RevokedLeasesStayRevoked | src/voice_nav_agent/voice_nav_agent/_agent_engine.py:323-334 | a lease once consumed, or overtaken by a new generation, is never honoured again |
| AgentEngineAnswers.DeliveriesSayWhatThePlannerSaid | src/voice_nav_agent/voice_nav_agent/_agent_engine.py:432-515 | in every run an outcome delivered in the name of a planner request is what the planner answered to that very request; a first wish to read the snapshot never reaches the node as an outcome |
| AgentEngineAnswers.UndisturbedAnswerIsDelivered | src/voice_nav_agent/voice_nav_agent/_agent_engine.py:432-463 | an undisturbed answer to a request that is still the current one is delivered, as what it says, and frees both slots |
| AgentStops.StopIsEmittedIff | src/voice_nav_agent/voice_nav_agent/_agent_engine.py:206-227 | in every state of the core a turn has a stop emitted if and only if its envelope is valid and it is a stop by kind, or has a stop clause and names no denied capability |
| AgentStops.MissionIsEmittedIff | src/voice_nav_agent/voice_nav_agent/_agent_engine.py:228-241 | in every state of the core a turn has a Mission emitted if and only if it is a served command that names no denied capability and means, clause by clause or as an answer, steps that are valid under its fresh token |
| AgentStops.CancelIsEmittedIff | src/voice_nav_agent/voice_nav_agent/_agent_engine.py:243-266 | a cancel is emitted if and only if a served command asks for one, names no denied capability, and the Agent owns a Mission |
| AgentStops.PlannerIsAskedIff | src/voice_nav_agent/voice_nav_agent/_agent_engine.py:291-306 | the planner is asked if and only if a served command with a good snapshot is one unknown clause that answers no open question, and names no denied capability |
| AgentStops.SpeechIsEmittedIff | src/voice_nav_agent/voice_nav_agent/_agent_engine.py:206-289 | a turn is answered with words alone exactly when it is not ignored and names a denied capability, is asked a question, is refused with a reason, or asks to cancel a Mission that the Agent does not own |
| AgentNodeTheorems.MissionHandlesAreAccountedFor | src/voice_nav_agent/voice_nav_agent/agent_node.py:531-568 | over every run a cancel of a Mission handle is attempted at most once; an accepted handle is the current slot's, has finished or has been sent its cancel if and only if it is not a late one whose only attempt raised |
| AgentNodeTheorems.SpeakHandlesAreAccountedFor | src/voice_nav_agent/voice_nav_agent/agent_node.py:963-995 | the same for every accepted Speak handle and the current operation |
| AgentNodeTheorems.OneMissionRuns | src/voice_nav_agent/voice_nav_agent/agent_node.py:446-492 | two accepted Missions are unfinished and without a sent cancel at the same time only if one of them is a late, no longer current one whose cancel attempt raised |
| AgentNodeTheorems.LateMissionCanRunBesideTheNext | src/voice_nav_agent/voice_nav_agent/agent_node.py:1042-1046 | a concrete run in which that happens: the goal is accepted after its deadline and its best-effort cancel raises |
| AgentNodeTheorems.MissionsStartOnlyWhenFree | src/voice_nav_agent/voice_nav_agent/agent_node.py:446-492 | a Mission goal is sent only by delivering a Mission while no slot is live and every earlier accepted handle has finished or been sent its cancel, unless the only attempt raised |
| AgentNodeTheorems.SpeakSequencesNeverRepeat | src/voice_nav_agent/voice_nav_agent/agent_node.py:849-879 | Speak goals carry strictly increasing source sequences up to the largest 64-bit value, at most one per operation |
| AgentNodeTheorems.SpeechBelongsToTheNewestTurn | src/voice_nav_agent/voice_nav_agent/agent_node.py:837-847 | whatever is being said or stopped belongs to the newest delivered turn |
| AgentNodeTheorems.DeadlineClearsUnlessCancelled | src/voice_nav_agent/voice_nav_agent/agent_node.py:509-529 | when the send deadline of an unanswered goal fires, the slot is given up if and only if no cancel had been requested |
| AgentNodeTheorems.CancelBeforeAcceptanceHoldsTheSlot | src/voice_nav_agent/voice_nav_agent/agent_node.py:622-628 | after a cancel before acceptance nothing but the goal's own response gives the slot up |
| AgentNodeTheorems.DeadlineCanMissTheSlot | src/voice_nav_agent/voice_nav_agent/agent_node.py:509-513 | a concrete run in which the deadline has fired and the slot is still held |
| AgentNodeTable.RequestedCancelsAreAsked | src/voice_nav_agent/voice_nav_agent/agent_node.py:622-654 | in every reachable state the current Mission's cancel has been asked of the server, once, if and only if its goal has been accepted and a cancel was requested |
| AgentNodeTable.NamedCancelIsRequested | src/voice_nav_agent/voice_nav_agent/agent_node.py:592-628 | delivering a cancel that names the current Mission requests its cancel on behalf of the new turn, and by the end of the callback asks the server for it if the goal has been accepted |
| AgentNodeTable.EveryEventKeepsTheSlotTable | src/voice_nav_agent/voice_nav_agent/agent_node.py:446-742 | in every reachable state every event does to the slots exactly what a table over their fields says: whether a goal is sent and for which turn, whether the slot is given up, whether a cancel is asked for and tracked, and whom the slot speaks for |
| AgentNodeSpeech.EveryEventKeepsTheSpeechTable | src/voice_nav_agent/voice_nav_agent/agent_node.py:837-1022 | in every reachable state every event begins new speech exactly when a table says, for the newest turn and under the next sequence number, sends a Speak goal exactly for it or for speech that has been waiting, and ends or silences speech exactly when the table says |
| AgentNodeSpeech.AcceptedSpeechIsHeldOrCancelled | src/voice_nav_agent/voice_nav_agent/agent_node.py:963-995 | an accepted Speak goal is held and its result awaited if it is still what is being said, and its cancel is attempted on the spot otherwise |
| AgentNodeSpeech.EveryEventKeepsTheStopTable | src/voice_nav_agent/voice_nav_agent/agent_node.py:744-835 | a delivery ends the stop under way, a stop that goes out is the new one, and only its own end ends it otherwise |
| AgentNodeRuns.ReachableNodesKeep | src/voice_nav_agent/voice_nav_agent/agent_node.py:132-142 | the invariant over slots, operations, goals and the stop operation holds in every reachable state |
| AgentNodeObject.AgentNode.constructor | src/voice_nav_agent/voice_nav_agent/agent_node.py:160-171 | the node starts with no slot, no operation and the invariant |
| AgentNodeObject.AgentNode.Handle | src/voice_nav_agent/voice_nav_agent/agent_node.py:356-1060 | on slots and operations that are objects updated in place and compared by identity, every callback, however late, is the step of the run semantics, which the tables of `AgentNodeTable` and `AgentNodeSpeech` give event by event, and keeps every handle accounted for |
| AgentCoreProofs.AdmittedSequencesIncrease | src/voice_nav_agent/voice_nav_agent/core.py:829-860 | over every run commands past the fence have strictly increasing sequences within each Voice instance |
| AgentCoreProofs.AbandonedIsNeverReadmitted | src/voice_nav_agent/voice_nav_agent/core.py:845-857 | an instance left for another is never admitted again |
| AgentCoreProofs.FenceIsBounded | src/voice_nav_agent/voice_nav_agent/core.py:847-860 | the fence latches exactly when 64 instances are retired, and at most 65 instances are ever admitted |
| AgentCoreProofs.SourceSequencesNeverRepeat | src/voice_nav_agent/voice_nav_agent/core.py:883-890 | source sequences are given out in strictly increasing order up to the largest 64-bit value |
| AgentCoreProofs.StopAlwaysStops | src/voice_nav_agent/voice_nav_agent/core.py:638-644 | every valid stop is answered as one in every state, and forgets every pending clarification |
| AgentCoreFence.StopOutranksOlderCommands | src/voice_nav_agent/voice_nav_agent/core.py:862-881 | in every run, once a valid stop has been handled, no command of its Voice instance with the same or an older sequence number passes the fence, however late it arrives |
| AgentCoreFence.EveryTurnKeepsTheFenceTable | src/voice_nav_agent/voice_nav_agent/core.py:829-894 | in every state every turn does to the fence, the numbers given out and the commands let through exactly what a table over their fields says |
| AgentCoreFence.RefusedCommandIsTold | src/voice_nav_agent/voice_nav_agent/core.py:829-860 | a command that the fence does not let through is ignored as a replay or as from a retired instance, or told that the fence is shut; one that finds no number left is told so |
| AgentCoreDecisions.MissionIsTheClauses | src/voice_nav_agent/voice_nav_agent/core.py:957-962 | a Mission that answers no question consists of the steps of the clauses, one for one and in the order spoken |
| AgentCoreDecisions.QuestionKeepsTheClauses | src/voice_nav_agent/voice_nav_agent/core.py:926-956 | a question about clause m keeps the steps of the clauses before it as its prefix and of those behind it as its suffix, one for one and in order |
| AgentCoreDecisions.ServedCommandGets | src/voice_nav_agent/voice_nav_agent/core.py:646-745 | in every state a served command is decided as a cancel, a planner's business or a Mission if and only if its clauses, the snapshot and the open question say so; the Mission means the clauses or the steps known around the answer, and the token's fields are the next numbers and the command's own |
| AgentCoreDecisions.ServedCommandAsks | src/voice_nav_agent/voice_nav_agent/core.py:691-733 | in every state a served command asks a question if and only if its text leaves one parameter open, the steps it knows pass their check and there is room; its session's earlier question is gone and those of the others stay until they are out of date or another instance takes over |
| AgentCoreDecisions.UnservedTurns | src/voice_nav_agent/voice_nav_agent/core.py:636-658 | a turn that is no served command gets a stop, a refusal or nothing |
| AgentCoreReadings.CompleteReading | src/voice_nav_agent/voice_nav_agent/core.py:896-962 | a text reads as complete if and only if it has at most three clauses and each is a step; its steps are the clauses in order |
| AgentCoreReadings.MissingReading | src/voice_nav_agent/voice_nav_agent/core.py:926-956 | a text reads as incomplete if and only if exactly one of at most three clauses leaves its parameter open and the others are steps |
| AgentCoreProofs.EveryMissionIsValid | src/voice_nav_agent/voice_nav_agent/core.py:736-745 | a Mission leaves the core only validated against its own token, which carries a fresh source sequence |
| AgentCoreProofs.StoredClarificationIsSound | src/voice_nav_agent/voice_nav_agent/core.py:747-760 | for every stored clarification in every reachable state: under the snapshot it was asked with, the completed Mission is accepted if and only if the answer step alone is |
| AgentCoreProofs.AnsweringTurnCompletesTheMission | src/voice_nav_agent/voice_nav_agent/core.py:691-745 | in every run a turn that answers a clarification under an unchanged snapshot becomes exactly the Mission prefix + answer + suffix if and only if the answer step alone is valid, and a reply otherwise |
| AgentCoreProofs.ClarificationsAreUsedOnce | src/voice_nav_agent/voice_nav_agent/core.py:659 | each stored clarification is used for at most one command |
| AgentCoreProofs.ClarificationTableIsBounded | src/voice_nav_agent/voice_nav_agent/core.py:783-787 | the table of clarifications never exceeds its capacity |
| MissionValidator.ClarificationIsSound | src/voice_nav_agent/voice_nav_agent/core.py:747-760 | repeating one known step in place of the answer is a complete check of everything but the answer |
| MissionValidator.AcceptedMeans | src/voice_nav_agent/voice_nav_agent/core.py:278-312 | a Mission is accepted if and only if its token is, its length fits every bound, and each step is accepted on its own |
| MissionMeaning.AcceptedMissionMeans | src/voice_nav_agent/voice_nav_agent/core.py:278-414 | a Mission is accepted if and only if its command is named, its Runtime is good, it has one to three steps within both bounds, and each is a drive, a turn, a visit or a save within range, in the right mode, to a known place, that the Runtime supports |
| MissionMeaning.AcceptedSnapshotMeans | src/voice_nav_agent/voice_nav_agent/core.py:1461-1516 | a snapshot is accepted if and only if there is one, its Runtime is available, inhibited and within its bounds, and its places are at most 32, different and well-formed |
| AgentCoreState.First | src/voice_nav_agent/voice_nav_agent/core.py:913-938 | the first clause of a kind, or none, in order |
| AgentCoreObject.ValidateSteps | src/voice_nav_agent/voice_nav_agent/core.py:278-312 | the loop returns the verdict of the definition, first rejection first |
| AgentCoreObject.AgentCore.constructor | src/voice_nav_agent/voice_nav_agent/core.py:583-614 | the core starts fresh |
| AgentCoreObject.AgentCore.ExpirePending | src/voice_nav_agent/voice_nav_agent/core.py:1230-1238 | exactly the timed-out clarifications go |
| AgentCoreObject.AgentCore.CommitPending | src/voice_nav_agent/voice_nav_agent/core.py:762-798 | a clarification is stored only if its known steps pass and there is room |
| AgentCoreObject.AgentCore.HandleTurn | src/voice_nav_agent/voice_nav_agent/core.py:626-745 | a turn is the step whose decision, steps, token and questions `AgentCoreDecisions` characterises; it keeps the fence, the sequences and the clarifications, decides a stop for exactly the valid stop envelopes and stop clauses, and decides a Mission only validated against its own token with the next source sequence |
| MotionReadiness.ReadyIffHeld | src/voice_nav_bringup/_mode_readiness.py:251-262 | for a clock that never goes back, however often a call reads it, and any order of observations: a query reports readiness if and only if an unbroken safe window has been held, to the moment of asking, for at least the hold |
| MotionMeaning.SafeCallMeans | src/voice_nav_bringup/_mode_readiness.py:197-249 | a call finds everything safe if and only if of each kind there has been an observation, the newest of each says safe by its own values, and the newest odometry came in at most a tenth of a second before the check |
| MotionReadiness.ReadinessIsTruthfulIff | src/voice_nav_bringup/_mode_readiness.py:257-262 | readiness reported stands for a window of at least the hold in which every condition was safe and odometry at most 0.1 s old at every moment, if and only if the newest odometry is still that fresh at the last clock reading of the query |
| MotionReadiness.WindowIsSafeThroughoutIff | src/voice_nav_bringup/_mode_readiness.py:218-249 | an unbroken window is safe at every moment if and only if odometry is still fresh when it ends |
| MotionReadiness.ReadyIffHeldSafe | src/voice_nav_bringup/_mode_readiness.py:257-262 | with one clock reading per call readiness is reported if and only if such a window was safe at every moment |
| MotionReadiness.SeparateReadingsCanMislead | src/voice_nav_bringup/_mode_readiness.py:230-262 | four observations and one slow query from the initial state: readiness is reported with odometry two seconds old |
| MotionReadiness.MotionReadinessState.IsReady | src/voice_nav_bringup/_mode_readiness.py:257-262 | the object answers that motion is ready if and only if the log of all its calls ends in a safe window held long enough |
| CppScannerProofs.ViewsAreAligned | scripts/check_motion_gate_contract.py:685-764 | both views keep the length and every newline of the logical source, and the code view masks the comment-free view |
| CppScannerProofs.CommentFreeIsStable | scripts/check_motion_gate_contract.py:685-764 | on logical source, scanning the comment-free view again changes nothing and finds the same code |
| CppTokens.ViewsShowEveryCharacter | scripts/check_motion_gate_contract.py:685-764 | every character belongs to one token of the split; newlines aside, the comment-free view blanks exactly the characters of comments, the code view exactly those of comments and literals |
| CppTokens.EveryTokenMeansItsKind | scripts/check_motion_gate_contract.py:706-762 | a token is a comment to its line's end or first terminator, a raw string from its prefix past the first closing of its own delimiter, a quoted literal past the first quote that no backslash escapes, or a single character of code where none of these begins |
| CppBody.StripIsIdempotentIff | scripts/check_motion_gate_contract.py:767-769 | stripping comments from physical source is idempotent if and only if every backslash-newline pair that splicing leaves in the source lies in a comment |
| CppBody.PairsOfTheView | scripts/check_motion_gate_contract.py:685-764 | the backslash-newline pairs of the comment-free view are those of the source outside comments |
| CppBody.StripIsNotAlwaysIdempotent | scripts/check_motion_gate_contract.py:680-682 | a source on which stripping twice differs from stripping once |
| CppBody.SplicingKeepsOrShortens | scripts/check_motion_gate_contract.py:680-682 | line splicing keeps a source exactly when it holds no pair, and shortens it otherwise |
| CppBody.BodyIsShortestBalanced | scripts/check_motion_gate_contract.py:789-797 | the extracted body is brace-balanced by the code view, never closes more than it opens, and is the only and shortest such stretch |
| CppBody.FunctionBody | scripts/check_motion_gate_contract.py:777-800 | the extraction answers with that body, or with which of signature, opening brace or closing brace is missing |
| CppBody.CloseBrace | scripts/check_motion_gate_contract.py:789-800 | the depth loop finds the first return to zero, or proves there is none |
| CppBody.Splice | scripts/check_motion_gate_contract.py:680-682 | the loop removes each pair once, left to right |
| CppScanner.LexicalViews | scripts/check_motion_gate_contract.py:704-764 | the loop yields the views of the declarative token split |
| CppScanner.ScanToken | scripts/check_motion_gate_contract.py:706-762 | one turn of the loop recognises the token that starts there |
| CppScanner.ScanRaw | scripts/check_motion_gate_contract.py:720-743 | the searches for the delimiter's parenthesis and for the terminator find the end of a raw string, or that there is none |
| CppScanner.ScanQuoted | scripts/check_motion_gate_contract.py:746-755 | the inner loop ends a quoted literal at its first unescaped quote |
| CppScanner.Find | scripts/check_motion_gate_contract.py:708-714 | a search returns the first occurrence at or after its start, or none when there is none |

## Left out

- Recognition: `normalize_sensevoice_text`, the vocabulary and the adapters' own threads are arbitrary answers; one sink
  identity stands for all; the adapters' shutdown after the worker has joined is not modelled. An overflow that lands
  between a terminal event and the reset of its turn is swallowed by the reset, as in the source.
- Pipeline: a result that is not cleaned carries no samples here, where the source returns a zeroed frame; the rounding
  of the delay to whole milliseconds is not modelled, only its range.
- AudioLockstep.UndisturbedRunsStayInStep: pushes and pops of the capture ring are single steps, so the sequence
  lock of one slot being read while it is overwritten is not interleaved; the object in `AudioRings` has the slots and
  their sequence stamps, for calls that do not overlap.
- AudioAccounts.QuiescentAccountsBalance: the fence reasons, xruns, underflows, overflow counts and stale-packet counts
  that no other part reads are not modelled.
- AudioRings.OverwriteRing.Pop: calls do not overlap there, so the two exits for a slot overwritten while it is read are
  not reached.
- AudioFade.StoredGain: single-precision rounding is left out; gains are real numbers.
- Main loop, PortAudio, files, transports, ROS interfaces, publisher identity and quality of service: foreign code.
- AgentEngineAnswers.DeliveriesSayWhatThePlannerSaid: an answer is told by its effect; the planner's own steps, which pass the
  same validator before they become a Mission, are not carried along.
- Agent engine: the texts, identities and clarification strings of outcomes, Mission ownership, the deny list's text match
  and the test planner would only add easy members. Shutdown does not start while another main operation is half done.
- Agent node: texts, priorities and session names of speech, and discovery of publishers, are not modelled.
- Agent core: normalisation, clause splitting and clause recognition are inputs of a turn, given clause by clause;
  single-precision rounding of angles is an uninterpreted function; type checks of dynamically typed values are subsumed by
  types.
- Motion readiness: the mode evidence of lifecycle nodes, maps and transforms, and the failure stage names.
- Scanner: which characters beyond ASCII are alphanumeric or space is a parameter; the checks built on top of the scanner
  are not modelled.
