# Sonotide playback engine: model and proofs

This project models the parts of Sonotide that are hardest to get right and proves what they are
for. Check it with `dafny verify dfyconfig.toml` (Dafny 4.11).

| files | what they model |
|---|---|
| `ProtocolState`, `ProtocolSteps`, `ProtocolInvariant`, `ProtocolProofs`, `ProtocolTheorems` | the playback session: control calls, the decode worker and the render callback, as a transition system with an inductive invariant and theorems over every run |
| `ProtocolHistory`, `ProtocolSeeks`, `ProtocolCallback`, `ProtocolRest` | what the events of a run tell of the session's state, where seeks go, what one callback plays, and when the worker rests |
| `ProtocolScenes`, `ProtocolExample` | runs that show what does happen |
| `DecodedAudioQueue` | the ring between worker and callback: the object, and every interleaving of its two sides |
| `TimeScaling` | exact performance-counter scaling in 64-bit words |
| `EqualizerTypes`, `EqualizerLayout`, `Equalizer`, `EqualizerPresets`, `EqualizerSession` | band layouts, default bands, preset projection, and the session's equalizer object |
| `ParameterSmoother`, `Lanes`, `BiquadFilter`, `PeakingFilter`, `EqualizerResponse` | the DSP kernels and the frequency response of the sections they run |
| `EqualizerChain`, `EqualizerSettled`, `EqualizerProcessor`, `SteadyTones` | the block-wise equalizer chain, sequences of calls and the chain at rest, its mutable object, and what it makes of a steady tone |
| `DecoderValidation`, `MediaFoundationDecoder` | the decoder's checked arithmetic and its PCM cache |
| `StreamLifecycle` | the stream state machine and the start/stop/reset/close handshake with the worker thread |
| `Transitions`, `IntLemmas`, `RealLemmas`, `Wrappers` | shared helpers: runs built event by event, and arithmetic |

## How to read the models

**Playback session.** One event is one critical section of the session mutex, one access to the
atomic pipeline or hazard pointer, one decoder call, or one use of a pipeline by its present owner.
The callback keeps the mutex over its hazard loop (`src/playback_session.cpp:979-1008`), so every
other critical section is disabled until `RenderUnlock`. Counters (source generation, seek sequence,
decoder epoch, control version, pipeline builds) are unbounded numbers, and one callback runs at a
time. The mirror atomics of generation and seek sequence are written and read in the same steps as
the fields they mirror. The decoder is the abstract contract of
`src/internal/playback/playback_decoder.h`: reads and seeks fail unless open, a failed open leaves it
closed, a call may succeed or fail after its epoch moved on, and fails as cancelled only then.
`MediaFoundationDecoder` keeps that contract as far as its source refuses a call as not accepting
only after a request to cancel: a refusal is reported as a cancellation too. The fields named
`history`, `sourceError` and `computed`, and the traffic of a pipeline (`read`, `pushed`, `popped`,
`build`), are records for the theorems; no step looks at them. The queue inside a pipeline is an
atomic first-in first-out queue here; module `RingInterleaving` shows that the ring is one.
`EditControls` stands for every locked change of equalizer settings or volume, each of which raises
the control version, and names the headroom that those computing one from the new bands store;
`WorkerPublish` names the one the new pipeline's sample rate calls for.

| events | source |
|---|---|
| `Load`, `Play`, `Pause`, `SeekTo`, `SelectDevice` | `src/playback_session.cpp:375-483`, `772-797` |
| `CloseBegin`, `CloseDetach`, `CloseReturn` | `src/playback_session.cpp:900-961` |
| `RenderBegin` to `RenderUnlock` | `src/playback_session.cpp:979-1008` |
| `RenderPop` to `RenderRelease` | `src/playback_session.cpp:1013-1071` |
| `WorkerWake` to `WorkerPush` | `src/playback_session.cpp:1234-1418` |
| `WorkerRebuild`, `WorkerPublish` | `src/playback_session.cpp:1481-1516` |

**Stream lifecycle.** Any number of callers run start, stop, reset and close; each critical section
of the handle's mutex is one event, each wait is enabled when its predicate holds, and every worker
ever launched is kept in a list, so that "at most one is alive" is a statement about threads and not
about a flag.

**Arithmetic.** Samples, frequencies and gains are real numbers. The library functions `sin`, `cos`,
`pow(10, x)`, `log10`, `sqrt`, `log` and `exp` are arbitrary functions of which the few laws listed in
`PeakingFilter.Maths.Lawful` and `Equalizer.Scale.Valid` are assumed; every theorem that needs them
asks for them in its precondition.

**What the code does not keep.** Each is stated with a concrete run or input and with the exact
condition under which it happens.

| what is not always kept | exact condition | it does fail |
|---|---|---|
| a seek goes to the position asked for | `ProtocolSeeks.SeekGoesWhereAsked`: unless a load or a completed seek came between the asking and the worker's wake | `ProtocolExample.ASeekIsLost`: a changed device format reopens the source at the start |
| a paused session does not report playing | `ProtocolTheorems.PauseIsOverwritten`: until a block other than its source's last is committed while the session is told not to play | `ProtocolExample.APauseIsOverwritten`: a pause between a callback's processing and its commit |
| the stored headroom is the one last computed | `ProtocolTheorems.HeadroomIsOverwritten`: until a commit stores that of a chain given another one, which takes a change of settings since that callback began | `ProtocolExample.AHeadroomIsOverwritten`: such a change |
| a failed seek leaves the decoder as it was | `MediaFoundationDecoder.Decoder.SeekTo`: unless the reader has moved, after which a cancelled seek keeps the cache of the place before | the same contract |
| a closed stream reports closed | `StreamLifecycle.ClosedStatusIsOverwritten`: until an overtaken start wakes to a successful startup | `StreamLifecycle.ClosedStreamMayReportRunning` |
| a close returns only when the worker is gone | `StreamLifecycle.LaterCloseReturnsAtOnce`: unless the stream is already closed and its worker still alive | `StreamLifecycle.LaterCloseDoesNotWait` |
| a worker that rests has served what is asked for | `ProtocolRest.WorkerRestsWhenDone`: unless the decoder is closed after a failure for the present source and seek in another format or frame count | `ProtocolExample.AWorkerIsForsaken`: the device changes its format and back, and the open between fails |
| a stream that counts as running has a worker | `StreamLifecycle.SelfCloseStrandsTheStream`: unless the worker's own callback has asked for a close; no start and no reset gets the stream out of that | `StreamLifecycle.AStreamMayRunWithoutAWorker` |
| a waiting start has a result to wait for | `StreamLifecycle.StartIsServed`: unless the latest launch could not create its thread | `StreamLifecycle.FailedThreadMayStrandAStart` |
| the binary search ends | `TimeScaling.NarrowStallsOnlyOnFullRange`: unless the range is the full 64 bits, which its only caller never asks for | the same lemma |

## Model

| member | source | states |
|---|---|---|
| ProtocolTheorems.RunKeepsInv | src/playback_session.cpp:1212-1420 | the inductive invariant holds in every state of every interleaving of callers, worker and callback: it ties generation, seek sequence, epoch, the decoder's open source and every queued tag together |
| ProtocolProofs.CallerKeepsInv | src/playback_session.cpp:375-483 | every control call, stream error, recovery failure and step of close keeps that invariant |
| ProtocolProofs.RenderKeepsInv | src/playback_session.cpp:964-1071 | every step of the render callback keeps it |
| ProtocolProofs.WorkerKeepsInv | src/playback_session.cpp:1234-1418 | every step of the decode worker keeps it |
| ProtocolTheorems.CommitIsCurrent | src/playback_session.cpp:1029-1069 | in every run, whatever a callback commits was read from a decoder opened on the present source URI after the seek of the present seek sequence (no seek if that is 0); a callback that takes the lock commits exactly when its block's tag is the present one, and otherwise changes nothing |
| ProtocolCallback.CallbackPlaysWhatItBeganFor | src/playback_session.cpp:979-1032 | in every run a callback with a block in hand began while the session was told to play and had a source, the block fills exactly the buffer it began with, which is not empty, and once its tag is checked it is of no older source and seek than the session's at that beginning |
| ProtocolCallback.PausedCallbackIsSilent | src/playback_session.cpp:990-1013 | a callback that begins after a pause, with no play and no load between, never has a block in hand: it pops, processes and commits nothing |
| ProtocolCallback.PopSuitsTheBuffer | src/playback_session.cpp:1013-1024 | a callback pops only from a pipeline built for the very format and frame count it began with, and takes the oldest block |
| ProtocolTheorems.OnlyCommandsAndCommitsMoveTimeline | src/playback_session.cpp:375-411 | position, duration and completion count change only by a load, a seek, a worker announcing a pipeline of the present source, or such a commit |
| ProtocolHistory.IntentIsTold | src/playback_session.cpp:375-483 | in every run the session is told to play exactly when a play with a source or an auto-starting load has come since the last pause, other load, unrecoverable stream error, failed recovery, current source failure, worker death or committed end |
| ProtocolHistory.ReadinessIsTold | src/playback_session.cpp:1322-1330 | in every run the decoder counts as ready exactly when the worker has announced a current pipeline since the last load, change of the device, stream error, current source failure or worker death |
| ProtocolHistory.EndIsTold | src/playback_session.cpp:1062-1069 | in every run the session stands at the end exactly when a last block has been committed since the last load, seek, change of the device, stream error, play with a source or current source failure |
| ProtocolHistory.SettingsAreTold | src/playback_session.cpp:375-394 | in every run the source is the one loaded last, the controls are those set last, and format and frame count are those of the last callback |
| ProtocolHistory.TimelineIsTold | src/playback_session.cpp:1051-1069 | what each step does to position, duration and completion count: 0 at a load, the asked position cut at 0 at a seek, the announced duration, and the committed block's place, which at the end is the duration; nothing otherwise |
| ProtocolHistory.StatusIsTold | src/playback_session.cpp:396-483 | what each step leaves the session reporting, from the events alone |
| ProtocolHistory.ComputedIsTold | src/playback_session.cpp:1508-1516 | in every run each step that computes a headroom stores it, and no other step changes the one computed last |
| ProtocolTheorems.PauseIsOverwritten | src/playback_session.cpp:1051-1067 | in every run the status comes to be playing without a play intent exactly when a current block that is not its source's last is committed while the session is told not to play |
| ProtocolExample.APauseIsOverwritten | src/playback_session.cpp:1060 | for any settings there is a run in which that happens: a pause just before the commit |
| ProtocolTheorems.HeadroomIsOverwritten | src/playback_session.cpp:1058-1059 | in every run the stored headroom comes to differ from the one last computed exactly when a commit stores that of a chain given another one, and only if the settings changed since that callback began |
| ProtocolExample.AHeadroomIsOverwritten | src/playback_session.cpp:1058-1059 | for any settings and any two headrooms there is a run in which the older one overwrites the newer |
| ProtocolSeeks.PendingIsAwaited | src/playback_session.cpp:1372-1376 | in every run a seek is pending exactly when one was asked for and neither a load nor a completed seek has dropped it since, and then it is the position asked for last |
| ProtocolSeeks.RecordIsAsked | src/playback_session.cpp:425-483 | in every run the position on record for the present seek sequence is the one asked for last: 0 for a play after the end, a seek's own position cut at 0, and the present position for a change of the device |
| ProtocolSeeks.SeekGoesWhereAsked | src/playback_session.cpp:1333-1352 | a successful worker seek answers the sequence its last wake saw, in the source loaded last by then and in that wake's format, and goes to the position asked for last if the session still awaited a seek then, and to 0 otherwise |
| ProtocolSeeks.RequestIsCancelled | src/playback_session.cpp:390-393 | in every run a request of the worker has lost its epoch exactly when a load, a seek, a change of the device or a close has come since the wake that took it |
| ProtocolSeeks.WorksForCurrent | src/playback_session.cpp:1266-1303 | in every run the worker gives up the source it has open, and goes on to replace a pipeline, only after a look at which its request was current |
| ProtocolExample.ASeekIsLost | src/playback_session.cpp:1335-1336 | for any position there is a run in which a current request seeks to 0 although that position was the last one asked for |
| ProtocolTheorems.RebuildExcludesHolder | src/playback_session.cpp:1481-1497 | the worker never rebuilds the slot a callback holds or the published one, and what is held is built |
| ProtocolTheorems.HeldPayloadIsNeverReplaced | src/playback_session.cpp:999-1007 | from validated acquire to release a callback sees one build of one slot, whatever the other actors do |
| ProtocolTheorems.NoSlotFailure | src/playback_session.cpp:1504-1506 | one of the three slots is always free: the thrown error is unreachable and no null pipeline is used |
| ProtocolTheorems.CloseReturnIsFinal | src/playback_session.cpp:944-949 | once close has left its hazard spin it stays so |
| ProtocolTheorems.NothingHeldAfterClose | src/playback_session.cpp:944-949 | from then on no callback holds or can acquire a pipeline |
| ProtocolTheorems.ClosingFreezesSession | src/playback_session.cpp:900-917 | from the moment a close begins no callback, worker or command changes the session, but for its equalizer and volume settings |
| ProtocolTheorems.PushSucceeds | src/playback_session.cpp:1400-1418 | every push reached for a current request succeeds and stays within the ring's capacity |
| ProtocolTheorems.PoppedIsPrefixOfRead | src/playback_session.cpp:1236-1262 | blocks popped from a pipeline, followed by queued ones, are those pushed, and are a prefix of those read for it |
| ProtocolRest.NothingIsReadPastTheEnd | src/playback_session.cpp:1236-1252 | in every run at most the last block read for a pipeline is the last one of its source, so at most one end is played per pipeline, with an empty queue behind it |
| ProtocolRest.FailureIsReported | src/playback_session.cpp:1276-1294 | in every run a failed open, seek or read is what the worker reports next, unless it dies: for a request still current the session then has an error, of that very cause, is not told to play and has no decoder ready |
| ProtocolRest.ReportHasACause | src/playback_session.cpp:1285-1287 | what the worker reports is how its last decoder call failed |
| ProtocolRest.FailedRequestIsNotRetried | src/playback_session.cpp:1241-1250 | in every run the worker takes up work only once the session asks for another source, seek, format or frame count than the request that failed last, unless a pipeline has been published since |
| ProtocolRest.FailedSourceCountsAsEnded | src/playback_session.cpp:1288-1294 | in every run, while the last failure on record is at the worker's own source and seek, its source counts as ended |
| ProtocolRest.WorkerRestsWhenDone | src/playback_session.cpp:1236-1252 | in every run a worker that wakes and rests, with something to play and no failure of that very request on record, has the present source open in the callbacks' format at the present seek, and a published pipeline for it that is full or has all of it; exactly unless the decoder is closed after a failure for the present source and seek in another format or frame count |
| ProtocolExample.AWorkerIsForsaken | src/playback_session.cpp:1274-1294 | for any settings there is a run in which that happens: the device changes its format, the open in it fails, and the device changes back; a play then leaves the session loading and the worker at rest |
| ProtocolRest.FinishedWorkerHasClosed | src/playback_session.cpp:1443-1450 | in every run a worker that has finished has closed its decoder |
| ProtocolTheorems.EpochsAgree | src/playback_session.cpp:390-393 | while the session is not shutting down the requested epoch is the decoder's |
| ProtocolTheorems.CancellationNeverSurfaces | src/playback_session.cpp:1277-1287 | a decoder failure caused by an epoch change never reaches the source-error handler |
| ProtocolTheorems.StaleWorkIsInvisible | src/playback_session.cpp:1266-1418 | in every run a worker step for a request that is no longer current changes neither the session nor which pipeline is published nor what is queued there or in a callback's hands; only a worker that dies is reported |
| ProtocolTheorems.GatingEqualsUnconditionalUpdate | src/playback_session.cpp:1034-1043 | whenever a chain processes a block its bands, headroom, switch, output gain and volume are those this callback snapshotted under the lock, for any history of edits and republications |
| ProtocolCallback.ChainPlaysSettingsOfBegin | src/playback_session.cpp:990-998 | so a chain processes a block with the controls set last before the callback began and the headroom stored then |
| ProtocolExample.ACommitIsReached | src/playback_session.cpp:964-1071 | for any settings, position and duration there is a run, from an empty session, whose last step commits a block with them |
| DecodedAudioQueue.AudioQueue.constructor | src/internal/playback/decoded_audio_queue.h:22-27 | a new queue is empty and has the requested capacity |
| DecodedAudioQueue.AudioQueue.TryPush | src/internal/playback/decoded_audio_queue.h:29-42 | succeeds exactly when the queue has room and the block fits a slot, and then appends exactly it |
| DecodedAudioQueue.AudioQueue.TryPop | src/internal/playback/decoded_audio_queue.h:44-58 | takes the oldest block, cut or zero-padded to the destination; an empty queue leaves the destination alone |
| DecodedAudioQueue.AudioQueue.Full | src/internal/playback/decoded_audio_queue.h:60-63 | answers whether the contents have reached the capacity |
| RingInterleaving.StepRefinesFifo | src/internal/playback/decoded_audio_queue.h:29-63 | every step of either side, with index loads, slot copy and index store apart, and the producer's question whether the ring is full in two loads, is a step of a bounded queue |
| RingInterleaving.NotFullStays | src/internal/playback/decoded_audio_queue.h:60-63 | in every interleaving, while the producer has been told that the ring is not full, it has room |
| RingInterleaving.RunConservesItems | src/internal/playback/decoded_audio_queue.h:29-58 | in every interleaving popped items followed by queued ones are the pushed ones, and no half-written slot is ever read |
| RingInterleaving.SidesNeverShareASlot | src/internal/playback/decoded_audio_queue.h:36-55 | producer and consumer never work on the same slot at once |
| TimeScaling.AndMasks | src/internal/win/wasapi_stream_validation.h:25-29 | bit by bit, masking with 2^k - 1 is the remainder by 2^k |
| TimeScaling.OrJoinsHalves | src/internal/win/wasapi_stream_validation.h:38-41 | bit by bit, joining a shifted word and a masked half by or is adding them; the product is built from these operators |
| TimeScaling.MultiplyIsExact | src/internal/win/wasapi_stream_validation.h:22-42 | high times 2^64 plus low is the full product for every pair of words |
| TimeScaling.LessOrEqualComparesValues | src/internal/win/wasapi_stream_validation.h:44-49 | comparing words compares 128-bit values |
| TimeScaling.NarrowBracket | src/internal/win/wasapi_stream_validation.h:60-67 | a turn of the search takes the step the product comparison calls for, keeps the floor bracketed and shrinks the bracket |
| TimeScaling.NarrowStallsOnlyOnFullRange | src/internal/win/wasapi_stream_validation.h:60-67 | that step makes no progress exactly on the full 64-bit range |
| TimeScaling.ScaleRemainder | src/internal/win/wasapi_stream_validation.h:53-69 | the binary search returns the exact floor of remainder * multiplier / divisor and ends |
| TimeScaling.ScaleSplits | src/internal/win/wasapi_stream_validation.h:81-89 | scaling whole seconds and the rest apart gives the floor of the whole |
| TimeScaling.ScaleQpcTo100ns | src/internal/win/wasapi_stream_validation.h:72-94 | returns exactly the floor, and nothing exactly when the inputs are out of domain or the floor exceeds 64 bits |
| EqualizerLayout.CollectClamped | src/internal/equalizer_layout_utils.h:18-41 | keeps the first ten bands, clamped |
| EqualizerLayout.SortByFrequency | src/internal/equalizer_layout_utils.h:43-48 | gives a sorted permutation |
| EqualizerLayout.RaiseForward | src/internal/equalizer_layout_utils.h:50-54 | puts every band at the greatest push of the bands up to it |
| EqualizerLayout.CapBackward | src/internal/equalizer_layout_utils.h:56-69 | meets the closed form of the caps |
| EqualizerLayout.CappingStep | src/internal/equalizer_layout_utils.h:62-69 | capping by the neighbour is capping by one's own ceiling, and the lower clamp never acts |
| EqualizerLayout.NormalizeEqualizerBands | src/internal/equalizer_layout_utils.h:12-72 | the result is min(max over j of (s[j] + 10(i-j)), 20000 - 10(n-1-i)) over a sort s of the clamped input |
| EqualizerLayout.NormalizedIsValid | src/internal/equalizer_layout_utils.h:50-71 | any result of normalization lies within all limits with gaps of at least 10 Hz |
| EqualizerLayout.NormalizationKeepsTones | src/internal/equalizer_layout_utils.h:33-40 | the (gain, Q) pairs are a permutation of the clamped input pairs |
| EqualizerLayout.NormalizationIsIdempotent | src/internal/equalizer_layout_utils.h:12-72 | a valid layout is left exactly as it is |
| EqualizerLayout.NormalizingTwiceIsNormalizingOnce | src/internal/equalizer_layout_utils.h:12-72 | normalizing again changes nothing |
| Equalizer.MakeDefaultEqualizerBands | src/equalizer.cpp:94-112 | builds the default layout of the clamped count |
| Equalizer.DefaultBandsAreValid | src/equalizer.cpp:28-56 | default layouts of every count are valid and flat, for any lawful logarithm |
| Equalizer.DefaultBandsAreEquallySpread | src/equalizer.cpp:28-56 | a single default band is at 3 kHz; several stand at equal steps over the reference bands, from the first to the last, on the straight line of logarithms between neighbours |
| Equalizer.TenDefaultBandsAreTheReference | src/equalizer.cpp:35-45 | with ten bands the default layout is the reference table |
| Equalizer.EditableRangeIsExact | src/equalizer.cpp:114-147 | for a valid layout the range exists, contains the band's frequency, and is exactly the set of frequencies that keep the layout valid |
| Equalizer.ProjectPresetGainsToBands | src/playback_session.cpp:82-140 | every target band gets the gain of the curve at its frequency: the first or last one outside the reference bands, the logarithmic interpolation of two neighbouring ones between them, and 0 for an empty curve |
| Equalizer.UpperBoundInside | src/playback_session.cpp:113-124 | inside the curve the upper-bound search ends between the first and the last reference band and brackets the frequency, so no index is out of range |
| Equalizer.ShareIsProper | src/playback_session.cpp:126-136 | between two reference bands the upper one's share lies in [0, 1), without a division by zero, and is 0 at the lower one |
| Equalizer.ProjectionStaysInRange | src/playback_session.cpp:103-137 | a projected gain lies between the preset's least and greatest gain, for any increasing logarithm with an increasing inverse |
| Equalizer.ProjectionMeetsReference | src/playback_session.cpp:113-136 | at a reference frequency the projection is the preset's own gain |
| EqualizerPresets.BuiltinPresetsAreValid | src/internal/dsp/equalizer_chain.cpp:264-284 | the built-in presets have distinct ids, gains within the limits and a flat member |
| EqualizerPresets.SelectingMakesCarried | src/playback_session.cpp:523-531 | taking over a preset's projection keeps the layout valid and makes it carry the preset |
| EqualizerPresets.FindPreset | src/playback_session.cpp:509-521 | finds a preset with the id or shows there is none |
| EqualizerSession.Session.constructor | src/playback_session.cpp:1558-1567 | a new session satisfies the run invariant, with the default layout and the flat preset |
| EqualizerSession.Session.RecalculateActivePreset | src/playback_session.cpp:1569-1585 | picks the first preset in the list that fits within 0.01 dB of every band, or custom when none does |
| EqualizerSession.Session.UpdateLastNonflat | src/playback_session.cpp:1587-1607 | the memory has the band count and mirrors the gains whenever one exceeds 0.01 dB |
| EqualizerSession.Session.Close | src/playback_session.cpp:906-908 | keeps the invariant and makes every later edit refused |
| EqualizerSession.Session.SetEnabled | src/playback_session.cpp:494-500 | keeps the invariant; changes only the switch and the version |
| EqualizerSession.Session.SelectPreset | src/playback_session.cpp:502-533 | keeps the invariant; takes over the projected curve, with the memory kept if that is flat, or reports an unknown preset and changes nothing |
| EqualizerSession.Session.SetBandGain | src/playback_session.cpp:535-554 | keeps the invariant; replaces exactly one clamped gain; picks the first fitting preset or custom; and mirrors the gains in the memory, which flat bands of the same number leave as it is |
| EqualizerSession.Session.SetBandQ | src/playback_session.cpp:556-573 | keeps the invariant although preset and memory are not recomputed |
| EqualizerSession.Session.AddBand | src/playback_session.cpp:575-637 | keeps the invariant; inserts at the lower bound, clamped into the slot, and refuses exactly when ten bands are in use or the slot is empty; picks the first fitting preset or custom; and mirrors the gains in the memory, which flat bands of the same number leave as it is |
| EqualizerSession.SlotIsExact | src/playback_session.cpp:604-632 | the slot is exactly the set of frequencies for which inserting there keeps the layout valid |
| EqualizerSession.Session.RemoveBand | src/playback_session.cpp:639-655 | keeps the invariant; removes exactly one band; picks the first fitting preset or custom; and mirrors the gains in the memory, which flat bands of the same number leave as it is |
| EqualizerSession.Session.SetBandFrequency | src/playback_session.cpp:657-692 | keeps the invariant; moves one band to the requested frequency clamped into its editable range, and never finds the range missing; picks the first fitting preset or custom; and mirrors the gains in the memory, which flat bands of the same number leave as it is |
| EqualizerSession.Session.Reset | src/playback_session.cpp:694-704 | uninterrupted, it takes the flat curve, the flat preset and no output gain, keeps the memory of the last curve and raises the version twice; closed, it changes nothing |
| EqualizerSession.Session.ClearOutputGain | src/playback_session.cpp:700-703 | the second half of a reset keeps the invariant in whatever state other edits have left, closed or not |
| EqualizerSession.Session.SetOutputGain | src/playback_session.cpp:706-715 | clamps and stores the gain and raises the version |
| EqualizerSession.Session.ApplyState | src/playback_session.cpp:717-752 | accepts any state of at most ten bands, stores its normalization, its clamped output gain and its memory, cut or padded to the bands and overwritten by gains that are not flat, picks the first fitting preset or custom, and keeps the invariant |
| EqualizerSession.Session.ActivePresetTells | src/playback_session.cpp:1569-1585 | in every state of a session the active preset is custom exactly when no built-in one fits, is flat only while no gain exceeds 0.01 dB, and is not custom then |
| ParameterSmoother.Smoother.Advance | src/internal/dsp/parameter_smoother.cpp:28-48 | advances the ramp as the specification does and returns the value reached |
| ParameterSmoother.AdvancesCompose | src/internal/dsp/parameter_smoother.cpp:28-48 | advancing by a and then by b is advancing by a + b |
| ParameterSmoother.ChunkingIsIrrelevant | src/internal/dsp/parameter_smoother.cpp:28-48 | only the sum of any chunks matters |
| ParameterSmoother.RampClosedForm | src/internal/dsp/parameter_smoother.cpp:33-47 | after k of n samples in any chunks the value is start + (target - start) k / n, the target from n on, and never outside the interval |
| ParameterSmoother.RetargetedIsStraight | src/internal/dsp/parameter_smoother.cpp:14-25 | a ramp given a new target goes there from where it stands in a straight line over the ramp's samples, at once if there are none |
| Lanes.LaneIsRemainder | src/internal/dsp/biquad_filter.cpp:50-53 | the channel of an interleaved sample is its number modulo the channel count |
| Lanes.ChannelAt | src/internal/dsp/biquad_filter.cpp:50-55 | a channel's sample n is the frame n's sample of that channel |
| Lanes.ChannelsAreIndependent | src/internal/dsp/biquad_filter.cpp:53-61 | with one state per channel, a channel's output and state depend on that channel's samples alone, for any per-sample kernel |
| BiquadFilter.Biquad.Configure | src/internal/dsp/biquad_filter.cpp:15-25 | sets the coefficients and clears the delay lines exactly on a change of channel count |
| BiquadFilter.Biquad.SetCoefficients | src/internal/dsp/biquad_filter.cpp:28-31 | changes the coefficients and keeps the delay lines |
| BiquadFilter.Biquad.Reset | src/internal/dsp/biquad_filter.cpp:34-37 | clears the delay lines and keeps the coefficients |
| BiquadFilter.Biquad.Process | src/internal/dsp/biquad_filter.cpp:40-63 | in place, the buffer and both delay lines become those of the specification; an unsuited section changes nothing |
| BiquadFilter.ChunksCompose | src/internal/dsp/biquad_filter.cpp:40-63 | filtering in two frame chunks gives the output and state of filtering whole |
| BiquadFilter.ChannelsAreSeparate | src/internal/dsp/biquad_filter.cpp:53-61 | each channel is filtered as a one-channel section filters it |
| BiquadFilter.DifferenceEquation | src/internal/dsp/biquad_filter.cpp:54-60 | for any section and any contents of its delay lines every channel obeys y[n] = b0 x[n] + b1 x[n-1] + b2 x[n-2] - a1 y[n-1] - a2 y[n-2], with z1 added to its first sample and z2 to its second |
| BiquadFilter.FlatSectionIsIdentity | src/internal/dsp/biquad_filter.cpp:54-60 | from silence, equal numerator and denominator pass every sample through |
| PeakingFilter.PeakingHasShape | src/internal/dsp/biquad_filter.cpp:78-116 | every designed section is (1 + g) - 2c z + (1 - g) z^2 over the same with another width, with c the centre's cosine, strictly between -1 and 1, and widths in the ratio A^2 |
| PeakingFilter.QualitySetsTheWidth | src/internal/dsp/biquad_filter.cpp:86-116 | for every rate, frequency, Q and gain, with A = 10^(gain/40): (1 - a2) 2QA = (1 + a2) sin w, (b0 - b2) 2Q = (1 + a2) A sin w and a1 = b1 = -(1 + a2) cos w |
| PeakingFilter.PeakingIsStable | src/internal/dsp/biquad_filter.cpp:66-117 | a2 lies strictly between -1 and 1, and a1 strictly between -(1 + a2) and 1 + a2, for every rate, frequency, Q and gain |
| PeakingFilter.PolesAreInside | src/internal/dsp/biquad_filter.cpp:110-116 | then every real or complex pole lies strictly inside the unit circle |
| PeakingFilter.PeakingMagnitude | src/internal/dsp/equalizer_response_sampler.cpp:23-33 | at every unit-circle point the squared magnitude lies between 1 and A^4, and the denominator does not vanish |
| PeakingFilter.PeakingMagnitudeAtCentre | src/internal/dsp/biquad_filter.cpp:86-102 | at the clamped centre it is exactly A^4 |
| PeakingFilter.NarrowerIsNearer | src/internal/dsp/biquad_filter.cpp:93-102 | of two sections that differ in Q alone the one of greater Q has its squared magnitude strictly nearer to 1 at every unit-circle point but the centre and the ends of the spectrum |
| PeakingFilter.ZeroGainIsFlat | src/internal/dsp/biquad_filter.cpp:97-116 | at 0 dB numerator and denominator of every section agree |
| PeakingFilter.ZeroGainIsIdentity | src/internal/dsp/biquad_filter.cpp:97-116 | a 0 dB band started from silence is the identity on every interleaved run |
| PeakingFilter.NoBandIsIdentity | src/internal/dsp/biquad_filter.cpp:66-84 | for a rate, frequency or Q that allows no band the section, started from silence, is the identity |
| EqualizerResponse.ResponseIsPower | src/internal/dsp/equalizer_response_sampler.cpp:14-42 | 10^(response/10) is the squared magnitude of numerator over denominator at the unit-circle point of the frequency |
| EqualizerResponse.ResponseStaysWithinGain | src/internal/dsp/equalizer_response_sampler.cpp:14-42 | a section's response in decibels stays between 0 and its gain at every frequency |
| EqualizerResponse.ResponseAtCentreIsGain | src/internal/dsp/equalizer_response_sampler.cpp:14-42 | at its centre the response is exactly the gain |
| EqualizerResponse.NarrowerBandReachesLess | src/internal/dsp/equalizer_response_sampler.cpp:14-42 | of two bands that differ in Q alone the narrower one reaches strictly less in decibels at every frequency but the centre and the ends of the spectrum |
| EqualizerResponse.SampleEqualizerBandResponseDb | src/internal/dsp/equalizer_response_sampler.cpp:44-64 | the loop sums the bands' responses |
| EqualizerResponse.ResponseStaysWithinGains | src/internal/dsp/equalizer_response_sampler.cpp:53-63 | a layout's response lies between the sum of its cuts and the sum of its boosts |
| EqualizerResponse.LargestGridResponse | src/internal/dsp/output_headroom_controller.cpp:23-36 | the loop finds the largest response over the 96 sampled frequencies, or 0 |
| EqualizerResponse.GridCoversHearing | src/internal/dsp/output_headroom_controller.cpp:23-31 | every frequency from 20 Hz to 20 kHz within 0.45 of the rate lies at or above one of the 96 sampled ones, by at most the factor 10^(3/95) |
| EqualizerResponse.GridStaysAudible | src/internal/dsp/output_headroom_controller.cpp:28-31 | no sampled frequency exceeds 20 kHz or 0.45 of the rate, and none is below 20 Hz unless it is that 0.45 |
| EqualizerResponse.ComputeTargetPreampDb | src/internal/dsp/output_headroom_controller.cpp:14-40 | no boost survives the preamp at any sampled frequency, it is 1 dB more than the largest one, and it leaves layouts without boost alone |
| EqualizerChain.CutsAtBlocksAreIrrelevant | src/internal/dsp/equalizer_chain.cpp:155-199 | two calls cut at any multiple of 64 frames give the samples and the chain of one call |
| EqualizerChain.ControlBlocksHave64 | src/internal/dsp/equalizer_chain.cpp:166-169 | every control block of a call has 64 frames but the last, which has what is left |
| EqualizerChain.OutputIsClamped | src/internal/dsp/equalizer_chain.cpp:190-197 | every output sample lies within 0.995 |
| EqualizerChain.BypassIsVolume | src/internal/dsp/equalizer_chain.cpp:183-197 | with the wet mix settled at 0 every sample is its input times the volume its block has reached, clamped, whatever the filters hold |
| EqualizerChain.SettledBypass | src/internal/dsp/equalizer_chain.cpp:183-197 | once the volume has settled too, the output is clamp(volume * input) |
| EqualizerChain.FlatIsTransparent | src/internal/dsp/equalizer_chain.cpp:155-199 | over any blocks, with every band at 0 dB and its delay lines silent, no preamp and no output gain, every sample is its input times the volume its block has reached, clamped, at any wet mix, settled or moving |
| EqualizerChain.RunMoves | src/internal/dsp/equalizer_chain.cpp:247-261 | whatever the samples, every smoothed parameter moves along its ramp by the frames processed, and the sections follow it |
| EqualizerSettled.CallsAreBlocks | src/internal/dsp/equalizer_chain.cpp:166-169 | any number of calls, each with its own buffer, is one run over the control blocks of all of them |
| EqualizerSettled.ChainSettles | src/internal/dsp/equalizer_chain.cpp:169-188 | once the frames of any calls add up to the longest ramp, every ramp rests at its target and every section is the one its band calls for |
| EqualizerSettled.PassedComposes | src/internal/dsp/equalizer_chain.cpp:178-181 | sections in a row do not see where a stream is cut between frames |
| EqualizerSettled.CallsAtRest | src/internal/dsp/equalizer_chain.cpp:155-199 | a chain at rest is a fixed filter: over any calls the output is its sections in a row over the whole stream, mixed at constant levels, and only delay lines change |
| EqualizerSettled.SamplesAtRest | src/internal/dsp/equalizer_chain.cpp:183-197 | every sample of a chain at rest, written out: the dry and the wet part with the wet one at preamp and output gain, in the shares of the mix, times the volume, held between -0.995 and 0.995 |
| EqualizerSettled.SamplesUnderway | src/internal/dsp/equalizer_chain.cpp:169-197 | the same for every sample of a control block while ramps are under way, at the levels they have reached at the block's end |
| EqualizerSettled.FullyWet | src/internal/dsp/equalizer_chain.cpp:188-197 | switched on and at rest every sample is the cascade's sample times preamp, output gain and volume, held between -0.995 and 0.995 |
| EqualizerProcessor.BandsRoundTrip | src/internal/dsp/equalizer_chain.cpp:112-139 | a valid layout is read back exactly as it was set |
| EqualizerProcessor.BandsAreTaken | src/internal/dsp/equalizer_chain.cpp:112-124 | of any bands the first ten are taken, each with its frequency and gain and with its Q held within the limits |
| EqualizerProcessor.JoiningBandRisesFromFlat | src/internal/dsp/equalizer_chain.cpp:131-137 | a band that an edit has dropped joins again without a jump: it rises from 0 dB at the frequency it was last told |
| EqualizerProcessor.FirstBandsRiseFromDefault | src/internal/dsp/equalizer_chain.cpp:45-79 | the first bands of a new chain rise from 0 dB, each at the default frequency of its place |
| EqualizerProcessor.EditsTakeEffect | src/internal/dsp/equalizer_chain.cpp:99-152 | once any calls have played 24 ms after an edit, every section is the one its band calls for, mix, gains and volume are as asked, and the chain is at rest |
| EqualizerProcessor.EditIsPlayed | src/internal/dsp/equalizer_chain.cpp:155-199 | the samples of whatever calls follow go, as one stream, through the sections of the edit's bands, and each comes out as the written-out mix at the edit's switch, headroom, output gain and volume |
| EqualizerProcessor.LinearIsAmplitude | src/internal/dsp/equalizer_chain.cpp:16-18 | the factor used for a gain is positive, and 20 log10 of it is the gain |
| EqualizerProcessor.EditIsHeard | src/internal/dsp/equalizer_chain.cpp:112-141 | then each band's section stays between 0 dB and the band's gain and reaches the gain at the band's centre |
| SteadyTones.ToneIsAnswered | src/internal/dsp/equalizer_chain.cpp:155-199 | a section in step with a tone of any frequency answers it with the tone its transfer function calls for, sample by sample |
| SteadyTones.TonesHaveAnswers | src/internal/dsp/equalizer_response_sampler.cpp:14-42 | every designed section has an answer to every tone, so a cascade can be in step with any |
| SteadyTones.CascadeLevel | src/internal/dsp/equalizer_response_sampler.cpp:14-64 | sections in a row answer a tone at the level that the sampled response curve says |
| SteadyTones.TonePlayed | src/internal/dsp/equalizer_chain.cpp:155-199 | over any calls, on any channel, a chain switched on and at rest, whose sections are in step, plays a tone as the tone of its cascade at preamp, output gain and volume, clamped |
| SteadyTones.TonesAreNotClipped | src/internal/dsp/equalizer_chain.cpp:155-199 | if its preamp acts and there is no output gain, a tone of at most full scale at a sampled frequency is never clipped |
| EqualizerProcessor.Processor.constructor | src/internal/dsp/equalizer_chain.h:57-98 | a new chain is unprepared, switched off and satisfies the chain's invariant |
| EqualizerProcessor.Processor.Configure | src/internal/dsp/equalizer_chain.cpp:45-85 | reaches exactly the configured state and keeps the chain's invariant |
| EqualizerProcessor.ConfiguredPlaysAtOnce | src/internal/dsp/equalizer_chain.cpp:45-85 | a configured chain is at rest from its first call on, with its bands, switch, headroom and output gain as before and at volume 1 |
| EqualizerProcessor.Processor.Prepare | src/internal/dsp/equalizer_chain.cpp:87-89 | room for the largest call is kept and never shrinks |
| EqualizerProcessor.Processor.Reset | src/internal/dsp/equalizer_chain.cpp:92-96 | clears every delay line and nothing else |
| EqualizerProcessor.Processor.SetBandsPrecomputed | src/internal/dsp/equalizer_chain.cpp:112-141 | tunes the bands in use, retires the others and sends the preamp to its target |
| EqualizerProcessor.Processor.TargetBands | src/internal/dsp/equalizer_chain.cpp:202-214 | returns the bands the chain was last told to play |
| EqualizerProcessor.Processor.Process | src/internal/dsp/equalizer_chain.cpp:155-199 | in place, the buffer and the whole chain become those of the block-wise specification; an empty or unprepared call changes nothing |
| DecoderValidation.CheckedSampleCountIsExact | src/internal/win/media_foundation_decoder_validation.h:67-76 | the division guard is an exact overflow test and the count the exact product |
| DecoderValidation.MillisecondsTo100ns | src/internal/win/media_foundation_decoder_validation.h:78-86 | succeeds exactly for non-negative positions whose ticks fit 64 bits |
| DecoderValidation.MillisecondsRoundTrip | src/internal/win/media_foundation_decoder.cpp:60-62 | converting back gives the position |
| DecoderValidation.LagGrows | src/internal/win/media_foundation_decoder_validation.h:88-105 | one advance adds less than one tick of lag |
| DecoderValidation.BlocksTrailExactTime | src/internal/win/media_foundation_decoder_validation.h:88-105 | k blocks of any sizes put the timestamp at most at, and less than k ticks behind, the exact time of their frames |
| DecoderValidation.WholeIsMultiple | src/internal/win/media_foundation_decoder.cpp:668-676 | frame alignment as the cache keeps it is divisibility by the channel count |
| MediaFoundationDecoder.Decoder.RequestCancel | src/internal/win/media_foundation_decoder_validation.h:14-16 | advances the epoch by one and returns it |
| MediaFoundationDecoder.Decoder.Close | src/internal/win/media_foundation_decoder.cpp:485-504 | closes and empties everything but the epoch |
| MediaFoundationDecoder.Decoder.Open | src/internal/win/media_foundation_decoder.cpp:207-327 | succeeds exactly when it is not cancelled and every outcome it meets is good, and fails with the first thing that is not; a failed open leaves the decoder closed, a successful one starts an empty cache at time 0 under an unchanged epoch with the source's duration |
| MediaFoundationDecoder.Decoder.SeekTo | src/internal/win/media_foundation_decoder.cpp:330-395 | succeeds exactly when it is not cancelled before or after the reader moves and the reader takes the position; then it drops the cache; a failed one keeps cache and timestamp, which are torn from the reader exactly if that has moved, and has the cause that its first obstacle calls for; it reports cancellation only after an epoch change or from a source that is not accepting, and always when called under a past epoch |
| MediaFoundationDecoder.Decoder.Anchor | src/internal/win/media_foundation_decoder.cpp:625-627 | a packet sets the timestamp exactly when the cache is empty |
| MediaFoundationDecoder.Decoder.Append | src/internal/win/media_foundation_decoder.cpp:629-708 | a packet is appended as a whole exactly when it is readable, frame-aligned and fits; otherwise the cache is unchanged |
| MediaFoundationDecoder.Decoder.TakeReading | src/internal/win/media_foundation_decoder.cpp:574-710 | one turn of the reading loop takes a reading exactly when nobody has cancelled, the call has not failed and its packet is sound, whole and fits; it accounts for everything it keeps, and a failure is the one that the reading calls for |
| MediaFoundationDecoder.Decoder.EnsureDecodedFrames | src/internal/win/media_foundation_decoder.cpp:534-713 | appends exactly the packets read, ends with enough samples or at the end of the source, reads nothing when there is enough or the source has ended, and needs every reading it takes |
| MediaFoundationDecoder.Decoder.HandOut | src/internal/win/media_foundation_decoder.cpp:449-474 | hands out cached samples in order and pads with silence only after the end of the source |
| MediaFoundationDecoder.Decoder.ReadFrames | src/internal/win/media_foundation_decoder.cpp:399-482 | a block has exactly the requested size, is cached samples then silence, is flagged last exactly when the source ended and nothing remains, and carries the whole milliseconds of the source's duration and of its own timestamp; a failed call hands out nothing and keeps what it had read, no call reads on when it has enough, and every failure is the one that its cause calls for: once the epoch has moved, a cancellation and nothing else |
| MediaFoundationDecoder.Decoder.PositionTrailsExactTime | src/internal/win/media_foundation_decoder.cpp:436-478 | between anchors a block's position trails the exact time of the frames handed out by less than a tick a block |
| MediaFoundationDecoder.Decoder.BlocksAreTheSource | src/internal/win/media_foundation_decoder.cpp:399-482 | in every state of a decoder, whatever calls failed, the blocks handed out since the last open or seek, followed by the cache, are the packets kept in order, then silence only after the source's end; and these are all the packets the reader gave unless a packet was refused or a cancelled seek had moved the reader |
| StreamStateMachine.Machine.Transition | src/internal/state_machine.cpp:80-88 | moves exactly on a legal transition and otherwise keeps the state |
| StreamStateMachine.ClosedIsFinal | src/internal/state_machine.cpp:47-77 | closed is the one state no transition leaves, and every state can be closed |
| StreamLifecycle.RunKeepsInv | src/internal/win/wasapi_stream_handle.cpp:297-407 | the lifecycle invariant holds in every state of every run of any callers and workers |
| StreamLifecycle.ResetPrepares | src/internal/win/wasapi_stream_handle.cpp:343-374 | a reset ends with machine and status prepared, whatever stop or fault it found; only a closed stream or one that runs again by then is left as it is |
| StreamLifecycle.AFaultedStreamStartsAgain | src/internal/win/wasapi_stream_handle.cpp:364-369 | a run in which a stream faults, loses its worker, is reset and launches a new one |
| StreamLifecycle.StartLaunches | src/internal/win/wasapi_stream_handle.cpp:742-775 | a start is refused and changes nothing exactly on a closed or faulted stream, on one that has a worker or counts as running, and for a bad request; otherwise the stream runs under a new worker nobody has asked to stop, or, without an event or a thread for it, is faulted |
| StreamLifecycle.StartReports | src/internal/win/wasapi_stream_handle.cpp:777-787 | a start that wakes to a successful startup returns and reports the stream as running; one that wakes to a failed startup waits on until the worker has finished |
| StreamLifecycle.StartupIsPublished | src/internal/win/wasapi_stream_handle.cpp:533-541 | a worker's startup is reported as cancelled exactly if it was told to stop before, and otherwise the stream is reported as running |
| StreamLifecycle.StopAsks | src/internal/win/wasapi_stream_handle.cpp:297-334 | a stop with nothing to stop changes nothing; any other asks the worker to stop, takes a running stream to stopped and waits |
| StreamLifecycle.ResetAsks | src/internal/win/wasapi_stream_handle.cpp:343-357 | so does the stop inside a reset, which otherwise goes on at once |
| StreamLifecycle.StopLeavesStopped | src/internal/win/wasapi_stream_handle.cpp:336-340 | when the wait of a stop is over there is no worker, and the stream is reported as stopped unless it has been closed or is faulted |
| StreamLifecycle.RequestStands | src/internal/win/wasapi_stream_handle.cpp:430 | a request to stop stands until the next launch |
| StreamLifecycle.FailureFaults | src/internal/win/wasapi_stream_handle.cpp:500-531 | a failing worker is on its way out and takes every open stream to faulted, except for a failed startup that a stop has overtaken |
| StreamLifecycle.ExitLeavesStopped | src/internal/win/wasapi_stream_handle.cpp:483-497 | when a worker has finished, the stream is reported as stopped unless it has been closed or is faulted |
| StreamLifecycle.CloseCloses | src/internal/win/wasapi_stream_handle.cpp:380-405 | the close of an open stream closes machine and status at once and asks the worker to stop |
| StreamLifecycle.CallbacksOnlyAsk | src/internal/win/wasapi_stream_handle.cpp:326-334 | a stop or a close from the callback itself only asks, and does not wait |
| StreamLifecycle.RunningIsServed | src/internal/win/wasapi_stream_handle.cpp:384-398 | a stream that counts as running has a worker that nobody has asked to stop, unless the worker has closed the stream from its own callback |
| StreamLifecycle.SelfCloseStrandsTheStream | src/internal/win/wasapi_stream_handle.cpp:384-398 | a worker that exits leaves the stream counted as running exactly if its own callback had asked for a close and no stop, close or fault came after |
| StreamLifecycle.AStreamMayRunWithoutAWorker | src/internal/win/wasapi_stream_handle.cpp:384-398 | a run in which that happens |
| StreamLifecycle.AtMostOneWorker | src/internal/win/wasapi_stream_handle.cpp:423-463 | at most one worker thread is alive, and then the stream counts it as active |
| StreamLifecycle.ClosedAgrees | src/internal/win/wasapi_stream_handle.cpp:400-403 | the stream is closed exactly when its state machine is |
| StreamLifecycle.ExitFollowsStartup | src/internal/win/wasapi_stream_handle.cpp:483-497 | an exiting worker has published its startup result, so the repair at its end never acts |
| StreamLifecycle.ClosedIsForever | src/internal/win/wasapi_stream_handle.cpp:745-753 | once closed, a stream stays closed and launches no worker |
| StreamLifecycle.NothingRunsAfterClose | src/internal/win/wasapi_stream_handle.cpp:380-407 | from the return of the close that closed the stream no worker is alive, none is launched and no callback runs |
| StreamLifecycle.ClosingCallWaits | src/internal/win/wasapi_stream_handle.cpp:382-405 | from the close that closed the stream until it returns that call is the one close that waits, and afterwards none does |
| StreamLifecycle.LaterCloseReturnsAtOnce | src/internal/win/wasapi_stream_handle.cpp:382-384 | a close returns at once exactly when the stream is already closed, leaves a live worker behind exactly when there is one, and then the closing call still waits |
| StreamLifecycle.WaitersReturnWhenIdle | src/internal/win/wasapi_stream_handle.cpp:336-340 | every call that waited returns only while no worker is alive |
| StreamLifecycle.ClosingWorkerIsAsked | src/internal/win/wasapi_stream_handle.cpp:389-392 | while a closed stream still has a worker, that worker has been asked to stop |
| StreamLifecycle.StartIsServed | src/internal/win/wasapi_stream_handle.cpp:777-784 | a waiting start waits for a result that is neither there nor owed by a live worker exactly while the latest launch is one whose thread could not be created |
| StreamLifecycle.LatestLaunchDecides | src/internal/win/wasapi_stream_handle.cpp:436-460 | only launches decide that, so a later launch that succeeds serves the start again |
| StreamLifecycle.ClosedStatusIsOverwritten | src/internal/win/wasapi_stream_handle.cpp:786-787 | a closed stream's status stops being closed exactly when an overtaken start wakes to a successful startup |
| StreamLifecycle.ClosedStreamMayReportRunning | src/internal/win/wasapi_stream_handle.cpp:786-787 | a run in which that happens |
| StreamLifecycle.LaterCloseDoesNotWait | src/internal/win/wasapi_stream_handle.cpp:382-384 | a run in which a second close returns while the worker is alive |
| StreamLifecycle.FailedThreadMayStrandAStart | src/internal/win/wasapi_stream_handle.cpp:436-460 | a run in which a failed thread creation leaves an earlier start waiting for nothing |

## Left out

- Float32 rounding, NaN and infinities: all samples, frequencies and gains are reals, so the `isfinite` guards are not modelled.
- Memory-order weakness: atomics are sequentially consistent steps, and the mirror atomics of generation and seek sequence change together with their fields.
- Wrap-around of generation, seek, epoch and version counters.
- Liveness: condition-variable fairness, shutdown timeouts and thread joins; only safety and loop termination are proved.
- COM, WASAPI, Media Foundation, MMCSS and device enumeration: their calls appear as arbitrary outcomes; allocation failure is modelled only for the decoder's packets and blocks.
- Output-sample format conversion, WAVE format negotiation and validation, and the text conversion of URIs.
- The recovery thread and output-device names and ids: a stream error and a failed recovery are events, the reopening itself is not.
- Transients of tones: the theorems of `SteadyTones` speak of sections already in step with a tone; that other delay lines decay towards that is not proved.
- Delivery of the end-of-stream commit: the second `try_lock` of a callback may fail and drop it (`src/playback_session.cpp:1051`), so no theorem promises it.
- TimeScaling.ScaleRemainder: asks for a multiplier below 2^64-1, because for that one the search never ends (`TimeScaling.NarrowStallsOnlyOnFullRange`); its only caller passes 10,000,000.
- EqualizerProcessor.Processor.Process: keeps the state of its ten sections and its ramps as values and sends a block through `BiquadFilter.Response` and `ParameterSmoother.Advanced`, the functions the in-place objects `BiquadFilter.Biquad` and `ParameterSmoother.Smoother` are proved against; aliasing between those objects is not modelled.
- EqualizerSession.Session.Reset: states the outcome of a reset that nothing interrupts, although the code releases the lock between its halves (`src/playback_session.cpp:695-700`); each half by itself keeps the invariant.
- MediaFoundationDecoder.Decoder.ReadFrames: a reader that has no readings left counts as failing; what the reader gives after a cancelled seek moved it is any reading, its own position is not modelled.
- The public forwarding methods, stream wrappers, runtime, stub backend, string tables, version, build and packaging files.
