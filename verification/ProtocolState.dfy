/**
 The playback session as a transition system with three kinds of actors: callers of the
 public interface (and the stream's error and recovery paths), the decode worker, and one
 render callback at a time.

 One event is one critical section of the session mutex, one access to the atomic
 `decoded_pipeline_` or `render_hazard_` pointer, one decoder call, or one use of a
 pipeline that its current owner alone may touch.  The render callback keeps the mutex
 across its hazard-pointer loop, so `HoldsLock` gates every critical section of the others.
 */
module ProtocolState {
  import opened Wrappers

  /** Every field that `formats_match` compares. */
  datatype Format = Format(
    sample: nat, sampleRate: nat, channels: nat, bits: nat, validBits: nat, mask: nat, interleaved: bool)

  const NO_FORMAT := Format(0, 0, 0, 0, 0, 0, true)
  const QUEUE_SLOTS: nat := 4
  const PIPELINE_SLOTS: nat := 3

  datatype Status = StatusIdle | StatusLoading | StatusPlaying | StatusPaused | StatusError

  /** What a callback snapshots under the lock to steer the equalizer chain. */
  datatype Controls = Controls(bands: seq<(real, real, real)>, enabled: bool, outputGain: real, volume: int)

  const NO_CONTROLS := Controls([], false, 0.0, 100)

  datatype Tag = Tag(generation: nat, seek: nat)

  /** Where the decoder stands in its source: at the seek issued for sequence `seek` (0 for a
      freshly opened source) or somewhere unknown after a failed seek. */
  datatype Standing = At(seek: nat, target: int) | Lost

  /** A decoded block: its queue metadata, its size, and where the decoder stood when it was read. */
  datatype Block = Block(
    tag: Tag, position: int, duration: int, endOfStream: bool,
    sampleCount: nat, source: string, standing: Standing)

  datatype Decoder = Closed | Open(source: string, format: Format, standing: Standing)

  /** Why a decoder call failed: its epoch moved on, or the source itself is bad. */
  datatype Failure = Cancelled | Broken

  /** Everything the session mutex protects.  `sourceError` is the cause last handed to
      `handle_source_error_locked`, and `computed` the headroom last computed from the bands. */
  datatype Session = Session(
    closed: bool, shuttingDown: bool,
    requestedUri: string, generation: nat, seek: nat, epoch: nat, pendingSeek: Option<int>,
    format: Option<Format>, frameCount: nat,
    intent: bool, decoderReady: bool, reachedEnd: bool,
    sourceUri: string, status: Status, position: int, duration: int, completions: nat,
    version: nat, controls: Controls, headroom: real,
    sourceError: Option<Failure>, computed: real)

  /** What each generation, seek sequence and control version stood for when it was issued. */
  datatype History = History(uris: seq<string>, seekTargets: seq<int>, controls: seq<Controls>)

  /** One pipeline payload, told apart from every other by its `build` number.  `applied`,
      `target` and `headroom` are what its equalizer chain was last given; `read`,
      `pushed` and `popped` record its whole traffic. */
  datatype Payload = Payload(
    build: nat, format: Format, frameCount: nat, queue: seq<Block>,
    applied: Option<nat>, target: Controls, headroom: real,
    read: seq<Block>, pushed: seq<Block>, popped: seq<Block>)

  datatype Pipelines = Pipelines(
    slots: seq<Option<Payload>>, builds: nat, published: Option<nat>, hazard: Option<nat>)

  /** What the worker last opened and sought, or last failed at. */
  datatype Active = Active(generation: nat, seek: nat, format: Format, frameCount: nat)

  datatype Request = Request(
    uri: string, format: Format, frameCount: nat, generation: nat, seek: nat, epoch: nat, target: Option<int>)

  datatype Stage = ForOpen | ForSeek

  datatype WorkerPc =
    | Waiting | Checking | ClosingDecoder
    | Opening | OpenFailed(cause: Failure) | Opened
    | LoadingPublished(stage: Stage) | LoadingHazard(stage: Stage, seen: Option<nat>)
    | Rebuilding(stage: Stage, slot: nat) | Publishing(stage: Stage, slot: nat)
    | Announcing
    | Seeking | SeekFailed(cause: Failure) | Sought | ClearingPending
    | Reading | ReadFailed(cause: Failure) | Pushing(block: Block)
    | Throwing | NoFreeSlot | NullPipeline
    | Exiting | Finished

  /** The locals of the decode loop. */
  datatype Job = Job(
    active: Active, endOfStream: bool, failed: Option<Active>, request: Request, pipeline: Option<nat>)

  datatype Worker = Worker(pc: WorkerPc, job: Job)

  /** The callback's locals, copied from the session under the lock. */
  datatype Snapshot = Snapshot(format: Format, frameCount: nat, shouldPlay: bool, version: nat, controls: Controls,
                               headroom: real)

  datatype Render =
    | Idle
    | Loading(snap: Snapshot)
    | Storing(snap: Snapshot, loaded: Option<nat>)
    | Validating(snap: Snapshot, loaded: Option<nat>)
    | Clearing(snap: Snapshot)
    | Validated(snap: Snapshot, held: Option<nat>)
    | Using(snap: Snapshot, held: Option<nat>)
    | Popped(snap: Snapshot, held: Option<nat>, block: Block)
    | GenerationSeen(snap: Snapshot, held: Option<nat>, block: Block)
    | TagSeen(snap: Snapshot, held: Option<nat>, block: Block)
    | Processed(snap: Snapshot, held: Option<nat>, block: Block)
    | Releasing(held: Option<nat>)
    | NullAccess
  {
    predicate HoldsLock() {
      Loading? || Storing? || Validating? || Clearing? || Validated?
    }

    /** The pipeline between its validated acquire and its release. */
    function Held(): Option<nat> {
      if Validated? || Using? || Popped? || GenerationSeen? || TagSeen? || Processed? || Releasing?
      then held else None
    }

    predicate HasBlock() {
      Popped? || GenerationSeen? || TagSeen? || Processed?
    }
  }

  datatype Closer = NotClosing | Draining | Spinning | CloseReturned

  datatype State = State(
    autoPlay: bool, session: Session, history: History, pipelines: Pipelines,
    decoder: Decoder, decoderEpoch: nat, worker: Worker, render: Render, closer: Closer)
  {
    predicate LockFree() { !render.HoldsLock() }
  }

  datatype OpenOutcome = OpenOk | OpenBad(cause: Failure)
  datatype ReadOutcome = ReadOk(position: int, duration: int, endOfStream: bool,
                                sampleCount: nat) | ReadBad(cause: Failure)

  /** What callers of the session, its stream and its recovery do. */
  datatype CallerEvent =
    | Load(uri: string) | Play | Pause | SeekTo(position: int) | SelectDevice
    | EditControls(controls: Controls, headroom: Option<real>) | StreamError(recovers: bool) | RecoveryFailed
    | CloseBegin | CloseDetach | CloseReturn

  /** The steps of a render callback. */
  datatype RenderEvent =
    | RenderBegin(format: Format, frameCount: nat) | RenderLoad | RenderStoreHazard | RenderReload
    | RenderClear | RenderUnlock | RenderPop | RenderCheckGeneration | RenderCheckSeek
    | RenderProcess | RenderCommit(locked: bool) | RenderRelease

  /** The steps of the decode worker. */
  datatype WorkerEvent =
    | WorkerWake | WorkerCheck | WorkerCloseDecoder | WorkerOpen(outcome: OpenOutcome)
    | WorkerOpenFailed | WorkerConfirmOpen | WorkerLoadPublished | WorkerLoadHazard
    | WorkerRebuild | WorkerPublish(headroom: real) | WorkerAnnounce(duration: int)
    | WorkerSeek(sought: OpenOutcome) | WorkerSeekFailed | WorkerConfirmSeek | WorkerClearPending
    | WorkerRead(read: ReadOutcome) | WorkerReadFailed | WorkerPush
    | WorkerThrow | WorkerExit

  datatype Event = Call(call: CallerEvent) | Callback(step: RenderEvent) | Work(work: WorkerEvent)

  function Init(autoPlay: bool, controls: Controls): State {
    State(autoPlay,
          Session(false, false, "", 0, 0, 0, None, None, 0, false, false, false,
                  "", StatusIdle, 0, 0, 0, 0, controls, 0.0, None, 0.0),
          History([""], [0], [controls]),
          Pipelines([None, None, None], 0, None, None),
          Closed, 0,
          Worker(Waiting, Job(Active(0, 0, NO_FORMAT, 0), false, None,
                              Request("", NO_FORMAT, 0, 0, 0, 0, None), None)),
          Idle, NotClosing)
  }
}
