/** Guards and effects of every event of the playback session. */
module ProtocolSteps {
  import opened Wrappers
  import opened ProtocolState

  // ---------------------------------------------------------------- callers

  function MaxInt(a: int, b: int): int { if a < b then b else a }

  /** `load`: cancels the decoder, names a new source and drops the pending seek. */
  function ApplyLoad(s: State, uri: string): State {
    s.(decoderEpoch := s.decoderEpoch + 1,
       history := s.history.(uris := s.history.uris + [uri]),
       session := s.session.(
         requestedUri := uri, generation := s.session.generation + 1, epoch := s.decoderEpoch + 1,
         pendingSeek := None, sourceUri := uri,
         status := if s.autoPlay then StatusLoading else StatusPaused,
         position := 0, duration := 0, completions := 0,
         intent := s.autoPlay, decoderReady := false, reachedEnd := false))
  }

  /** The seek bookkeeping shared by `play` after the end, `seek_to` and `select_output_device`. */
  function RequestSeek(s: State, target: int): State {
    s.(history := s.history.(seekTargets := s.history.seekTargets + [target]),
       session := s.session.(pendingSeek := Some(target), seek := s.session.seek + 1, reachedEnd := false))
  }

  function ApplyPlay(s: State): State {
    if s.session.requestedUri == "" then s.(session := s.session.(status := StatusError))
    else
      var t := if s.session.reachedEnd then RequestSeek(s, 0) else s;
      t.(session := t.session.(
           intent := true, status := if t.session.decoderReady then StatusPlaying else StatusLoading))
  }

  function ApplyPause(s: State): State {
    s.(session := s.session.(
         intent := false, status := if s.session.requestedUri == "" then StatusIdle else StatusPaused))
  }

  function ApplySeekTo(s: State, position: int): State {
    var target := MaxInt(position, 0);
    var t := RequestSeek(s, target);
    t.(decoderEpoch := s.decoderEpoch + 1,
       session := t.session.(
         epoch := s.decoderEpoch + 1, position := target,
         status := if s.session.intent then StatusLoading else StatusPaused))
  }

  function ApplySelectDevice(s: State): State {
    var t := RequestSeek(s, s.session.position);
    t.(decoderEpoch := s.decoderEpoch + 1,
       session := t.session.(
         epoch := s.decoderEpoch + 1, decoderReady := false,
         status := if s.session.requestedUri == "" then s.session.status
                   else if s.session.intent then StatusLoading else StatusPaused))
  }

  /** Installs new controls under a new version; the effect of every equalizer and volume edit.
      Only a change of the volume or the output gain does without a new headroom. */
  function BumpControls(s: State, controls: Controls, headroom: Option<real>): State {
    s.(history := s.history.(controls := s.history.controls + [controls]),
       session := s.session.(
         version := s.session.version + 1, controls := controls,
         headroom := headroom.GetOr(s.session.headroom), computed := headroom.GetOr(s.session.computed)))
  }

  function ApplyStreamError(s: State, recovers: bool): State {
    s.(session := s.session.(
         status := if recovers then StatusLoading else StatusError,
         intent := recovers && s.session.intent, decoderReady := false, reachedEnd := false))
  }

  function ApplyRecoveryFailed(s: State): State {
    s.(session := s.session.(intent := false, status := StatusError))
  }

  function ApplyCloseBegin(s: State): State {
    s.(decoderEpoch := s.decoderEpoch + 1, closer := Draining,
       session := s.session.(closed := true, shuttingDown := true))
  }

  // -------------------------------------------------------- render callback

  function ApplyRenderBegin(s: State, format: Format, frameCount: nat): State {
    s.(session := s.session.(format := Some(format), frameCount := frameCount),
       render := Loading(Snapshot(format, frameCount, s.session.intent && s.session.requestedUri != "",
                                  s.session.version, s.session.controls, s.session.headroom)))
  }

  function ApplyRenderReload(s: State): State
    requires s.render.Validating?
  {
    s.(render := if s.pipelines.published == s.render.loaded
                 then Validated(s.render.snap, s.render.loaded) else Clearing(s.render.snap))
  }

  predicate HasPayload(p: Pipelines, slot: Option<nat>) {
    slot.Some? && slot.value < |p.slots| && p.slots[slot.value].Some?
  }

  function PayloadOf(p: Pipelines, slot: Option<nat>): Payload
    requires HasPayload(p, slot)
  {
    p.slots[slot.value].value
  }

  function SetPayload(s: State, slot: nat, payload: Payload): State
    requires slot < |s.pipelines.slots|
  {
    s.(pipelines := s.pipelines.(slots := s.pipelines.slots[slot := Some(payload)]))
  }

  /** The checks before `try_pop`, and the pop itself. */
  function ApplyRenderPop(s: State): State
    requires s.render.Using?
  {
    var held := s.render.held;
    var snap := s.render.snap;
    if !snap.shouldPlay || held.None? then s.(render := Releasing(held))
    else if !HasPayload(s.pipelines, held) then s.(render := NullAccess)
    else
      var p := PayloadOf(s.pipelines, held);
      if p.frameCount != snap.frameCount || p.format != snap.format || p.queue == []
      then s.(render := Releasing(held))
      else SetPayload(s, held.value, p.(queue := p.queue[1..], popped := p.popped + [p.queue[0]]))
           .(render := Popped(snap, held, p.queue[0]))
  }

  /** The chain settings after the callback's version gate. */
  function Gated(p: Payload, snap: Snapshot): Payload {
    if p.applied == Some(snap.version) then p
    else p.(applied := Some(snap.version), target := snap.controls, headroom := snap.headroom)
  }

  function ApplyRenderProcess(s: State): State
    requires s.render.TagSeen?
  {
    if !HasPayload(s.pipelines, s.render.held) then s.(render := NullAccess)
    else SetPayload(s, s.render.held.value, Gated(PayloadOf(s.pipelines, s.render.held), s.render.snap))
         .(render := Processed(s.render.snap, s.render.held, s.render.block))
  }

  /** Does the callback's second critical section accept its block? */
  predicate Commits(s: State) {
    && s.render.Processed?
    && !s.session.shuttingDown
    && s.render.block.tag == Tag(s.session.generation, s.session.seek)
  }

  /** The headroom of the callback's chain, which a commit stores. */
  function HeadroomHeld(s: State): real
    requires s.render.Processed?
  {
    if HasPayload(s.pipelines, s.render.held) then PayloadOf(s.pipelines, s.render.held).headroom
      else s.session.headroom
  }

  function ApplyRenderCommit(s: State, locked: bool): State
    requires s.render.Processed?
  {
    var b := s.render.block;
    var released := s.(render := Releasing(s.render.held));
    if !locked || !Commits(s) then released
    else if b.endOfStream then
      released.(session := s.session.(
                  position := b.duration, duration := b.duration, headroom := HeadroomHeld(s), status := StatusIdle,
                  intent := false, reachedEnd := true, completions := s.session.completions + 1))
    else
      released.(session := s.session.(
                  position := b.position, duration := b.duration, headroom := HeadroomHeld(s), status := StatusPlaying))
  }

  // ---------------------------------------------------------- decode worker

  function Goto(s: State, pc: WorkerPc): State { s.(worker := s.worker.(pc := pc)) }

  /** Back to the wait with `active_generation` zeroed, which forces the next pass to reopen. */
  function Abandon(s: State): State {
    s.(worker := Worker(Waiting, s.worker.job.(active := s.worker.job.active.(generation := 0))))
  }

  /** `decode_command_is_current_locked` for the worker's request. */
  predicate Current(s: State) {
    && !s.session.shuttingDown
    && s.worker.job.request.generation == s.session.generation
    && s.worker.job.request.seek == s.session.seek
    && s.worker.job.request.epoch == s.session.epoch
  }

  predicate Configured(s: State) {
    s.session.requestedUri != "" && s.session.format.Some? && s.session.frameCount > 0
  }

  /** Does the session ask for something other than `a`? */
  predicate Differs(s: State, a: Active)
    requires s.session.format.Some?
  {
    || s.session.generation != a.generation
    || s.session.seek != a.seek
    || s.session.format.value != a.format
    || s.session.frameCount != a.frameCount
  }

  /** The wait predicate of the worker's condition variable, shutdown aside. */
  predicate HasWork(s: State) {
    && Configured(s)
    && (s.worker.job.failed.None? || Differs(s, s.worker.job.failed.value))
    && (Differs(s, s.worker.job.active)
        || (!s.worker.job.endOfStream && HasPayload(s.pipelines, s.pipelines.published)
            && |PayloadOf(s.pipelines, s.pipelines.published).queue| < QUEUE_SLOTS))
  }

  /** Evaluating the wait predicate would dereference a slot that was never built. */
  predicate WaitFaults(s: State) {
    s.pipelines.published.Some? && !HasPayload(s.pipelines, s.pipelines.published)
  }

  predicate NeedsOpen(j: Job) {
    || j.request.generation != j.active.generation
    || j.request.format != j.active.format
    || j.request.frameCount != j.active.frameCount
  }

  function AfterOpen(j: Job): WorkerPc {
    if j.request.seek != j.active.seek then Seeking else Reading
  }

  /** The worker's locals once it has taken the session's request. */
  function Taken(s: State): Job
    requires s.session.format.Some?
  {
    s.worker.job.(
      request := Request(s.session.requestedUri, s.session.format.value, s.session.frameCount,
                         s.session.generation, s.session.seek, s.session.epoch, s.session.pendingSeek),
      pipeline := s.pipelines.published)
  }

  function ApplyWorkerWake(s: State): State {
    if s.session.shuttingDown then Goto(s, Exiting)
    else if WaitFaults(s) then Goto(s, NullPipeline)
    else if !HasWork(s) then s
    else s.(worker := Worker(if NeedsOpen(Taken(s)) then Checking else AfterOpen(Taken(s)), Taken(s)))
  }

  function ApplyWorkerOpen(s: State, outcome: OpenOutcome): State {
    match outcome
    case OpenOk => Goto(s, Opened).(decoder := Open(s.worker.job.request.uri, s.worker.job.request.format, At(0, 0)))
    case OpenBad(cause) => Goto(s, OpenFailed(cause)).(decoder := Closed)
  }

  /** `handle_source_error_locked`. */
  function SourceError(s: State, cause: Failure): State {
    s.(session := s.session.(intent := false, decoderReady := false, reachedEnd := false,
                             status := StatusError, sourceError := Some(cause)))
  }

  function Attempted(r: Request): Active {
    Active(r.generation, r.seek, r.format, r.frameCount)
  }

  function ApplyWorkerOpenFailed(s: State): State
    requires s.worker.pc.OpenFailed?
  {
    if !Current(s) then Abandon(s)
    else
      var j := s.worker.job;
      SourceError(s, s.worker.pc.cause).(
        worker := Worker(Waiting, j.(active := j.active.(generation := j.request.generation),
                                     endOfStream := true, failed := Some(Attempted(j.request)))))
  }

  function ApplyWorkerConfirmOpen(s: State): State {
    if !Current(s) then Abandon(s)
    else if s.worker.job.request.format.channels == 0 then Goto(s, Throwing)
    else Goto(s, LoadingPublished(ForOpen))
  }

  /** The first of the three slots that is neither `published` nor `hazard`. */
  function FreeSlot(published: Option<nat>, hazard: Option<nat>, from: nat): (slot: Option<nat>)
    decreases PIPELINE_SLOTS - from
  {
    if from >= PIPELINE_SLOTS then None
    else if Some(from) != published && Some(from) != hazard then Some(from)
    else FreeSlot(published, hazard, from + 1)
  }

  function ApplyWorkerLoadHazard(s: State): State
    requires s.worker.pc.LoadingHazard?
  {
    match FreeSlot(s.worker.pc.seen, s.pipelines.hazard, 0)
    case None => Goto(s, NoFreeSlot)
    case Some(slot) => Goto(s, Rebuilding(s.worker.pc.stage, slot))
  }

  function FreshPayload(r: Request, build: nat): Payload {
    Payload(build, r.format, r.frameCount, [], None, NO_CONTROLS, 0.0, [], [], [])
  }

  function ApplyWorkerRebuild(s: State): State
    requires s.worker.pc.Rebuilding?
    requires s.worker.pc.slot < |s.pipelines.slots|
  {
    var k := s.worker.pc.slot;
    Goto(s, Publishing(s.worker.pc.stage, k)).(
      pipelines := s.pipelines.(
        slots := s.pipelines.slots[k := Some(FreshPayload(s.worker.job.request, s.pipelines.builds))],
        builds := s.pipelines.builds + 1))
  }

  /** `publish_decoded_pipeline_if_current` and the worker's bookkeeping after it. */
  function ApplyWorkerPublish(s: State, headroom: real): State
    requires s.worker.pc.Publishing?
  {
    if !Current(s) then Abandon(s)
    else
      var j := s.worker.job.(pipeline := Some(s.worker.pc.slot), endOfStream := false, failed := None);
      BumpControls(s, s.session.controls, Some(headroom)).(
        pipelines := s.pipelines.(published := Some(s.worker.pc.slot)),
        worker := if s.worker.pc.stage == ForOpen
                  then Worker(Announcing, j.(active := Attempted(j.request).(seek := 0)))
                  else Worker(ClearingPending, j.(active := j.active.(seek := j.request.seek))))
  }

  function ApplyWorkerAnnounce(s: State, duration: int): State {
    var t := Goto(s, AfterOpen(s.worker.job));
    if Current(s) then t.(session := s.session.(decoderReady := true, duration := duration)) else t
  }

  function ApplyWorkerSeek(s: State, outcome: OpenOutcome): State {
    match outcome
    case OpenOk =>
      Goto(s, Sought).(decoder := match s.decoder
                       case Closed => Closed
                       case Open(u, f, _) => Open(u, f,
                                                  At(s.worker.job.request.seek, s.worker.job.request.target.GetOr(0))))
    case OpenBad(cause) =>
      Goto(s, SeekFailed(cause)).(decoder := match s.decoder
                                  case Closed => Closed
                                  case Open(u, f, _) => Open(u, f, Lost))
  }

  function ApplyWorkerSeekFailed(s: State): State
    requires s.worker.pc.SeekFailed?
  {
    if !Current(s) then Abandon(s)
    else
      SourceError(s, s.worker.pc.cause).(
        worker := Worker(Waiting, s.worker.job.(failed := Some(Attempted(s.worker.job.request)))))
  }

  function ApplyWorkerConfirmSeek(s: State): State {
    if Current(s) then Goto(s, LoadingPublished(ForSeek)) else Abandon(s)
  }

  function ApplyWorkerClearPending(s: State): State {
    var t := Goto(s, Reading);
    if Current(s) then t.(session := s.session.(pendingSeek := None)) else t
  }

  /** A successful read also enters the pipeline's `read` record. */
  function ApplyWorkerRead(s: State, outcome: ReadOutcome): State {
    match outcome
    case ReadBad(cause) => Goto(s, ReadFailed(cause))
    case ReadOk(position, duration, endOfStream, sampleCount) =>
      var r := s.worker.job.request;
      var b := Block(Tag(r.generation, r.seek), position, duration, endOfStream, sampleCount,
                     if s.decoder.Open? then s.decoder.source else "",
                     if s.decoder.Open? then s.decoder.standing else Lost);
      var t := if !HasPayload(s.pipelines, s.worker.job.pipeline) then s
               else var p := PayloadOf(s.pipelines, s.worker.job.pipeline);
                    SetPayload(s, s.worker.job.pipeline.value, p.(read := p.read + [b]));
      Goto(t, Pushing(b))
  }

  function ApplyWorkerReadFailed(s: State): State
    requires s.worker.pc.ReadFailed?
  {
    if s.session.shuttingDown then Goto(s, Exiting)
    else if !Current(s) then Abandon(s)
    else
      SourceError(s, s.worker.pc.cause).(
        worker := Worker(Waiting, s.worker.job.(endOfStream := true, failed := Some(Attempted(s.worker.job.request)))))
  }

  /** Would `try_push` take the block?  The queue must have room and its slots must be long enough. */
  predicate PushFits(p: Payload, b: Block) {
    |p.queue| < QUEUE_SLOTS && b.sampleCount <= p.frameCount * p.format.channels
  }

  function ApplyWorkerPush(s: State): State
    requires s.worker.pc.Pushing?
  {
    var b := s.worker.pc.block;
    if !Current(s) then Abandon(s)
    else if !HasPayload(s.pipelines, s.worker.job.pipeline) then Goto(s, NullPipeline)
    else
      var p := PayloadOf(s.pipelines, s.worker.job.pipeline);
      if !PushFits(p, b) then Goto(s, Waiting)
      else
        SetPayload(s, s.worker.job.pipeline.value, p.(queue := p.queue + [b], pushed := p.pushed + [b])).(
          worker := Worker(Waiting, s.worker.job.(endOfStream := b.endOfStream)))
  }

  function ApplyWorkerThrow(s: State): State {
    var t := Goto(s, Exiting);
    if s.session.shuttingDown then t
    else t.(session := s.session.(intent := false, decoderReady := false, status := StatusError))
  }

  // ---------------------------------------------------------------- events

  predicate OutcomePossible(s: State, outcome: OpenOutcome) {
    outcome == OpenBad(Cancelled) ==> s.decoderEpoch != s.worker.job.request.epoch
  }

  /** The decoder contract: it may fail or succeed after its epoch moved on, fails as cancelled
      only then, reads and seeks only while open, and returns exactly the frames asked for. */
  predicate ReadPossible(s: State, outcome: ReadOutcome) {
    match outcome
    case ReadOk(_, _, _, sampleCount) =>
      s.decoder.Open? && sampleCount == s.worker.job.request.frameCount * s.worker.job.request.format.channels
    case ReadBad(cause) => cause == Cancelled ==> s.decoderEpoch != s.worker.job.request.epoch
  }

  predicate CallerEnabled(s: State, e: CallerEvent) {
    match e
    case Load(uri) => s.LockFree() && !s.session.closed && uri != ""
    case Play => s.LockFree() && !s.session.closed
    case Pause => s.LockFree() && !s.session.closed
    case SeekTo(_) => s.LockFree() && !s.session.closed && s.session.requestedUri != ""
    case SelectDevice => s.LockFree() && !s.session.closed
    case EditControls(_, _) => s.LockFree()
    case StreamError(_) => s.LockFree() && !s.session.shuttingDown
    case RecoveryFailed => s.LockFree() && !s.session.shuttingDown
    case CloseBegin => s.LockFree() && !s.session.closed
    case CloseDetach => s.closer == Draining
    case CloseReturn => s.closer == Spinning && s.pipelines.hazard == None
  }

  predicate RenderEnabled(s: State, e: RenderEvent) {
    match e
    case RenderBegin(_, _) => s.render.Idle? && !s.session.shuttingDown
    case RenderLoad => s.render.Loading?
    case RenderStoreHazard => s.render.Storing?
    case RenderReload => s.render.Validating?
    case RenderClear => s.render.Clearing?
    case RenderUnlock => s.render.Validated?
    case RenderPop => s.render.Using?
    case RenderCheckGeneration => s.render.Popped?
    case RenderCheckSeek => s.render.GenerationSeen?
    case RenderProcess => s.render.TagSeen?
    case RenderCommit(_) => s.render.Processed?
    case RenderRelease => s.render.Releasing?
  }

  predicate WorkerEnabled(s: State, e: WorkerEvent) {
    match e
    case WorkerWake => s.worker.pc.Waiting? && s.LockFree()
    case WorkerCheck => s.worker.pc.Checking? && s.LockFree()
    case WorkerCloseDecoder => s.worker.pc.ClosingDecoder?
    case WorkerOpen(outcome) => s.worker.pc.Opening? && OutcomePossible(s, outcome)
    case WorkerOpenFailed => s.worker.pc.OpenFailed? && s.LockFree()
    case WorkerConfirmOpen => s.worker.pc.Opened? && s.LockFree()
    case WorkerLoadPublished => s.worker.pc.LoadingPublished?
    case WorkerLoadHazard => s.worker.pc.LoadingHazard?
    case WorkerRebuild => s.worker.pc.Rebuilding? && s.worker.pc.slot < |s.pipelines.slots|
    case WorkerPublish(_) => s.worker.pc.Publishing? && s.LockFree()
    case WorkerAnnounce(_) => s.worker.pc.Announcing? && s.LockFree()
    case WorkerSeek(outcome) =>
      s.worker.pc.Seeking? && OutcomePossible(s, outcome) && (outcome.OpenOk? ==> s.decoder.Open?)
    case WorkerSeekFailed => s.worker.pc.SeekFailed? && s.LockFree()
    case WorkerConfirmSeek => s.worker.pc.Sought? && s.LockFree()
    case WorkerClearPending => s.worker.pc.ClearingPending? && s.LockFree()
    case WorkerRead(outcome) => s.worker.pc.Reading? && ReadPossible(s, outcome)
    case WorkerReadFailed => s.worker.pc.ReadFailed? && s.LockFree()
    case WorkerPush => s.worker.pc.Pushing? && s.LockFree()
    case WorkerThrow => !s.worker.pc.Exiting? && !s.worker.pc.Finished? && s.LockFree()
    case WorkerExit => s.worker.pc.Exiting?
  }

  predicate Enabled(s: State, e: Event) {
    match e
    case Call(call) => CallerEnabled(s, call)
    case Callback(step) => RenderEnabled(s, step)
    case Work(work) => WorkerEnabled(s, work)
  }

  function ApplyCaller(s: State, e: CallerEvent): State
    requires CallerEnabled(s, e)
  {
    match e
    case Load(uri) => ApplyLoad(s, uri)
    case Play => ApplyPlay(s)
    case Pause => ApplyPause(s)
    case SeekTo(position) => ApplySeekTo(s, position)
    case SelectDevice => ApplySelectDevice(s)
    case EditControls(controls, headroom) => BumpControls(s, controls, headroom)
    case StreamError(recovers) => ApplyStreamError(s, recovers)
    case RecoveryFailed => ApplyRecoveryFailed(s)
    case CloseBegin => ApplyCloseBegin(s)
    case CloseDetach => s.(closer := Spinning, pipelines := s.pipelines.(published := None))
    case CloseReturn => s.(closer := CloseReturned)
  }

  function ApplyRender(s: State, e: RenderEvent): State
    requires RenderEnabled(s, e)
  {
    match e
    case RenderBegin(format, frameCount) => ApplyRenderBegin(s, format, frameCount)
    case RenderLoad => s.(render := Storing(s.render.snap, s.pipelines.published))
    case RenderStoreHazard =>
      s.(render := Validating(s.render.snap, s.render.loaded),
         pipelines := s.pipelines.(hazard := s.render.loaded))
    case RenderReload => ApplyRenderReload(s)
    case RenderClear =>
      s.(render := Loading(s.render.snap), pipelines := s.pipelines.(hazard := None))
    case RenderUnlock => s.(render := Using(s.render.snap, s.render.held))
    case RenderPop => ApplyRenderPop(s)
    case RenderCheckGeneration =>
      s.(render := if s.render.block.tag.generation == s.session.generation
                   then GenerationSeen(s.render.snap, s.render.held, s.render.block)
                   else Releasing(s.render.held))
    case RenderCheckSeek =>
      s.(render := if s.render.block.tag.seek == s.session.seek
                   then TagSeen(s.render.snap, s.render.held, s.render.block)
                   else Releasing(s.render.held))
    case RenderProcess => ApplyRenderProcess(s)
    case RenderCommit(locked) => ApplyRenderCommit(s, locked)
    case RenderRelease => s.(render := Idle, pipelines := s.pipelines.(hazard := None))
  }

  function ApplyWorker(s: State, e: WorkerEvent): State
    requires WorkerEnabled(s, e)
  {
    match e
    case WorkerWake => ApplyWorkerWake(s)
    case WorkerCheck => Goto(s, if Current(s) then ClosingDecoder else Waiting)
    case WorkerCloseDecoder => Goto(s, Opening).(decoder := Closed)
    case WorkerOpen(outcome) => ApplyWorkerOpen(s, outcome)
    case WorkerOpenFailed => ApplyWorkerOpenFailed(s)
    case WorkerConfirmOpen => ApplyWorkerConfirmOpen(s)
    case WorkerLoadPublished => Goto(s, LoadingHazard(s.worker.pc.stage, s.pipelines.published))
    case WorkerLoadHazard => ApplyWorkerLoadHazard(s)
    case WorkerRebuild => ApplyWorkerRebuild(s)
    case WorkerPublish(headroom) => ApplyWorkerPublish(s, headroom)
    case WorkerAnnounce(duration) => ApplyWorkerAnnounce(s, duration)
    case WorkerSeek(outcome) => ApplyWorkerSeek(s, outcome)
    case WorkerSeekFailed => ApplyWorkerSeekFailed(s)
    case WorkerConfirmSeek => ApplyWorkerConfirmSeek(s)
    case WorkerClearPending => ApplyWorkerClearPending(s)
    case WorkerRead(outcome) => ApplyWorkerRead(s, outcome)
    case WorkerReadFailed => ApplyWorkerReadFailed(s)
    case WorkerPush => ApplyWorkerPush(s)
    case WorkerThrow => ApplyWorkerThrow(s)
    case WorkerExit => Goto(s, Finished).(decoder := Closed)
  }

  function Apply(s: State, e: Event): State
    requires Enabled(s, e)
  {
    match e
    case Call(call) => ApplyCaller(s, call)
    case Callback(step) => ApplyRender(s, step)
    case Work(work) => ApplyWorker(s, work)
  }

  /** Event `i` can happen where it stands and leads to the next state. */
  predicate StepsAt(states: seq<State>, events: seq<Event>, i: nat)
    requires |states| == |events| + 1 && i < |events|
  {
    Enabled(states[i], events[i]) && states[i + 1] == Apply(states[i], events[i])
  }

  /** A run: its states, and the event between each two neighbours. */
  datatype Run = Run(autoPlay: bool, controls: Controls, states: seq<State>, events: seq<Event>) {
    ghost predicate Valid() {
      && |states| == |events| + 1
      && states[0] == Init(autoPlay, controls)
      && forall i :: 0 <= i < |events| ==> StepsAt(states, events, i)
    }
  }
}
