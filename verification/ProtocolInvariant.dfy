/** The inductive invariant of the playback session, one predicate per concern. */
module ProtocolInvariant {
  import opened Wrappers
  import opened ProtocolState
  import opened ProtocolSteps

  /** The histories end in what the session asks for now, and atomics agree with them. */
  ghost predicate HistoryInv(n: Session, h: History) {
    && |h.uris| == n.generation + 1 && h.uris[0] == "" && h.uris[n.generation] == n.requestedUri == n.sourceUri
    && |h.seekTargets| == n.seek + 1 && h.seekTargets[0] == 0
    && |h.controls| == n.version + 1 && h.controls[n.version] == n.controls
    && (n.pendingSeek.Some? ==> n.pendingSeek.value == h.seekTargets[n.seek])
  }

  /** While the session lives, the requested epoch is the decoder's epoch. */
  ghost predicate EpochInv(s: State) {
    && s.session.closed == s.session.shuttingDown == (s.closer != NotClosing)
    && (!s.session.shuttingDown ==> s.session.epoch == s.decoderEpoch)
    && s.worker.job.request.epoch <= s.decoderEpoch
  }

  /** A call that failed as cancelled lost its epoch for good, and no such failure was reported. */
  ghost predicate CauseInv(s: State) {
    && (s.worker.pc == OpenFailed(Cancelled) || s.worker.pc == SeekFailed(Cancelled)
        || s.worker.pc == ReadFailed(Cancelled)
        ==> s.worker.job.request.epoch < s.decoderEpoch)
    && s.session.sourceError != Some(Cancelled)
  }

  /** The request the worker took is a past or present one. */
  ghost predicate RequestInv(n: Session, h: History, j: Job) {
    && j.request.generation <= n.generation && j.request.seek <= n.seek
    && j.active.generation <= n.generation && j.active.seek <= n.seek
    && j.request.generation < |h.uris| && j.request.seek < |h.seekTargets|
    && j.request.uri == h.uris[j.request.generation]
    && (j.request.target.Some? ==> j.request.target.value == h.seekTargets[j.request.seek])
  }

  ghost predicate SlotBuilt(p: Pipelines, slot: Option<nat>) {
    slot.Some? ==> slot.value < |p.slots| && p.slots[slot.value].Some?
  }

  /** The hazard pointer follows the callback's progress. */
  ghost predicate HazardInv(p: Pipelines, r: Render) {
    && |p.slots| == PIPELINE_SLOTS
    && SlotBuilt(p, p.published) && SlotBuilt(p, r.Held())
    && !r.NullAccess?
    && (r.Idle? || r.Loading? || r.Storing? ==> p.hazard == None)
    && (r.Validating? ==> p.hazard == r.loaded)
    && (r.Held().Some? ==> p.hazard == r.Held())
    && (r.HasBlock() ==> r.held.Some?)
  }

  /** The slot under construction is neither published nor held. */
  ghost predicate RebuildInv(p: Pipelines, r: Render, pc: WorkerPc) {
    && !pc.NoFreeSlot?
    && (pc.LoadingHazard? ==> p.published == pc.seen || p.published == None)
    && (pc.Rebuilding? || pc.Publishing? ==>
          pc.slot < PIPELINE_SLOTS && p.published != Some(pc.slot) && r.Held() != Some(pc.slot))
  }

  ghost predicate CloseInv(s: State) {
    && (s.closer == Spinning || s.closer == CloseReturned ==> s.pipelines.published == None)
    && (s.closer == CloseReturned ==> s.render.Held() == None)
  }

  /** The decoder stands where the seek for sequence `seek` put it. */
  ghost predicate StandsFor(h: History, standing: Standing, seek: nat) {
    && standing.At? && standing.seek == seek < |h.seekTargets|
    && (standing.target == h.seekTargets[seek] || standing.target == 0)
  }

  /** A block comes from the source of its generation and the seek of its sequence. */
  ghost predicate Genuine(h: History, b: Block) {
    && b.tag.generation < |h.uris| && b.source == h.uris[b.tag.generation]
    && StandsFor(h, b.standing, b.tag.seek)
  }

  /** The payload matches a format and frame count, and every block read for it was pushed. */
  ghost predicate Clean(p: Payload, format: Format, frameCount: nat) {
    p.format == format && p.frameCount == frameCount && p.read == p.pushed
  }

  ghost predicate PublishedClean(p: Pipelines, a: Active) {
    HasPayload(p, p.published) && Clean(PayloadOf(p, p.published), a.format, a.frameCount)
  }

  /** The worker's pipeline suits its request, is the published one, and has room. */
  ghost predicate TargetReady(j: Job, p: Pipelines, closing: bool) {
    && HasPayload(p, j.pipeline)
    && PayloadOf(p, j.pipeline).format == j.request.format
    && PayloadOf(p, j.pipeline).frameCount == j.request.frameCount
    && |PayloadOf(p, j.pipeline).queue| < QUEUE_SLOTS
    && (!closing ==> p.published == j.pipeline)
  }

  /** What the wait may rely on: an open decoder serves the active generation and seek. */
  ghost predicate Settled(j: Job, d: Decoder, h: History, p: Pipelines, closing: bool, seek: nat) {
    if j.active.generation == 0 then true
    else
      && j.active.generation < |h.uris|
      && match d
         case Closed => j.endOfStream
         case Open(source, format, standing) =>
           && source == h.uris[j.active.generation] && format == j.active.format
           && (if standing.Lost? then j.active.seek < seek else StandsFor(h, standing, j.active.seek))
           && (!closing ==> PublishedClean(p, j.active))
  }

  /** The request names a source, and the worker has opened it in the request's format. */
  ghost predicate HasOpened(j: Job) {
    && j.request.generation > 0
    && j.active.generation == j.request.generation
    && j.active.format == j.request.format
    && j.active.frameCount == j.request.frameCount
  }

  /** The decoder was opened for the request and not yet sought. */
  ghost predicate JustOpened(j: Job, d: Decoder) {
    j.request.generation > 0 && d == Open(j.request.uri, j.request.format, At(0, 0))
  }

  /** The decoder is open on the request's source, standing at the request's seek. */
  ghost predicate Serving(j: Job, d: Decoder, h: History) {
    && HasOpened(j)
    && d.Open? && d.source == j.request.uri && d.format == j.request.format
    && StandsFor(h, d.standing, j.request.seek)
  }

  /** Every block read for the worker's pipeline was pushed. */
  ghost predicate CaughtUp(j: Job, p: Pipelines, closing: bool) {
    TargetReady(j, p, closing) && PayloadOf(p, j.pipeline).read == PayloadOf(p, j.pipeline).pushed
  }

  /** A seek is due; should it fail, the wait must still be settled. */
  ghost predicate SeekDue(j: Job, d: Decoder, p: Pipelines, closing: bool) {
    && HasOpened(j) && j.active.seek < j.request.seek
    && (d.Closed? ==> j.endOfStream)
    && (d.Open? ==>
          && d.source == j.request.uri && d.format == j.request.format
          && (!closing ==> PublishedClean(p, j.active)))
  }

  ghost predicate Decoding(j: Job, d: Decoder, h: History) {
    Serving(j, d, h) && j.active.seek == j.request.seek
  }

  /** `block` is the one block read for the worker's pipeline and not yet pushed. */
  ghost predicate InFlight(j: Job, p: Pipelines, closing: bool, block: Block) {
    && TargetReady(j, p, closing)
    && PayloadOf(p, j.pipeline).read == PayloadOf(p, j.pipeline).pushed + [block]
    && block.tag == Tag(j.request.generation, j.request.seek)
    && block.sampleCount == j.request.frameCount * j.request.format.channels
  }

  ghost predicate SlotFresh(j: Job, p: Pipelines, slot: nat) {
    && HasPayload(p, Some(slot))
    && Clean(PayloadOf(p, Some(slot)), j.request.format, j.request.frameCount)
    && |PayloadOf(p, Some(slot)).queue| < QUEUE_SLOTS
  }

  /** The stage of a pipeline replacement in progress, if any. */
  ghost predicate Replacing(pc: WorkerPc, stage: Stage) {
    && (pc.LoadingPublished? || pc.LoadingHazard? || pc.Rebuilding? || pc.Publishing?)
    && pc.stage == stage
  }

  /** What the worker knows about the decoder and its pipeline at each point of its loop. */
  ghost predicate LoopInv(pc: WorkerPc, j: Job, d: Decoder, h: History, p: Pipelines, closing: bool, seek: nat) {
    && !pc.NullPipeline?
    && (pc.Waiting? || pc.Checking? ==> Settled(j, d, h, p, closing, seek))
    && (pc.Checking? || pc.ClosingDecoder? || pc.Opening? || pc.OpenFailed? ==> j.request.generation > 0)
    && (pc.Opening? || pc.OpenFailed? ==> d == Closed)
    && (pc.Opened? || Replacing(pc, ForOpen) || pc.Announcing? ==> JustOpened(j, d))
    && (pc.Announcing? ==> HasOpened(j) && j.active.seek == 0 && CaughtUp(j, p, closing))
    && (pc.Seeking? || pc.SeekFailed? ==> SeekDue(j, d, p, closing))
    && (pc.SeekFailed? && d.Open? ==> d.standing.Lost?)
    && (pc.Sought? || Replacing(pc, ForSeek) ==> Serving(j, d, h))
    && (pc.Publishing? ==> SlotFresh(j, p, pc.slot))
    && (pc.ClearingPending? || pc.Reading? || pc.ReadFailed? ==> Decoding(j, d, h) && CaughtUp(j, p, closing))
    && (pc.Pushing? ==> Decoding(j, d, h) && InFlight(j, p, closing, pc.block))
  }

  ghost predicate WorkerInv(s: State) {
    LoopInv(s.worker.pc, s.worker.job, s.decoder, s.history, s.pipelines, s.session.shuttingDown, s.session.seek)
  }

  /** One payload's traffic and its chain settings. */
  ghost predicate PayloadInv(h: History, p: Payload) {
    && p.popped + p.queue == p.pushed
    && p.pushed <= p.read
    && (forall i :: 0 <= i < |p.queue| ==> Genuine(h, p.queue[i]))
    && (p.applied.Some? ==> p.applied.value < |h.controls| && p.target == h.controls[p.applied.value])
  }

  ghost predicate TrafficInv(h: History, p: Pipelines) {
    forall k :: 0 <= k < |p.slots| && p.slots[k].Some? ==> PayloadInv(h, p.slots[k].value)
  }

  /** The callback has taken its snapshot and not yet committed. */
  predicate InProgress(r: Render) { !r.Idle? && !r.Releasing? && !r.NullAccess? }

  ghost predicate SnapInv(h: History, r: Render) {
    && (InProgress(r) ==>
          r.snap.version < |h.controls| && r.snap.controls == h.controls[r.snap.version])
    && (r.HasBlock() ==> Genuine(h, r.block))
  }

  ghost predicate PushInv(h: History, pc: WorkerPc) {
    pc.Pushing? ==> Genuine(h, pc.block)
  }

  ghost predicate SessionInv(s: State) {
    HistoryInv(s.session, s.history) && EpochInv(s) && CauseInv(s) && RequestInv(s.session, s.history, s.worker.job)
  }

  ghost predicate PointerInv(s: State) {
    HazardInv(s.pipelines, s.render) && RebuildInv(s.pipelines, s.render, s.worker.pc) && CloseInv(s)
  }

  ghost predicate BlockInv(s: State) {
    TrafficInv(s.history, s.pipelines) && SnapInv(s.history, s.render) && PushInv(s.history, s.worker.pc)
  }

  /** What a chain and the callback in progress may rely on: the headroom that belongs to the version
      a chain was last given is the one in the session and in the callback's snapshot, as far as
      they are of that version. */
  ghost predicate ChainInv(n: Session, r: Render, p: Payload) {
    p.applied.Some? ==>
      && p.applied.value <= n.version
      && (p.applied.value == n.version ==> p.headroom == n.headroom)
      && (InProgress(r) && p.applied.value == r.snap.version ==> p.headroom == r.snap.headroom)
      && (InProgress(r) && r.snap.version < n.version ==> p.applied.value < n.version)
  }

  ghost predicate HeadroomInv(n: Session, p: Pipelines, r: Render) {
    && (InProgress(r) ==>
          r.snap.version <= n.version && (r.snap.version == n.version ==> r.snap.headroom == n.headroom))
    && (r.Processed? ==> HasPayload(p, r.held) && PayloadOf(p, r.held).applied == Some(r.snap.version))
    && forall k :: 0 <= k < |p.slots| && p.slots[k].Some? ==> ChainInv(n, r, p.slots[k].value)
  }

  /** All but the headroom. */
  ghost predicate CoreInv(s: State) {
    SessionInv(s) && PointerInv(s) && WorkerInv(s) && BlockInv(s)
  }

  ghost predicate Inv(s: State) {
    CoreInv(s) && HeadroomInv(s.session, s.pipelines, s.render)
  }
}
