/** Every event keeps the invariant of the playback session. */
module ProtocolProofs {
  import opened Wrappers
  import opened ProtocolState
  import opened ProtocolSteps
  import opened ProtocolInvariant

  // ------------------------------------------------------------- what survives

  /** `h'` only appends to `h`. */
  ghost predicate Extends(h: History, h': History) {
    h.uris <= h'.uris && h.seekTargets <= h'.seekTargets && h.controls <= h'.controls
  }

  lemma BlocksSurvive(s: State, h': History)
    requires BlockInv(s) && Extends(s.history, h')
    ensures TrafficInv(h', s.pipelines) && SnapInv(h', s.render) && PushInv(h', s.worker.pc)
  {
    forall k | 0 <= k < |s.pipelines.slots| && s.pipelines.slots[k].Some?
      ensures PayloadInv(h', s.pipelines.slots[k].value)
    {
      assert PayloadInv(s.history, s.pipelines.slots[k].value);
    }
  }

  /** What a callback may do to a payload: consume its queue and set its chain. */
  ghost predicate Consumed(p: Payload, q: Payload) {
    && q.build == p.build && q.format == p.format && q.frameCount == p.frameCount
    && q.read == p.read && q.pushed == p.pushed && |q.queue| <= |p.queue|
  }

  /** Nothing the worker relies on changed between `s` and `t`. */
  ghost predicate Undisturbed(s: State, t: State) {
    && t.worker == s.worker && t.decoder == s.decoder
    && Extends(s.history, t.history) && s.session.seek <= t.session.seek
    && (s.session.shuttingDown ==> t.session.shuttingDown)
    && (t.session.shuttingDown || t.pipelines.published == s.pipelines.published)
    && |t.pipelines.slots| == |s.pipelines.slots|
    && forall k :: 0 <= k < |s.pipelines.slots| && s.pipelines.slots[k].Some? ==>
         t.pipelines.slots[k].Some? && Consumed(s.pipelines.slots[k].value, t.pipelines.slots[k].value)
  }

  lemma WaitSurvives(s: State, t: State)
    requires WorkerInv(s) && RequestInv(s.session, s.history, s.worker.job) && Undisturbed(s, t)
    requires s.worker.pc.Waiting? || s.worker.pc.Checking?
    ensures WorkerInv(t)
  {
  }

  lemma OpenSurvives(s: State, t: State)
    requires WorkerInv(s) && RequestInv(s.session, s.history, s.worker.job) && Undisturbed(s, t)
    requires s.worker.pc.Opened? || Replacing(s.worker.pc, ForOpen) || s.worker.pc.Announcing?
    ensures WorkerInv(t)
  {
  }

  lemma SeekSurvives(s: State, t: State)
    requires WorkerInv(s) && RequestInv(s.session, s.history, s.worker.job) && Undisturbed(s, t)
    requires s.worker.pc.Seeking? || s.worker.pc.SeekFailed? || s.worker.pc.Sought? || Replacing(s.worker.pc, ForSeek)
    ensures WorkerInv(t)
  {
  }

  lemma WorkerInvSurvives(s: State, t: State)
    requires WorkerInv(s) && RequestInv(s.session, s.history, s.worker.job) && Undisturbed(s, t)
    ensures WorkerInv(t)
  {
    var pc := s.worker.pc;
    if pc.Waiting? || pc.Checking? {
      WaitSurvives(s, t);
    } else if pc.Opened? || Replacing(pc, ForOpen) || pc.Announcing? {
      OpenSurvives(s, t);
    } else if pc.Seeking? || pc.SeekFailed? || pc.Sought? || Replacing(pc, ForSeek) {
      SeekSurvives(s, t);
    }
  }

  /** A callback touches neither the worker, the decoder nor the closing. */
  lemma RenderLeaves(s: State, e: RenderEvent)
    requires RenderEnabled(s, e)
    ensures
      var t := ApplyRender(s, e);
      t.worker == s.worker && t.decoder == s.decoder && t.closer == s.closer && t.history == s.history
  {
  }

  /** The worker touches neither the callback nor the closing. */
  lemma WorkerLeaves(s: State, e: WorkerEvent)
    requires WorkerEnabled(s, e)
    ensures ApplyWorker(s, e).render == s.render && ApplyWorker(s, e).closer == s.closer
  {
  }

  /** The steps from the wait to the end of a seek that build no pipeline. */
  predicate Opens(e: WorkerEvent) {
    || e.WorkerWake? || e.WorkerCheck? || e.WorkerCloseDecoder? || e.WorkerOpen? || e.WorkerOpenFailed?
    || e.WorkerConfirmOpen? || e.WorkerSeek? || e.WorkerSeekFailed? || e.WorkerConfirmSeek?
  }

  /** The steps that replace the pipeline. */
  predicate Replaces(e: WorkerEvent) {
    || e.WorkerLoadPublished? || e.WorkerLoadHazard? || e.WorkerRebuild? || e.WorkerPublish?
    || e.WorkerAnnounce? || e.WorkerClearPending?
  }

  lemma OpeningLeavesPosition(s: State, e: WorkerEvent)
    requires WorkerEnabled(s, e) && Opens(e)
    ensures ApplyWorker(s, e).session.position == s.session.position
    ensures ApplyWorker(s, e).session.completions == s.session.completions
  {
  }

  lemma PublishLeavesPosition(s: State, headroom: real)
    requires WorkerEnabled(s, WorkerPublish(headroom))
    ensures ApplyWorkerPublish(s, headroom).session.position == s.session.position
    ensures ApplyWorkerPublish(s, headroom).session.completions == s.session.completions
  {
  }

  lemma ReplacingLeavesPosition(s: State, e: WorkerEvent)
    requires WorkerEnabled(s, e) && Replaces(e)
    ensures ApplyWorker(s, e).session.position == s.session.position
    ensures ApplyWorker(s, e).session.completions == s.session.completions
  {
    match e {
      case WorkerLoadPublished =>
      case WorkerLoadHazard =>
      case WorkerRebuild =>
      case WorkerPublish(headroom) => PublishLeavesPosition(s, headroom);
      case WorkerAnnounce(_) =>
      case WorkerClearPending =>
    }
  }

  lemma WorkerLeavesPosition(s: State, e: WorkerEvent)
    requires WorkerEnabled(s, e)
    ensures ApplyWorker(s, e).session.position == s.session.position
    ensures ApplyWorker(s, e).session.completions == s.session.completions
  {
    if Opens(e) {
      OpeningLeavesPosition(s, e);
    } else if Replaces(e) {
      ReplacingLeavesPosition(s, e);
    }
  }

  /** Its only claim on the public timeline is the duration it announces for a current request. */
  lemma WorkerLeavesDuration(s: State, e: WorkerEvent)
    requires WorkerEnabled(s, e) && !(e.WorkerAnnounce? && Current(s))
    ensures ApplyWorker(s, e).session.duration == s.session.duration
  {
  }

  // ------------------------------------------------------------------- callers

  lemma SeekingKeepsHistory(s: State, e: CallerEvent)
    requires HistoryInv(s.session, s.history) && CallerEnabled(s, e) && (e.Play? || e.SeekTo? || e.SelectDevice?)
    ensures HistoryInv(ApplyCaller(s, e).session, ApplyCaller(s, e).history)
  {
  }

  lemma CallerKeepsHistory(s: State, e: CallerEvent)
    requires HistoryInv(s.session, s.history) && CallerEnabled(s, e)
    ensures HistoryInv(ApplyCaller(s, e).session, ApplyCaller(s, e).history)
  {
    if e.Play? || e.SeekTo? || e.SelectDevice? { SeekingKeepsHistory(s, e); }
  }

  lemma CallerKeepsSession(s: State, e: CallerEvent)
    requires SessionInv(s) && CallerEnabled(s, e)
    ensures SessionInv(ApplyCaller(s, e))
  {
    CallerKeepsHistory(s, e);
  }

  lemma CallerKeepsPointers(s: State, e: CallerEvent)
    requires PointerInv(s) && CallerEnabled(s, e)
    ensures PointerInv(ApplyCaller(s, e))
  {
  }

  lemma CallerDisturbsNothing(s: State, e: CallerEvent)
    requires SessionInv(s) && CallerEnabled(s, e)
    ensures Undisturbed(s, ApplyCaller(s, e))
  {
  }

  /** A caller touches neither the callback nor any pipeline but the published pointer. */
  lemma CallerLeaves(s: State, e: CallerEvent)
    requires CallerEnabled(s, e)
    ensures
      var t := ApplyCaller(s, e);
      t.render == s.render && t.pipelines.slots == s.pipelines.slots && t.worker == s.worker && t.decoder == s.decoder
  {
  }

  lemma CallerKeepsCore(s: State, e: CallerEvent)
    requires CoreInv(s) && CallerEnabled(s, e)
    ensures CoreInv(ApplyCaller(s, e))
  {
    var t := ApplyCaller(s, e);
    CallerKeepsSession(s, e);
    CallerKeepsPointers(s, e);
    CallerDisturbsNothing(s, e);
    WorkerInvSurvives(s, t);
    CallerLeaves(s, e);
    BlocksSurvive(s, t.history);
  }

  // ----------------------------------------------------------- render callback

  /** The events of the hazard-pointer loop, under the lock. */
  predicate Acquires(e: RenderEvent) {
    e.RenderBegin? || e.RenderLoad? || e.RenderStoreHazard? || e.RenderReload? || e.RenderClear? || e.RenderUnlock?
  }

  lemma AcquireKeepsPointers(s: State, e: RenderEvent)
    requires PointerInv(s) && RenderEnabled(s, e) && Acquires(e)
    ensures PointerInv(ApplyRender(s, e))
  {
  }

  lemma PopKeepsPointers(s: State)
    requires PointerInv(s) && s.render.Using?
    ensures PointerInv(ApplyRenderPop(s))
  {
  }

  lemma ProcessKeepsPointers(s: State)
    requires PointerInv(s) && s.render.TagSeen?
    ensures PointerInv(ApplyRenderProcess(s))
  {
  }

  lemma UseKeepsPointers(s: State, e: RenderEvent)
    requires PointerInv(s) && RenderEnabled(s, e) && !Acquires(e)
    ensures PointerInv(ApplyRender(s, e))
  {
    if e.RenderPop? {
      PopKeepsPointers(s);
    } else if e.RenderProcess? {
      ProcessKeepsPointers(s);
    }
  }

  lemma AcquireKeepsSession(s: State, e: RenderEvent)
    requires SessionInv(s) && RenderEnabled(s, e) && Acquires(e)
    ensures SessionInv(ApplyRender(s, e))
  {
  }

  lemma CommitKeepsSession(s: State, locked: bool)
    requires SessionInv(s) && s.render.Processed?
    ensures SessionInv(ApplyRenderCommit(s, locked))
  {
    var t := ApplyRenderCommit(s, locked);
    assert t == s.(session := t.session, render := t.render);
    assert HistoryInv(t.session, s.history);
  }

  /** Outside its two critical sections the callback changes only its own progress and its pipeline. */
  lemma UseLeavesSession(s: State, e: RenderEvent)
    requires RenderEnabled(s, e) && !Acquires(e) && !e.RenderCommit?
    ensures ApplyRender(s, e).(render := s.render, pipelines := s.pipelines) == s
  {
  }

  lemma UseKeepsSession(s: State, e: RenderEvent)
    requires SessionInv(s) && RenderEnabled(s, e) && !Acquires(e)
    ensures SessionInv(ApplyRender(s, e))
  {
    if e.RenderCommit? {
      CommitKeepsSession(s, e.locked);
    } else {
      UseLeavesSession(s, e);
    }
  }

  lemma PopKeepsBlocks(s: State)
    requires HazardInv(s.pipelines, s.render) && BlockInv(s) && s.render.Using?
    ensures BlockInv(ApplyRenderPop(s))
  {
  }

  lemma ProcessKeepsBlocks(s: State)
    requires HazardInv(s.pipelines, s.render) && BlockInv(s) && s.render.TagSeen?
    ensures BlockInv(ApplyRenderProcess(s))
  {
  }

  lemma RenderKeepsBlocks(s: State, e: RenderEvent)
    requires HistoryInv(s.session, s.history) && HazardInv(s.pipelines, s.render) && BlockInv(s) && RenderEnabled(s, e)
    ensures BlockInv(ApplyRender(s, e))
  {
    if e.RenderPop? {
      PopKeepsBlocks(s);
    } else if e.RenderProcess? {
      ProcessKeepsBlocks(s);
    } else {
      assert ApplyRender(s, e).pipelines.slots == s.pipelines.slots;
    }
  }

  lemma PopDisturbsNothing(s: State)
    requires s.render.Using?
    ensures Undisturbed(s, ApplyRenderPop(s))
  {
  }

  lemma ProcessDisturbsNothing(s: State)
    requires s.render.TagSeen?
    ensures Undisturbed(s, ApplyRenderProcess(s))
  {
  }

  lemma RenderDisturbsNothing(s: State, e: RenderEvent)
    requires RenderEnabled(s, e)
    ensures Undisturbed(s, ApplyRender(s, e))
  {
    if e.RenderPop? {
      PopDisturbsNothing(s);
    } else if e.RenderProcess? {
      ProcessDisturbsNothing(s);
    }
  }

  lemma RenderKeepsCore(s: State, e: RenderEvent)
    requires CoreInv(s) && RenderEnabled(s, e)
    ensures CoreInv(ApplyRender(s, e))
  {
    if Acquires(e) {
      AcquireKeepsPointers(s, e);
      AcquireKeepsSession(s, e);
    } else {
      UseKeepsPointers(s, e);
      UseKeepsSession(s, e);
    }
    RenderKeepsBlocks(s, e);
    RenderDisturbsNothing(s, e);
    WorkerInvSurvives(s, ApplyRender(s, e));
  }

  // ------------------------------------------------------------- decode worker

  /** A worker that wakes with work takes the request; the decoder and the pipeline are as its next
      step relies on. */
  lemma WakeToOpen(s: State)
    requires HistoryInv(s.session, s.history) && WorkerInv(s) && s.worker.pc.Waiting? && !s.session.shuttingDown
    requires HasWork(s) && NeedsOpen(Taken(s))
    ensures WorkerInv(s.(worker := Worker(Checking, Taken(s))))
  {
  }

  lemma WakeToSeek(s: State)
    requires HistoryInv(s.session, s.history) && RequestInv(s.session, s.history, s.worker.job)
    requires WorkerInv(s) && s.worker.pc.Waiting? && !s.session.shuttingDown
    requires HasWork(s) && !NeedsOpen(Taken(s)) && AfterOpen(Taken(s)) == Seeking
    ensures WorkerInv(s.(worker := Worker(Seeking, Taken(s))))
  {
  }

  lemma WakeToRead(s: State)
    requires HistoryInv(s.session, s.history) && HazardInv(s.pipelines, s.render)
    requires WorkerInv(s) && s.worker.pc.Waiting? && !s.session.shuttingDown
    requires HasWork(s) && !NeedsOpen(Taken(s)) && AfterOpen(Taken(s)) == Reading
    ensures WorkerInv(s.(worker := Worker(Reading, Taken(s))))
  {
  }

  lemma WakeKeepsLoop(s: State)
    requires HistoryInv(s.session, s.history) && RequestInv(s.session, s.history, s.worker.job)
    requires HazardInv(s.pipelines, s.render) && WorkerInv(s) && s.worker.pc.Waiting? && s.LockFree()
    ensures WorkerInv(ApplyWorkerWake(s))
  {
    if !s.session.shuttingDown && HasWork(s) {
      if NeedsOpen(Taken(s)) {
        WakeToOpen(s);
      } else if AfterOpen(Taken(s)) == Seeking {
        WakeToSeek(s);
      } else {
        WakeToRead(s);
      }
    }
  }

  lemma WakeKeepsSession(s: State)
    requires SessionInv(s) && s.worker.pc.Waiting? && s.LockFree()
    ensures SessionInv(ApplyWorkerWake(s))
  {
  }

  lemma WakeKeepsPointers(s: State)
    requires PointerInv(s) && s.worker.pc.Waiting? && s.LockFree()
    ensures PointerInv(ApplyWorkerWake(s))
  {
  }

  lemma WakeKeepsBlocks(s: State)
    requires BlockInv(s) && PointerInv(s) && WorkerInv(s) && s.worker.pc.Waiting? && s.LockFree()
    ensures BlockInv(ApplyWorkerWake(s))
  {
  }

  lemma WakeKeepsCore(s: State)
    requires CoreInv(s) && s.worker.pc.Waiting? && s.LockFree()
    ensures CoreInv(ApplyWorkerWake(s))
  {
    WakeKeepsSession(s);
    WakeKeepsPointers(s);
    WakeKeepsLoop(s);
    WakeKeepsBlocks(s);
  }

  lemma CheckKeepsCore(s: State)
    requires CoreInv(s) && s.worker.pc.Checking? && s.LockFree()
    ensures CoreInv(Goto(s, if Current(s) then ClosingDecoder else Waiting))
  {
  }

  lemma CloseDecoderKeepsCore(s: State)
    requires CoreInv(s) && s.worker.pc.ClosingDecoder?
    ensures CoreInv(Goto(s, Opening).(decoder := Closed))
  {
  }

  lemma OpenKeepsCore(s: State, outcome: OpenOutcome)
    requires CoreInv(s) && s.worker.pc.Opening? && OutcomePossible(s, outcome)
    ensures CoreInv(ApplyWorkerOpen(s, outcome))
  {
  }

  lemma OpenFailedKeepsCore(s: State)
    requires CoreInv(s) && s.worker.pc.OpenFailed? && s.LockFree()
    ensures CoreInv(ApplyWorkerOpenFailed(s))
  {
  }

  lemma ConfirmOpenKeepsLoop(s: State)
    requires WorkerInv(s) && s.worker.pc.Opened? && s.LockFree()
    ensures WorkerInv(ApplyWorkerConfirmOpen(s))
  {
  }

  lemma ConfirmOpenKeepsSession(s: State)
    requires SessionInv(s) && s.worker.pc.Opened? && s.LockFree()
    ensures SessionInv(ApplyWorkerConfirmOpen(s))
  {
  }

  lemma ConfirmOpenKeepsPointers(s: State)
    requires PointerInv(s) && s.worker.pc.Opened? && s.LockFree()
    ensures PointerInv(ApplyWorkerConfirmOpen(s))
  {
  }

  lemma ConfirmOpenKeepsBlocks(s: State)
    requires BlockInv(s) && PointerInv(s) && WorkerInv(s) && s.worker.pc.Opened? && s.LockFree()
    ensures BlockInv(ApplyWorkerConfirmOpen(s))
  {
  }

  lemma ConfirmOpenKeepsCore(s: State)
    requires CoreInv(s) && s.worker.pc.Opened? && s.LockFree()
    ensures CoreInv(ApplyWorkerConfirmOpen(s))
  {
    ConfirmOpenKeepsSession(s);
    ConfirmOpenKeepsPointers(s);
    ConfirmOpenKeepsLoop(s);
    ConfirmOpenKeepsBlocks(s);
  }

  lemma LoadPublishedKeepsCore(s: State)
    requires CoreInv(s) && s.worker.pc.LoadingPublished?
    ensures CoreInv(Goto(s, LoadingHazard(s.worker.pc.stage, s.pipelines.published)))
  {
  }

  lemma LoadHazardKeepsSession(s: State)
    requires SessionInv(s) && s.worker.pc.LoadingHazard?
    ensures SessionInv(ApplyWorkerLoadHazard(s))
  {
  }

  lemma LoadHazardKeepsPointers(s: State)
    requires PointerInv(s) && s.worker.pc.LoadingHazard?
    ensures PointerInv(ApplyWorkerLoadHazard(s))
  {
  }

  lemma LoadHazardKeepsLoop(s: State)
    requires PointerInv(s) && WorkerInv(s) && s.worker.pc.LoadingHazard?
    ensures WorkerInv(ApplyWorkerLoadHazard(s))
  {
  }

  lemma LoadHazardKeepsBlocks(s: State)
    requires BlockInv(s) && PointerInv(s) && WorkerInv(s) && s.worker.pc.LoadingHazard?
    ensures BlockInv(ApplyWorkerLoadHazard(s))
  {
  }

  lemma LoadHazardKeepsCore(s: State)
    requires CoreInv(s) && s.worker.pc.LoadingHazard?
    ensures CoreInv(ApplyWorkerLoadHazard(s))
  {
    LoadHazardKeepsSession(s);
    LoadHazardKeepsPointers(s);
    LoadHazardKeepsLoop(s);
    LoadHazardKeepsBlocks(s);
  }

  lemma RebuildKeepsCore(s: State)
    requires CoreInv(s) && s.worker.pc.Rebuilding? && s.worker.pc.slot < |s.pipelines.slots|
    ensures CoreInv(ApplyWorkerRebuild(s))
  {
  }

  lemma PublishToAnnounce(s: State, headroom: real)
    requires HistoryInv(s.session, s.history) && WorkerInv(s) && s.worker.pc.Publishing? && Current(s)
             && s.worker.pc.stage == ForOpen
    ensures WorkerInv(ApplyWorkerPublish(s, headroom))
  {
  }

  lemma PublishToClear(s: State, headroom: real)
    requires HistoryInv(s.session, s.history) && WorkerInv(s) && s.worker.pc.Publishing? && Current(s)
             && s.worker.pc.stage == ForSeek
    ensures WorkerInv(ApplyWorkerPublish(s, headroom))
  {
  }

  lemma PublishKeepsLoop(s: State, headroom: real)
    requires HistoryInv(s.session, s.history) && WorkerInv(s) && s.worker.pc.Publishing? && s.LockFree()
    ensures WorkerInv(ApplyWorkerPublish(s, headroom))
  {
    if Current(s) {
      if s.worker.pc.stage == ForOpen { PublishToAnnounce(s, headroom); } else { PublishToClear(s, headroom); }
    }
  }

  lemma PublishKeepsSession(s: State, headroom: real)
    requires SessionInv(s) && s.worker.pc.Publishing? && s.LockFree()
    ensures SessionInv(ApplyWorkerPublish(s, headroom))
  {
  }

  lemma PublishKeepsPointers(s: State, headroom: real)
    requires EpochInv(s) && PointerInv(s) && WorkerInv(s) && s.worker.pc.Publishing? && s.LockFree()
    ensures PointerInv(ApplyWorkerPublish(s, headroom))
  {
  }

  lemma PublishKeepsBlocks(s: State, headroom: real)
    requires BlockInv(s) && PointerInv(s) && WorkerInv(s) && s.worker.pc.Publishing? && s.LockFree()
    ensures BlockInv(ApplyWorkerPublish(s, headroom))
  {
  }

  lemma PublishKeepsCore(s: State, headroom: real)
    requires CoreInv(s) && s.worker.pc.Publishing? && s.LockFree()
    ensures CoreInv(ApplyWorkerPublish(s, headroom))
  {
    PublishKeepsSession(s, headroom);
    PublishKeepsPointers(s, headroom);
    PublishKeepsLoop(s, headroom);
    PublishKeepsBlocks(s, headroom);
  }

  lemma AnnounceToSeek(s: State, duration: int)
    requires HistoryInv(s.session, s.history) && WorkerInv(s) && s.worker.pc.Announcing?
             && AfterOpen(s.worker.job) == Seeking
    ensures WorkerInv(ApplyWorkerAnnounce(s, duration))
  {
  }

  lemma AnnounceToRead(s: State, duration: int)
    requires HistoryInv(s.session, s.history) && WorkerInv(s) && s.worker.pc.Announcing?
             && AfterOpen(s.worker.job) == Reading
    ensures WorkerInv(ApplyWorkerAnnounce(s, duration))
  {
  }

  lemma AnnounceKeepsLoop(s: State, duration: int)
    requires HistoryInv(s.session, s.history) && WorkerInv(s) && s.worker.pc.Announcing? && s.LockFree()
    ensures WorkerInv(ApplyWorkerAnnounce(s, duration))
  {
    if AfterOpen(s.worker.job) == Seeking { AnnounceToSeek(s, duration); } else { AnnounceToRead(s, duration); }
  }

  lemma AnnounceKeepsSession(s: State, duration: int)
    requires SessionInv(s) && s.worker.pc.Announcing? && s.LockFree()
    ensures SessionInv(ApplyWorkerAnnounce(s, duration))
  {
  }

  lemma AnnounceKeepsPointers(s: State, duration: int)
    requires PointerInv(s) && s.worker.pc.Announcing? && s.LockFree()
    ensures PointerInv(ApplyWorkerAnnounce(s, duration))
  {
  }

  lemma AnnounceKeepsBlocks(s: State, duration: int)
    requires BlockInv(s) && PointerInv(s) && WorkerInv(s) && s.worker.pc.Announcing? && s.LockFree()
    ensures BlockInv(ApplyWorkerAnnounce(s, duration))
  {
  }

  lemma AnnounceKeepsCore(s: State, duration: int)
    requires CoreInv(s) && s.worker.pc.Announcing? && s.LockFree()
    ensures CoreInv(ApplyWorkerAnnounce(s, duration))
  {
    AnnounceKeepsSession(s, duration);
    AnnounceKeepsPointers(s, duration);
    AnnounceKeepsLoop(s, duration);
    AnnounceKeepsBlocks(s, duration);
  }

  lemma SeekKeepsCore(s: State, outcome: OpenOutcome)
    requires CoreInv(s) && s.worker.pc.Seeking? && OutcomePossible(s, outcome) && (outcome.OpenOk? ==> s.decoder.Open?)
    ensures CoreInv(ApplyWorkerSeek(s, outcome))
  {
  }

  lemma SeekFailedKeepsSession(s: State)
    requires SessionInv(s) && s.worker.pc.SeekFailed? && s.LockFree()
    ensures SessionInv(ApplyWorkerSeekFailed(s))
  {
  }

  lemma SeekFailedKeepsPointers(s: State)
    requires PointerInv(s) && s.worker.pc.SeekFailed? && s.LockFree()
    ensures PointerInv(ApplyWorkerSeekFailed(s))
  {
  }

  lemma SeekFailedKeepsLoop(s: State)
    requires SessionInv(s) && PointerInv(s) && WorkerInv(s) && s.worker.pc.SeekFailed? && s.LockFree()
    ensures WorkerInv(ApplyWorkerSeekFailed(s))
  {
  }

  lemma SeekFailedKeepsBlocks(s: State)
    requires BlockInv(s) && PointerInv(s) && WorkerInv(s) && s.worker.pc.SeekFailed? && s.LockFree()
    ensures BlockInv(ApplyWorkerSeekFailed(s))
  {
  }

  lemma SeekFailedKeepsCore(s: State)
    requires CoreInv(s) && s.worker.pc.SeekFailed? && s.LockFree()
    ensures CoreInv(ApplyWorkerSeekFailed(s))
  {
    SeekFailedKeepsSession(s);
    SeekFailedKeepsPointers(s);
    SeekFailedKeepsLoop(s);
    SeekFailedKeepsBlocks(s);
  }

  lemma ConfirmSeekKeepsSession(s: State)
    requires SessionInv(s) && s.worker.pc.Sought? && s.LockFree()
    ensures SessionInv(ApplyWorkerConfirmSeek(s))
  {
  }

  lemma ConfirmSeekKeepsPointers(s: State)
    requires PointerInv(s) && s.worker.pc.Sought? && s.LockFree()
    ensures PointerInv(ApplyWorkerConfirmSeek(s))
  {
  }

  lemma ConfirmSeekKeepsLoop(s: State)
    requires SessionInv(s) && PointerInv(s) && WorkerInv(s) && s.worker.pc.Sought? && s.LockFree()
    ensures WorkerInv(ApplyWorkerConfirmSeek(s))
  {
  }

  lemma ConfirmSeekKeepsBlocks(s: State)
    requires BlockInv(s) && PointerInv(s) && WorkerInv(s) && s.worker.pc.Sought? && s.LockFree()
    ensures BlockInv(ApplyWorkerConfirmSeek(s))
  {
  }

  lemma ConfirmSeekKeepsCore(s: State)
    requires CoreInv(s) && s.worker.pc.Sought? && s.LockFree()
    ensures CoreInv(ApplyWorkerConfirmSeek(s))
  {
    ConfirmSeekKeepsSession(s);
    ConfirmSeekKeepsPointers(s);
    ConfirmSeekKeepsLoop(s);
    ConfirmSeekKeepsBlocks(s);
  }

  lemma ClearPendingKeepsSession(s: State)
    requires SessionInv(s) && s.worker.pc.ClearingPending? && s.LockFree()
    ensures SessionInv(ApplyWorkerClearPending(s))
  {
  }

  lemma ClearPendingKeepsPointers(s: State)
    requires PointerInv(s) && s.worker.pc.ClearingPending? && s.LockFree()
    ensures PointerInv(ApplyWorkerClearPending(s))
  {
  }

  lemma ClearPendingKeepsLoop(s: State)
    requires WorkerInv(s) && s.worker.pc.ClearingPending? && s.LockFree()
    ensures WorkerInv(ApplyWorkerClearPending(s))
  {
  }

  lemma ClearPendingKeepsBlocks(s: State)
    requires BlockInv(s) && PointerInv(s) && WorkerInv(s) && s.worker.pc.ClearingPending? && s.LockFree()
    ensures BlockInv(ApplyWorkerClearPending(s))
  {
  }

  lemma ClearPendingKeepsCore(s: State)
    requires CoreInv(s) && s.worker.pc.ClearingPending? && s.LockFree()
    ensures CoreInv(ApplyWorkerClearPending(s))
  {
    ClearPendingKeepsSession(s);
    ClearPendingKeepsPointers(s);
    ClearPendingKeepsLoop(s);
    ClearPendingKeepsBlocks(s);
  }

  lemma ReadKeepsCore(s: State, outcome: ReadOutcome)
    requires CoreInv(s) && s.worker.pc.Reading? && ReadPossible(s, outcome)
    ensures CoreInv(ApplyWorkerRead(s, outcome))
  {
  }

  lemma ReadFailedKeepsLoop(s: State)
    requires SessionInv(s) && PointerInv(s) && WorkerInv(s) && s.worker.pc.ReadFailed? && s.LockFree()
    ensures WorkerInv(ApplyWorkerReadFailed(s))
  {
  }

  lemma ReadFailedKeepsCore(s: State)
    requires CoreInv(s) && s.worker.pc.ReadFailed? && s.LockFree()
    ensures CoreInv(ApplyWorkerReadFailed(s))
  {
    ReadFailedKeepsLoop(s);
  }

  lemma PushToWait(s: State)
    requires RequestInv(s.session, s.history, s.worker.job) && PointerInv(s) && WorkerInv(s) && s.worker.pc.Pushing?
             && Current(s)
    ensures WorkerInv(ApplyWorkerPush(s))
  {
  }

  lemma PushKeepsLoop(s: State)
    requires RequestInv(s.session, s.history, s.worker.job) && PointerInv(s) && WorkerInv(s) && s.worker.pc.Pushing?
             && s.LockFree()
    ensures WorkerInv(ApplyWorkerPush(s))
  {
    if Current(s) { PushToWait(s); }
  }

  lemma PushKeepsSession(s: State)
    requires SessionInv(s) && s.worker.pc.Pushing? && s.LockFree()
    ensures SessionInv(ApplyWorkerPush(s))
  {
  }

  lemma PushKeepsPointers(s: State)
    requires PointerInv(s) && s.worker.pc.Pushing? && s.LockFree()
    ensures PointerInv(ApplyWorkerPush(s))
  {
  }

  lemma PushKeepsBlocks(s: State)
    requires BlockInv(s) && PointerInv(s) && WorkerInv(s) && s.worker.pc.Pushing? && s.LockFree()
    ensures BlockInv(ApplyWorkerPush(s))
  {
  }

  lemma PushKeepsCore(s: State)
    requires CoreInv(s) && s.worker.pc.Pushing? && s.LockFree()
    ensures CoreInv(ApplyWorkerPush(s))
  {
    PushKeepsSession(s);
    PushKeepsPointers(s);
    PushKeepsLoop(s);
    PushKeepsBlocks(s);
  }

  lemma ThrowKeepsSession(s: State)
    requires SessionInv(s) && !s.worker.pc.Exiting? && !s.worker.pc.Finished? && s.LockFree()
    ensures SessionInv(ApplyWorkerThrow(s))
  {
  }

  lemma ThrowKeepsPointers(s: State)
    requires PointerInv(s) && !s.worker.pc.Exiting? && !s.worker.pc.Finished? && s.LockFree()
    ensures PointerInv(ApplyWorkerThrow(s))
  {
  }

  lemma ThrowKeepsLoop(s: State)
    requires SessionInv(s) && PointerInv(s) && WorkerInv(s) && !s.worker.pc.Exiting? && !s.worker.pc.Finished?
             && s.LockFree()
    ensures WorkerInv(ApplyWorkerThrow(s))
  {
  }

  lemma ThrowKeepsBlocks(s: State)
    requires BlockInv(s) && PointerInv(s) && WorkerInv(s) && !s.worker.pc.Exiting? && !s.worker.pc.Finished?
             && s.LockFree()
    ensures BlockInv(ApplyWorkerThrow(s))
  {
  }

  lemma ThrowKeepsCore(s: State)
    requires CoreInv(s) && !s.worker.pc.Exiting? && !s.worker.pc.Finished? && s.LockFree()
    ensures CoreInv(ApplyWorkerThrow(s))
  {
    ThrowKeepsSession(s);
    ThrowKeepsPointers(s);
    ThrowKeepsLoop(s);
    ThrowKeepsBlocks(s);
  }

  lemma ExitKeepsCore(s: State)
    requires CoreInv(s) && s.worker.pc.Exiting?
    ensures CoreInv(Goto(s, Finished).(decoder := Closed))
  {
  }

  lemma OpeningKeepsCore(s: State, e: WorkerEvent)
    requires CoreInv(s) && WorkerEnabled(s, e) && Opens(e)
    ensures CoreInv(ApplyWorker(s, e))
  {
    match e
    case WorkerWake => WakeKeepsCore(s);
    case WorkerCheck => CheckKeepsCore(s);
    case WorkerCloseDecoder => CloseDecoderKeepsCore(s);
    case WorkerOpen(outcome) => OpenKeepsCore(s, outcome);
    case WorkerOpenFailed => OpenFailedKeepsCore(s);
    case WorkerConfirmOpen => ConfirmOpenKeepsCore(s);
    case WorkerSeek(outcome) => SeekKeepsCore(s, outcome);
    case WorkerSeekFailed => SeekFailedKeepsCore(s);
    case WorkerConfirmSeek => ConfirmSeekKeepsCore(s);
    case _ => assert false;
  }

  lemma ReplacingKeepsCore(s: State, e: WorkerEvent)
    requires CoreInv(s) && WorkerEnabled(s, e) && Replaces(e)
    ensures CoreInv(ApplyWorker(s, e))
  {
    match e
    case WorkerLoadPublished => LoadPublishedKeepsCore(s);
    case WorkerLoadHazard => LoadHazardKeepsCore(s);
    case WorkerRebuild => RebuildKeepsCore(s);
    case WorkerPublish(headroom) => PublishKeepsCore(s, headroom);
    case WorkerAnnounce(duration) => AnnounceKeepsCore(s, duration);
    case WorkerClearPending => ClearPendingKeepsCore(s);
    case _ => assert false;
  }

  lemma WorkerKeepsCore(s: State, e: WorkerEvent)
    requires CoreInv(s) && WorkerEnabled(s, e)
    ensures CoreInv(ApplyWorker(s, e))
  {
    if Opens(e) {
      OpeningKeepsCore(s, e);
    } else if Replaces(e) {
      ReplacingKeepsCore(s, e);
    } else if e.WorkerRead? {
      ReadKeepsCore(s, e.read);
    } else if e.WorkerReadFailed? {
      ReadFailedKeepsCore(s);
    } else if e.WorkerPush? {
      PushKeepsCore(s);
    } else if e.WorkerThrow? {
      ThrowKeepsCore(s);
    } else {
      ExitKeepsCore(s);
    }
  }

  // ------------------------------------------------------------------- headroom

  /** The settings keep their version and headroom, or take a new version. */
  predicate VersionMoves(n: Session, m: Session) {
    (m.version == n.version && m.headroom == n.headroom) || m.version == n.version + 1
  }

  /** Every chain of `q` is a chain of `p` with the settings it had, or has been given none. */
  ghost predicate ChainsKept(p: Pipelines, q: Pipelines) {
    && |q.slots| == |p.slots|
    && forall k :: 0 <= k < |q.slots| && q.slots[k].Some? && q.slots[k].value.applied.Some? ==>
         p.slots[k].Some? && SameChain(p.slots[k].value, q.slots[k].value)
  }

  predicate SameChain(a: Payload, b: Payload) { b.applied == a.applied && b.headroom == a.headroom }

  lemma ChainsOutlive(n: Session, m: Session, p: Pipelines, q: Pipelines, r: Render)
    requires HeadroomInv(n, p, r) && VersionMoves(n, m) && ChainsKept(p, q)
    requires r.Processed? ==> HasPayload(q, r.held) && SameChain(PayloadOf(p, r.held), PayloadOf(q, r.held))
    ensures HeadroomInv(m, q, r)
  {
    forall k | 0 <= k < |q.slots| && q.slots[k].Some? ensures ChainInv(m, r, q.slots[k].value) {
      if q.slots[k].value.applied.Some? { assert ChainInv(n, r, p.slots[k].value); }
    }
  }

  lemma CallerMovesVersion(s: State, e: CallerEvent)
    requires CallerEnabled(s, e)
    ensures VersionMoves(s.session, ApplyCaller(s, e).session)
  {
  }

  lemma CallerKeepsInv(s: State, e: CallerEvent)
    requires Inv(s) && CallerEnabled(s, e)
    ensures Inv(ApplyCaller(s, e))
  {
    var t := ApplyCaller(s, e);
    CallerKeepsCore(s, e);
    CallerLeaves(s, e);
    CallerMovesVersion(s, e);
    ChainsOutlive(s.session, t.session, s.pipelines, t.pipelines, s.render);
  }

  lemma PushKeepsChains(s: State)
    requires s.worker.pc.Pushing?
    ensures ChainsKept(s.pipelines, ApplyWorkerPush(s).pipelines)
  {
  }

  lemma ReadKeepsChains(s: State, outcome: ReadOutcome)
    ensures ChainsKept(s.pipelines, ApplyWorkerRead(s, outcome).pipelines)
  {
  }

  lemma WorkerMovesVersion(s: State, e: WorkerEvent)
    requires WorkerEnabled(s, e)
    ensures VersionMoves(s.session, ApplyWorker(s, e).session)
  {
  }

  lemma WorkerKeepsChains(s: State, e: WorkerEvent)
    requires WorkerEnabled(s, e)
    ensures ChainsKept(s.pipelines, ApplyWorker(s, e).pipelines)
  {
    if e.WorkerPush? {
      PushKeepsChains(s);
    } else if e.WorkerRead? {
      ReadKeepsChains(s, e.read);
    }
  }

  /** What a callback holds keeps its build and the settings of its chain. */
  predicate SparesHeld(s: State, t: State) {
    var held := s.render.Held();
    && HasPayload(s.pipelines, held) && HasPayload(t.pipelines, held)
    && PayloadOf(t.pipelines, held).build == PayloadOf(s.pipelines, held).build
    && SameChain(PayloadOf(s.pipelines, held), PayloadOf(t.pipelines, held))
  }

  lemma PushSparesHeld(s: State)
    requires s.worker.pc.Pushing? && HasPayload(s.pipelines, s.render.Held())
    ensures SparesHeld(s, ApplyWorkerPush(s))
  {
  }

  lemma ReadSparesHeld(s: State, outcome: ReadOutcome)
    requires HasPayload(s.pipelines, s.render.Held())
    ensures SparesHeld(s, ApplyWorkerRead(s, outcome))
  {
  }

  lemma WorkerSparesHeld(s: State, e: WorkerEvent)
    requires HazardInv(s.pipelines, s.render) && RebuildInv(s.pipelines, s.render, s.worker.pc)
    requires WorkerEnabled(s, e) && s.render.Held().Some?
    ensures SparesHeld(s, ApplyWorker(s, e))
  {
    if e.WorkerPush? {
      PushSparesHeld(s);
    } else if e.WorkerRead? {
      ReadSparesHeld(s, e.read);
    }
  }

  lemma WorkerKeepsInv(s: State, e: WorkerEvent)
    requires Inv(s) && WorkerEnabled(s, e)
    ensures Inv(ApplyWorker(s, e))
  {
    var t := ApplyWorker(s, e);
    WorkerKeepsCore(s, e);
    WorkerLeaves(s, e);
    WorkerMovesVersion(s, e);
    WorkerKeepsChains(s, e);
    if s.render.Processed? { WorkerSparesHeld(s, e); }
    ChainsOutlive(s.session, t.session, s.pipelines, t.pipelines, s.render);
  }

  /** The callback's steps that change neither a chain nor the settings of the session. */
  predicate Passes(e: RenderEvent) { !e.RenderBegin? && !e.RenderProcess? && !e.RenderCommit? }

  lemma PassingKeepsChains(s: State, e: RenderEvent)
    requires RenderEnabled(s, e) && Passes(e)
    ensures
      var t := ApplyRender(s, e);
      && ChainsKept(s.pipelines, t.pipelines) && t.session == s.session && !t.render.Processed?
      && (InProgress(t.render) ==> InProgress(s.render) && t.render.snap == s.render.snap)
  {
  }

  lemma PassingKeepsHeadroom(s: State, e: RenderEvent)
    requires HeadroomInv(s.session, s.pipelines, s.render) && RenderEnabled(s, e) && Passes(e)
    ensures var t := ApplyRender(s, e); HeadroomInv(t.session, t.pipelines, t.render)
  {
    var t := ApplyRender(s, e);
    PassingKeepsChains(s, e);
    forall k | 0 <= k < |t.pipelines.slots| && t.pipelines.slots[k].Some?
      ensures ChainInv(t.session, t.render, t.pipelines.slots[k].value)
    {
      var p := t.pipelines.slots[k].value;
      if p.applied.Some? { assert ChainInv(s.session, s.render, s.pipelines.slots[k].value); }
    }
  }

  lemma BeginKeepsHeadroom(s: State, f: Format, n: nat)
    requires HeadroomInv(s.session, s.pipelines, s.render)
    ensures var t := ApplyRenderBegin(s, f, n); HeadroomInv(t.session, t.pipelines, t.render)
  {
    var t := ApplyRenderBegin(s, f, n);
    forall k | 0 <= k < |t.pipelines.slots| && t.pipelines.slots[k].Some?
      ensures ChainInv(t.session, t.render, t.pipelines.slots[k].value)
    {
      assert ChainInv(s.session, s.render, s.pipelines.slots[k].value);
    }
  }

  lemma ProcessKeepsHeadroom(s: State)
    requires HazardInv(s.pipelines, s.render) && HeadroomInv(s.session, s.pipelines, s.render) && s.render.TagSeen?
    ensures var t := ApplyRenderProcess(s); HeadroomInv(t.session, t.pipelines, t.render)
  {
    var t := ApplyRenderProcess(s);
    forall k | 0 <= k < |t.pipelines.slots| && t.pipelines.slots[k].Some?
      ensures ChainInv(t.session, t.render, t.pipelines.slots[k].value)
    {
      assert ChainInv(s.session, s.render, s.pipelines.slots[k].value);
    }
  }

  /** A commit stores the headroom of its callback's chain: the one there is, unless the settings
      have moved on since the callback began. */
  lemma CommitKeepsHeadroom(s: State, locked: bool)
    requires HeadroomInv(s.session, s.pipelines, s.render) && s.render.Processed?
    ensures var t := ApplyRenderCommit(s, locked); HeadroomInv(t.session, t.pipelines, t.render)
    ensures s.render.snap.version == s.session.version ==> HeadroomHeld(s) == s.session.headroom
  {
    assert ChainInv(s.session, s.render, PayloadOf(s.pipelines, s.render.held));
    var t := ApplyRenderCommit(s, locked);
    forall k | 0 <= k < |t.pipelines.slots| && t.pipelines.slots[k].Some?
      ensures ChainInv(t.session, t.render, t.pipelines.slots[k].value)
    {
      assert ChainInv(s.session, s.render, s.pipelines.slots[k].value);
    }
  }

  lemma RenderKeepsHeadroom(s: State, e: RenderEvent)
    requires HazardInv(s.pipelines, s.render) && HeadroomInv(s.session, s.pipelines, s.render) && RenderEnabled(s, e)
    ensures var t := ApplyRender(s, e); HeadroomInv(t.session, t.pipelines, t.render)
  {
    if e.RenderBegin? {
      BeginKeepsHeadroom(s, e.format, e.frameCount);
    } else if e.RenderProcess? {
      ProcessKeepsHeadroom(s);
    } else if e.RenderCommit? {
      CommitKeepsHeadroom(s, e.locked);
    } else {
      PassingKeepsHeadroom(s, e);
    }
  }

  lemma RenderKeepsInv(s: State, e: RenderEvent)
    requires Inv(s) && RenderEnabled(s, e)
    ensures Inv(ApplyRender(s, e))
  {
    RenderKeepsCore(s, e);
    RenderKeepsHeadroom(s, e);
  }
}
