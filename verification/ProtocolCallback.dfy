/** One render callback from its beginning to its commit: it plays only what the session was told to play
    when it began, in the form and with the settings it began with. */
module ProtocolCallback {
  import opened Wrappers
  import opened ProtocolState
  import opened ProtocolSteps
  import opened ProtocolInvariant
  import opened ProtocolProofs
  import opened ProtocolTheorems
  import opened ProtocolHistory

  predicate Begins(e: Event) { e.Callback? && e.step.RenderBegin? }

  /** The callback snapshots the session when it begins. */
  predicate TakenFrom(n: Session, format: Format, frameCount: nat, snap: Snapshot) {
    && snap.format == format && snap.frameCount == frameCount
    && snap.shouldPlay == (n.intent && n.requestedUri != "")
    && snap.version == n.version && snap.controls == n.controls && snap.headroom == n.headroom
  }

  predicate SnapshotKept(s: State, e: RenderEvent, t: State) {
    InProgress(t.render) ==> if e.RenderBegin? then TakenFrom(s.session, e.format, e.frameCount, t.render.snap)
                             else InProgress(s.render) && t.render.snap == s.render.snap
  }

  lemma RenderKeepsSnapshot(s: State, e: RenderEvent)
    requires RenderEnabled(s, e)
    ensures SnapshotKept(s, e, ApplyRender(s, e))
  {
  }

  /** The beginning of the callback in progress. */
  lemma {:induction false} CallbackBegan(r: Run, i: nat) returns (k: nat)
    requires r.Valid() && i < |r.states| && InProgress(r.states[i].render)
    ensures k < i && Begins(r.events[k]) && forall m :: k < m < i ==> !Begins(r.events[m])
    ensures TakenFrom(r.states[k].session, r.events[k].step.format, r.events[k].step.frameCount,
                      r.states[i].render.snap)
  {
    assert r.states[0] == Init(r.autoPlay, r.controls);
    if i > 0 {
      var s, e := r.states[i - 1], r.events[i - 1];
      assert StepsAt(r.states, r.events, i - 1);
      match e {
        case Call(call) =>
          CallerLeaves(s, call);
          k := CallbackBegan(r, i - 1);
        case Callback(step) =>
          RenderKeepsSnapshot(s, step);
          if step.RenderBegin? { k := i - 1; } else { k := CallbackBegan(r, i - 1); }
        case Work(work) =>
          WorkerLeaves(s, work);
          k := CallbackBegan(r, i - 1);
      }
    }
  }

  // -------------------------------------------------------------------------- sizes

  /** A block as long as `n` frames of the format ask for. */
  predicate Fills(b: Block, format: Format, frameCount: nat) { b.sampleCount == frameCount * format.channels }

  predicate NotEmpty(format: Format, frameCount: nat) { frameCount > 0 && format.channels > 0 }

  /** Every block of a pipeline fills the buffers the pipeline was built for, and these are not empty. */
  predicate AllFill(p: Payload) {
    NotEmpty(p.format, p.frameCount) && forall j :: 0 <= j < |p.queue| ==> Fills(p.queue[j], p.format, p.frameCount)
  }

  predicate Rebuilds(pc: WorkerPc) { pc.LoadingPublished? || pc.LoadingHazard? || pc.Rebuilding? || pc.Publishing? }

  /** The worker builds pipelines for buffers that are not empty. */
  predicate BuildsForSome(pc: WorkerPc, j: Job) {
    && (j.request.generation > 0 ==> j.request.frameCount > 0)
    && (j.active.frameCount > 0 ==> j.active.format.channels > 0)
    && (Rebuilds(pc) ==> NotEmpty(j.request.format, j.request.frameCount))
  }

  /** What a callback has in hand was popped from a pipeline that suits its buffer, for a session that
      was told to play. */
  predicate Suits(r: Render) {
    r.HasBlock() ==>
      && r.snap.shouldPlay && NotEmpty(r.snap.format, r.snap.frameCount)
      && Fills(r.block, r.snap.format, r.snap.frameCount)
  }

  predicate SizesKept(s: State) {
    && Suits(s.render) && BuildsForSome(s.worker.pc, s.worker.job)
    && forall k :: 0 <= k < |s.pipelines.slots| && s.pipelines.slots[k].Some? ==> AllFill(s.pipelines.slots[k].value)
  }

  lemma CallerKeepsSizes(s: State, e: CallerEvent)
    requires CallerEnabled(s, e) && SizesKept(s)
    ensures SizesKept(ApplyCaller(s, e))
  {
    CallerLeaves(s, e);
  }

  lemma PopKeepsSizes(s: State)
    requires s.render.Using? && SizesKept(s)
    ensures SizesKept(ApplyRenderPop(s))
  {
  }

  lemma ProcessKeepsSizes(s: State)
    requires s.render.TagSeen? && SizesKept(s)
    ensures SizesKept(ApplyRenderProcess(s))
  {
  }

  lemma RenderKeepsSizes(s: State, e: RenderEvent)
    requires RenderEnabled(s, e) && SizesKept(s)
    ensures SizesKept(ApplyRender(s, e))
  {
    if e.RenderPop? {
      PopKeepsSizes(s);
    } else if e.RenderProcess? {
      ProcessKeepsSizes(s);
    } else {
      assert ApplyRender(s, e).pipelines.slots == s.pipelines.slots;
    }
  }

  lemma PushKeepsSizes(s: State)
    requires s.worker.pc.Pushing? && WorkerInv(s) && SizesKept(s)
    ensures SizesKept(ApplyWorkerPush(s))
  {
  }

  lemma RebuildKeepsSizes(s: State)
    requires s.worker.pc.Rebuilding? && s.worker.pc.slot < |s.pipelines.slots| && SizesKept(s)
    ensures SizesKept(ApplyWorkerRebuild(s))
  {
  }

  lemma ReadKeepsSizes(s: State, outcome: ReadOutcome)
    requires SizesKept(s)
    ensures SizesKept(ApplyWorkerRead(s, outcome))
  {
  }

  lemma WorkerLeavesSlots(s: State, e: WorkerEvent)
    requires WorkerEnabled(s, e) && !e.WorkerPush? && !e.WorkerRebuild? && !e.WorkerRead?
    ensures ApplyWorker(s, e).pipelines.slots == s.pipelines.slots
  {
  }

  /** What the invariant says of a worker that is about to build. */
  ghost predicate Sourced(pc: WorkerPc, j: Job) {
    (pc.Opened? ==> j.request.generation > 0) && (pc.Sought? ==> HasOpened(j))
  }

  lemma WorkerIsSourced(s: State)
    requires WorkerInv(s)
    ensures Sourced(s.worker.pc, s.worker.job)
  {
  }

  /** The steps that come to build a pipeline, or take a request for one. */
  predicate GoesToBuild(e: WorkerEvent) {
    e.WorkerWake? || e.WorkerConfirmOpen? || e.WorkerConfirmSeek? || e.WorkerLoadPublished? || e.WorkerLoadHazard?
  }

  lemma BuilderBuildsForSome(s: State, e: WorkerEvent)
    requires WorkerEnabled(s, e) && Sourced(s.worker.pc, s.worker.job) && BuildsForSome(s.worker.pc, s.worker.job)
    requires GoesToBuild(e)
    ensures BuildsForSome(ApplyWorker(s, e).worker.pc, ApplyWorker(s, e).worker.job)
  {
  }

  lemma OthersBuildNothing(s: State, e: WorkerEvent)
    requires WorkerEnabled(s, e) && BuildsForSome(s.worker.pc, s.worker.job) && !GoesToBuild(e)
    ensures BuildsForSome(ApplyWorker(s, e).worker.pc, ApplyWorker(s, e).worker.job)
  {
  }

  lemma WorkerBuildsForSome(s: State, e: WorkerEvent)
    requires WorkerEnabled(s, e) && Sourced(s.worker.pc, s.worker.job) && BuildsForSome(s.worker.pc, s.worker.job)
    ensures BuildsForSome(ApplyWorker(s, e).worker.pc, ApplyWorker(s, e).worker.job)
  {
    if GoesToBuild(e) { BuilderBuildsForSome(s, e); } else { OthersBuildNothing(s, e); }
  }

  lemma WorkerKeepsSizes(s: State, e: WorkerEvent)
    requires WorkerEnabled(s, e) && WorkerInv(s) && SizesKept(s)
    ensures SizesKept(ApplyWorker(s, e))
  {
    WorkerLeaves(s, e);
    if e.WorkerPush? {
      PushKeepsSizes(s);
    } else if e.WorkerRebuild? {
      RebuildKeepsSizes(s);
    } else if e.WorkerRead? {
      ReadKeepsSizes(s, e.read);
    } else {
      WorkerIsSourced(s);
      WorkerBuildsForSome(s, e);
      WorkerLeavesSlots(s, e);
    }
  }

  lemma InitHasSizes(autoPlay: bool, controls: Controls)
    ensures SizesKept(Init(autoPlay, controls))
  {
  }

  lemma {:induction false} RunKeepsSizes(r: Run, i: nat)
    requires r.Valid() && i < |r.states|
    ensures SizesKept(r.states[i])
  {
    if i == 0 {
      InitHasSizes(r.autoPlay, r.controls);
    } else {
      RunKeepsSizes(r, i - 1);
      RunKeepsInv(r, i - 1);
      assert StepsAt(r.states, r.events, i - 1);
      match r.events[i - 1]
      case Call(e) => CallerKeepsSizes(r.states[i - 1], e);
      case Callback(e) => RenderKeepsSizes(r.states[i - 1], e);
      case Work(e) => WorkerKeepsSizes(r.states[i - 1], e);
    }
  }

  // ------------------------------------------------------------------------ freshness

  /** A callback past its check of a tag has a block of a generation, and of a seek, that was the session's
      when it checked; `n` is the session when it began. */
  predicate Checked(n: Session, r: Render) {
    && (r.GenerationSeen? || r.TagSeen? || r.Processed? ==> n.generation <= r.block.tag.generation)
    && (r.TagSeen? || r.Processed? ==> n.seek <= r.block.tag.seek)
  }

  lemma RenderKeepsChecked(n: Session, s: State, e: RenderEvent)
    requires RenderEnabled(s, e) && n.generation <= s.session.generation && n.seek <= s.session.seek
    requires Checked(n, s.render)
    ensures Checked(n, ApplyRender(s, e).render)
  {
  }

  predicate NumbersGrow(s: State, t: State) {
    s.session.generation <= t.session.generation && s.session.seek <= t.session.seek
  }

  lemma CallerGrows(s: State, e: CallerEvent)
    requires CallerEnabled(s, e)
    ensures NumbersGrow(s, ApplyCaller(s, e))
  {
  }

  lemma RenderGrows(s: State, e: RenderEvent)
    requires RenderEnabled(s, e)
    ensures NumbersGrow(s, ApplyRender(s, e))
  {
  }

  lemma WorkerGrows(s: State, e: WorkerEvent)
    requires WorkerEnabled(s, e)
    ensures NumbersGrow(s, ApplyWorker(s, e))
  {
  }

  lemma StepChecks(r: Run, k: nat, i: nat)
    requires r.Valid() && k <= i < |r.events| && NumbersGrow(r.states[k], r.states[i])
    requires Checked(r.states[k].session, r.states[i].render)
    ensures NumbersGrow(r.states[k], r.states[i + 1]) && Checked(r.states[k].session, r.states[i + 1].render)
  {
    var s := r.states[i];
    assert StepsAt(r.states, r.events, i);
    match r.events[i] {
      case Call(e) => CallerGrows(s, e); CallerLeaves(s, e);
      case Callback(e) => RenderGrows(s, e); RenderKeepsChecked(r.states[k].session, s, e);
      case Work(e) => WorkerGrows(s, e); WorkerLeaves(s, e);
    }
  }

  lemma {:induction false} CallbackChecks(r: Run, k: nat, i: nat)
    requires r.Valid() && k < i < |r.states| && Begins(r.events[k])
    ensures NumbersGrow(r.states[k], r.states[i]) && Checked(r.states[k].session, r.states[i].render)
    decreases i
  {
    if i == k + 1 {
      assert StepsAt(r.states, r.events, k);
      BeginChecksNothing(r.states[k], r.events[k].step);
    } else {
      CallbackChecks(r, k, i - 1);
      StepChecks(r, k, i - 1);
    }
  }

  lemma BeginChecksNothing(s: State, e: RenderEvent)
    requires RenderEnabled(s, e) && e.RenderBegin?
    ensures var t := ApplyRender(s, e); NumbersGrow(s, t) && !t.render.HasBlock()
  {
  }

  // ------------------------------------------------------------------------- theorems

  /** A callback with a block in hand began while the session was told to play and had a source; the block
      fills the buffer it began with, which is not empty; and once it has checked the block's tag, that is of no older
      source and no older seek than the session's when it began. */
  lemma CallbackPlaysWhatItBeganFor(r: Run, i: nat) returns (k: nat)
    requires r.Valid() && i < |r.states| && r.states[i].render.HasBlock()
    ensures k < i && Begins(r.events[k]) && forall m :: k < m < i ==> !Begins(r.events[m])
    ensures r.states[k].session.intent && r.states[k].session.requestedUri != ""
    ensures r.events[k].step.frameCount > 0 && r.events[k].step.format.channels > 0
    ensures r.states[i].render.block.sampleCount
         == r.events[k].step.frameCount * r.events[k].step.format.channels
    ensures Checked(r.states[k].session, r.states[i].render)
  {
    k := CallbackBegan(r, i);
    RunKeepsSizes(r, i);
    CallbackChecks(r, k, i);
  }

  /** What tells the session to play: a play, or a load. */
  predicate MayPlay(e: Event) { e.Call? && (e.call.Play? || e.call.Load?) }

  lemma {:induction false} StaysPaused(r: Run, p: nat, i: nat)
    requires r.Valid() && p < i < |r.states| && r.events[p] == Call(Pause)
    requires forall m :: p < m < i ==> !MayPlay(r.events[m])
    ensures !r.states[i].session.intent
    decreases i
  {
    StepMovesFlags(r, i - 1);
    if i > p + 1 { StaysPaused(r, p, i - 1); }
  }

  /** A pause is obeyed: a callback that begins after a pause, with no play and no load between, never has
      a block in hand, so it pops nothing, processes nothing and commits nothing. */
  lemma PausedCallbackIsSilent(r: Run, p: nat, k: nat, i: nat)
    requires r.Valid() && p < k < i < |r.states| && r.events[p] == Call(Pause)
    requires Begins(r.events[k]) && forall m :: k < m < i ==> !Begins(r.events[m])
    requires forall m :: p < m < k ==> !MayPlay(r.events[m])
    ensures !r.states[i].render.HasBlock()
  {
    StaysPaused(r, p, k);
    if InProgress(r.states[i].render) {
      var b := CallbackBegan(r, i);
      assert b == k;
      RunKeepsSizes(r, i);
    }
  }

  /** A callback pops only from a pipeline built for its own format and frame count, and takes the oldest
      block. */
  lemma PopSuitsTheBuffer(r: Run, i: nat) returns (k: nat)
    requires r.Valid() && i < |r.events| && r.events[i] == Callback(RenderPop) && r.states[i + 1].render.Popped?
    ensures k < i && Begins(r.events[k]) && forall m :: k < m < i ==> !Begins(r.events[m])
    ensures
      var s, t := r.states[i], r.states[i + 1];
      && s.render.Using? && HasPayload(s.pipelines, s.render.held) && HasPayload(t.pipelines, t.render.held)
      && var p, q := PayloadOf(s.pipelines, s.render.held), PayloadOf(t.pipelines, t.render.held);
         && p.format == r.events[k].step.format && p.frameCount == r.events[k].step.frameCount
         && p.queue == [t.render.block] + q.queue && q.popped == p.popped + [t.render.block]
  {
    assert StepsAt(r.states, r.events, i);
    k := CallbackBegan(r, i);
  }

  /** Version gating does no harm: whatever edits and republications there have been, a chain processes a
      block with the settings and the headroom the session had when the callback began. */
  lemma ChainPlaysSettingsOfBegin(r: Run, i: nat) returns (k: nat)
    requires r.Valid() && i < |r.events| && r.events[i] == Callback(RenderProcess)
    ensures k < i && Begins(r.events[k]) && forall m :: k < m < i ==> !Begins(r.events[m])
    ensures
      var t := r.states[i + 1];
      && HasPayload(t.pipelines, t.render.Held())
      && PayloadOf(t.pipelines, t.render.Held()).target == LastControls(r.controls, r.events[..k])
      && PayloadOf(t.pipelines, t.render.Held()).headroom == r.states[k].session.headroom
  {
    assert StepsAt(r.states, r.events, i);
    GatingEqualsUnconditionalUpdate(r, i);
    k := CallbackBegan(r, i);
    SettingsAreTold(r, k);
  }
}
