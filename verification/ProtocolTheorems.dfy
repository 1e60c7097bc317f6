/** What every run of the playback session guarantees. */
module ProtocolTheorems {
  import opened Wrappers
  import opened ProtocolState
  import opened ProtocolSteps
  import opened ProtocolInvariant
  import opened ProtocolProofs

  lemma StepKeepsInv(s: State, e: Event)
    requires Inv(s) && Enabled(s, e)
    ensures Inv(Apply(s, e))
  {
    match e
    case Call(call) => CallerKeepsInv(s, call);
    case Callback(step) => RenderKeepsInv(s, step);
    case Work(work) => WorkerKeepsInv(s, work);
  }

  lemma InitKeepsInv(autoPlay: bool, controls: Controls)
    ensures Inv(Init(autoPlay, controls))
  {
  }

  /** Every state of every run satisfies the invariant. */
  lemma {:induction false} RunKeepsInv(r: Run, i: nat)
    requires r.Valid() && i < |r.states|
    ensures Inv(r.states[i])
  {
    if i == 0 {
      InitKeepsInv(r.autoPlay, r.controls);
    } else {
      RunKeepsInv(r, i - 1);
      assert StepsAt(r.states, r.events, i - 1);
      StepKeepsInv(r.states[i - 1], r.events[i - 1]);
    }
  }

  // ---------------------------------------------------------------- provenance

  /** `b` was read from a decoder opened on the session's present source, after the seek
      issued for the session's present seek sequence. */
  ghost predicate ReadForPresent(s: State, b: Block) {
    && b.source == s.session.sourceUri == s.session.requestedUri
    && b.standing.At? && b.standing.seek == s.session.seek
    && (s.session.seek == 0 ==> b.standing.target == 0)
    && s.session.seek < |s.history.seekTargets|
    && (b.standing.target == s.history.seekTargets[s.session.seek] || b.standing.target == 0)
  }

  /** The parts of the public playback state that a block can determine. */
  function Timeline(s: State): (int, int, nat) {
    (s.session.position, s.session.duration, s.session.completions)
  }

  /** What a commit does: it puts its block's place on the timeline, or nothing. */
  ghost predicate CommitsOrNot(s: State, locked: bool, t: State)
    requires s.render.Processed?
  {
    var b := s.render.block;
    if locked && Commits(s) then
      && ReadForPresent(t, b)
      && Timeline(t) == (if b.endOfStream then b.duration else b.position, b.duration,
                         s.session.completions + if b.endOfStream then 1 else 0)
      && (t.session.reachedEnd <==> b.endOfStream || s.session.reachedEnd)
    else t.session == s.session
  }

  lemma CommitStep(s: State, locked: bool)
    requires Inv(s) && s.render.Processed?
    ensures CommitsOrNot(s, locked, ApplyRenderCommit(s, locked))
  {
    if locked && Commits(s) {
      assert Genuine(s.history, s.render.block);
    }
  }

  /** Whatever a callback commits comes from the present source and seek; and a callback that
      takes the lock commits exactly when its block's tag is the present one. */
  lemma CommitIsCurrent(r: Run, i: nat, locked: bool)
    requires r.Valid() && i < |r.events| && r.events[i] == Callback(RenderCommit(locked))
    ensures r.states[i].render.Processed? && CommitsOrNot(r.states[i], locked, r.states[i + 1])
  {
    RunKeepsInv(r, i);
    assert StepsAt(r.states, r.events, i);
    CommitStep(r.states[i], locked);
  }

  /** An event that may move the timeline. */
  ghost predicate MovesTimeline(s: State, e: Event) {
    || (e.Call? && (e.call.Load? || e.call.SeekTo?))
    || (e.Work? && e.work.WorkerAnnounce? && Current(s) && s.decoder.Open? && s.decoder.source == s.session.sourceUri)
    || (e == Callback(RenderCommit(true)) && Commits(s))
  }

  lemma CallerMovesTimeline(s: State, e: CallerEvent)
    requires CallerEnabled(s, e) && Timeline(ApplyCaller(s, e)) != Timeline(s)
    ensures MovesTimeline(s, Call(e))
  {
  }

  lemma RenderMovesTimeline(s: State, e: RenderEvent)
    requires RenderEnabled(s, e) && Timeline(ApplyRender(s, e)) != Timeline(s)
    ensures MovesTimeline(s, Callback(e))
  {
  }

  lemma WorkerMovesTimeline(s: State, e: WorkerEvent)
    requires Inv(s) && WorkerEnabled(s, e) && Timeline(ApplyWorker(s, e)) != Timeline(s)
    ensures MovesTimeline(s, Work(e))
  {
    WorkerLeavesPosition(s, e);
    if !(e.WorkerAnnounce? && Current(s)) { WorkerLeavesDuration(s, e); }
  }

  /** Only a load, a seek, a pipeline announcement or a commit moves the timeline. */
  lemma OnlyCommandsAndCommitsMoveTimeline(r: Run, i: nat)
    requires r.Valid() && i < |r.events| && Timeline(r.states[i + 1]) != Timeline(r.states[i])
    ensures MovesTimeline(r.states[i], r.events[i])
  {
    RunKeepsInv(r, i);
    assert StepsAt(r.states, r.events, i);
    match r.events[i]
    case Call(e) => CallerMovesTimeline(r.states[i], e);
    case Callback(e) => RenderMovesTimeline(r.states[i], e);
    case Work(e) => WorkerMovesTimeline(r.states[i], e);
  }

  /** The seek a worker issues goes to the position recorded for its sequence, or to the start
      when its request came without one. */
  lemma SeekFollowsRequest(r: Run, i: nat)
    requires r.Valid() && i < |r.events| && r.events[i] == Work(WorkerSeek(OpenOk))
    ensures
      var s, t := r.states[i], r.states[i + 1];
      var q := s.worker.job.request;
      && q.generation > 0 && q.seek < |s.history.seekTargets|
      && t.decoder.Open? && t.decoder.source == q.uri
      && t.decoder.standing == At(q.seek, if q.target.Some? then s.history.seekTargets[q.seek] else 0)
  {
    RunKeepsInv(r, i);
    assert StepsAt(r.states, r.events, i);
  }

  // ------------------------------------------------------------- status and headroom

  /** The session says that it plays although it was told not to. */
  predicate PlaysUnasked(n: Session) { n.status == StatusPlaying && !n.intent }

  lemma CallerStopsPlaying(s: State, e: CallerEvent)
    requires CallerEnabled(s, e) && PlaysUnasked(ApplyCaller(s, e).session)
    ensures PlaysUnasked(s.session)
  {
  }

  lemma WorkerStopsPlaying(s: State, e: WorkerEvent)
    requires WorkerEnabled(s, e) && PlaysUnasked(ApplyWorker(s, e).session)
    ensures PlaysUnasked(s.session)
  {
  }

  lemma RenderPlaysUnasked(s: State, e: RenderEvent)
    requires RenderEnabled(s, e) && !PlaysUnasked(s.session)
    ensures PlaysUnasked(ApplyRender(s, e).session) <==>
              e == RenderCommit(true) && Commits(s) && !s.render.block.endOfStream && !s.session.intent
  {
  }

  /** The status comes to say that the session plays unasked exactly when a block other than the
      last one of its source is committed while the session is told not to play. */
  lemma PauseIsOverwritten(r: Run, i: nat)
    requires r.Valid() && i < |r.events| && !PlaysUnasked(r.states[i].session)
    ensures
      var s := r.states[i];
      PlaysUnasked(r.states[i + 1].session) <==>
        r.events[i] == Callback(RenderCommit(true)) && Commits(s) && !s.render.block.endOfStream && !s.session.intent
  {
    assert StepsAt(r.states, r.events, i);
    var s := r.states[i];
    match r.events[i] {
      case Call(e) => if PlaysUnasked(r.states[i + 1].session) { CallerStopsPlaying(s, e); }
      case Callback(e) => RenderPlaysUnasked(s, e);
      case Work(e) => if PlaysUnasked(r.states[i + 1].session) { WorkerStopsPlaying(s, e); }
    }
  }

  /** The stored headroom is the one last computed from the bands. */
  predicate HeadroomAgrees(n: Session) { n.headroom == n.computed }

  lemma CallerKeepsAgreement(s: State, e: CallerEvent)
    requires CallerEnabled(s, e) && HeadroomAgrees(s.session)
    ensures HeadroomAgrees(ApplyCaller(s, e).session)
  {
  }

  lemma WorkerKeepsAgreement(s: State, e: WorkerEvent)
    requires WorkerEnabled(s, e) && HeadroomAgrees(s.session)
    ensures HeadroomAgrees(ApplyWorker(s, e).session)
  {
  }

  lemma RenderLosesAgreement(s: State, e: RenderEvent)
    requires RenderEnabled(s, e) && HeadroomAgrees(s.session)
    ensures !HeadroomAgrees(ApplyRender(s, e).session) <==>
              e == RenderCommit(true) && Commits(s) && HeadroomHeld(s) != s.session.computed
  {
  }

  /** The stored headroom comes to differ from the one last computed exactly when a commit stores
      that of a chain which was given another one; and then the settings have changed since that
      callback began. */
  lemma HeadroomIsOverwritten(r: Run, i: nat)
    requires r.Valid() && i < |r.events| && HeadroomAgrees(r.states[i].session)
    ensures
      var s := r.states[i];
      && (!HeadroomAgrees(r.states[i + 1].session) <==>
            r.events[i] == Callback(RenderCommit(true)) && Commits(s) && HeadroomHeld(s) != s.session.computed)
      && (!HeadroomAgrees(r.states[i + 1].session) ==> s.render.snap.version < s.session.version)
  {
    RunKeepsInv(r, i);
    assert StepsAt(r.states, r.events, i);
    var s := r.states[i];
    match r.events[i] {
      case Call(e) => CallerKeepsAgreement(s, e);
      case Callback(e) =>
        RenderLosesAgreement(s, e);
        if e.RenderCommit? { CommitKeepsHeadroom(s, e.locked); }
      case Work(e) => WorkerKeepsAgreement(s, e);
    }
  }

  // ------------------------------------------------------------ slot exclusion

  /** The worker never rebuilds the pipeline a callback holds, nor the one it could still
      validate, and what a callback holds is always built. */
  lemma RebuildExcludesHolder(r: Run, i: nat)
    requires r.Valid() && i < |r.states|
    ensures
      var s := r.states[i];
      && (s.render.Held().Some? ==> HasPayload(s.pipelines, s.render.Held()))
      && (s.worker.pc.Rebuilding? ==>
            && s.render.Held() != Some(s.worker.pc.slot)
            && s.pipelines.published != Some(s.worker.pc.slot))
  {
    RunKeepsInv(r, i);
  }

  lemma RenderKeepsHolding(s: State, e: RenderEvent)
    requires RenderEnabled(s, e) && s.render.Held().Some? && ApplyRender(s, e).render.Held().Some?
    ensures ApplyRender(s, e).render.Held() == s.render.Held()
  {
  }

  /** What a callback holds at `s` it holds at `t`, and it is the same build. */
  ghost predicate HoldsOn(s: State, t: State) {
    var k := s.render.Held();
    && t.render.Held() == k && HasPayload(s.pipelines, k) && HasPayload(t.pipelines, k)
    && PayloadOf(t.pipelines, k).build == PayloadOf(s.pipelines, k).build
  }

  lemma CallerHoldsOn(s: State, e: CallerEvent)
    requires Inv(s) && CallerEnabled(s, e) && s.render.Held().Some?
    ensures HoldsOn(s, ApplyCaller(s, e))
  {
    CallerLeaves(s, e);
  }

  lemma RenderHoldsOn(s: State, e: RenderEvent)
    requires Inv(s) && RenderEnabled(s, e) && s.render.Held().Some? && ApplyRender(s, e).render.Held().Some?
    ensures HoldsOn(s, ApplyRender(s, e))
  {
    RenderKeepsHolding(s, e);
    RenderDisturbsNothing(s, e);
  }

  lemma WorkerHoldsOn(s: State, e: WorkerEvent)
    requires Inv(s) && WorkerEnabled(s, e) && s.render.Held().Some?
    ensures HoldsOn(s, ApplyWorker(s, e))
  {
    WorkerLeaves(s, e);
    WorkerSparesHeld(s, e);
  }

  lemma StepHoldsOn(r: Run, i: nat)
    requires r.Valid() && i < |r.events| && r.states[i].render.Held().Some? && r.states[i + 1].render.Held().Some?
    ensures HoldsOn(r.states[i], r.states[i + 1])
  {
    RunKeepsInv(r, i);
    assert StepsAt(r.states, r.events, i);
    match r.events[i]
    case Call(e) => CallerHoldsOn(r.states[i], e);
    case Callback(e) => RenderHoldsOn(r.states[i], e);
    case Work(e) => WorkerHoldsOn(r.states[i], e);
  }

  /** From a validated acquire to the release the callback uses one and the same build of its
      pipeline, whatever the worker and the callers do meanwhile. */
  lemma {:induction false} HeldPayloadIsNeverReplaced(r: Run, i: nat, j: nat)
    requires r.Valid() && i <= j < |r.states|
    requires forall m :: i <= m <= j ==> r.states[m].render.Held().Some?
    ensures r.states[j].render.Held() == r.states[i].render.Held()
    ensures
      var k := r.states[i].render.Held();
      && HasPayload(r.states[i].pipelines, k) && HasPayload(r.states[j].pipelines, k)
      && PayloadOf(r.states[i].pipelines, k).build == PayloadOf(r.states[j].pipelines, k).build
    decreases j - i
  {
    if i < j {
      HeldPayloadIsNeverReplaced(r, i + 1, j);
      StepHoldsOn(r, i);
    } else {
      RunKeepsInv(r, i);
    }
  }

  /** A free slot always exists among the three, and no null pipeline is ever dereferenced. */
  lemma NoSlotFailure(r: Run, i: nat)
    requires r.Valid() && i < |r.states|
    ensures !r.states[i].worker.pc.NoFreeSlot? && !r.states[i].worker.pc.NullPipeline?
            && !r.states[i].render.NullAccess?
  {
    RunKeepsInv(r, i);
  }

  lemma CallerKeepsClosed(s: State, e: CallerEvent)
    requires CallerEnabled(s, e) && s.closer == CloseReturned && s.session.closed
    ensures ApplyCaller(s, e).closer == CloseReturned
  {
  }

  lemma {:induction false} CloseReturnIsFinal(r: Run, i: nat, j: nat)
    requires r.Valid() && i <= j < |r.states| && r.states[i].closer == CloseReturned
    ensures r.states[j].closer == CloseReturned
    decreases j - i
  {
    if i < j {
      var s := r.states[i];
      assert StepsAt(r.states, r.events, i);
      RunKeepsInv(r, i);
      match r.events[i] {
        case Call(e) => CallerKeepsClosed(s, e);
        case Callback(e) => RenderLeaves(s, e);
        case Work(e) => WorkerLeaves(s, e);
      }
      CloseReturnIsFinal(r, i + 1, j);
    }
  }

  /** Once `close` has returned no callback holds a pipeline, then or ever after. */
  lemma NothingHeldAfterClose(r: Run, i: nat, j: nat)
    requires r.Valid() && i <= j < |r.states| && r.states[i].closer == CloseReturned
    ensures r.states[j].render.Held() == None && r.states[j].pipelines.published == None
  {
    CloseReturnIsFinal(r, i, j);
    RunKeepsInv(r, j);
  }

  /** The same session but for its equalizer and volume settings. */
  predicate SameButControls(m: Session, n: Session) {
    n == m.(version := n.version, controls := n.controls, headroom := n.headroom, computed := n.computed)
  }

  lemma CallerLeavesClosed(s: State, e: CallerEvent)
    requires CallerEnabled(s, e) && s.session.closed && s.session.shuttingDown
    ensures SameButControls(s.session, ApplyCaller(s, e).session)
    ensures !e.EditControls? ==> ApplyCaller(s, e).session == s.session
  {
  }

  lemma RenderLeavesClosed(s: State, e: RenderEvent)
    requires RenderEnabled(s, e) && s.session.shuttingDown
    ensures ApplyRender(s, e).session == s.session
  {
  }

  lemma WorkerLeavesClosed(s: State, e: WorkerEvent)
    requires WorkerEnabled(s, e) && s.session.shuttingDown
    ensures ApplyWorker(s, e).session == s.session
  {
  }

  /** From the moment a close begins no callback commits, no worker reports and no command is carried out:
      only the equalizer and volume settings of the session still change. */
  lemma {:induction false} ClosingFreezesSession(r: Run, i: nat, j: nat)
    requires r.Valid() && i <= j < |r.states| && r.states[i].session.shuttingDown
    ensures SameButControls(r.states[i].session, r.states[j].session)
    decreases j - i
  {
    if i < j {
      ClosingFreezesSession(r, i, j - 1);
      var s := r.states[j - 1];
      assert StepsAt(r.states, r.events, j - 1);
      RunKeepsInv(r, j - 1);
      match r.events[j - 1]
      case Call(e) => CallerLeavesClosed(s, e);
      case Callback(e) => RenderLeavesClosed(s, e);
      case Work(e) => WorkerLeavesClosed(s, e);
    }
  }

  // ---------------------------------------------------------------- stale work

  /** A slot that callbacks can come by: the published one, and the one in the hands of a callback. */
  predicate Reached(s: State, k: nat) { Some(k) == s.pipelines.published || Some(k) == s.render.Held() }

  /** The same pipeline for all a callback sees of it. */
  predicate LooksTheSame(p: Option<Payload>, q: Option<Payload>) {
    p.Some? ==> q.Some? && q.value == p.value.(read := q.value.read)
  }

  lemma WorkerKeepsSlotCount(s: State, e: WorkerEvent)
    requires WorkerEnabled(s, e)
    ensures |ApplyWorker(s, e).pipelines.slots| == |s.pipelines.slots|
  {
  }

  lemma WorkerLeavesReached(s: State, e: WorkerEvent, k: nat)
    requires RebuildInv(s.pipelines, s.render, s.worker.pc) && WorkerEnabled(s, e) && !Current(s)
    requires k < |s.pipelines.slots| == |ApplyWorker(s, e).pipelines.slots| && Reached(s, k)
    ensures LooksTheSame(s.pipelines.slots[k], ApplyWorker(s, e).pipelines.slots[k])
  {
  }

  lemma StaleWorkerLeavesSession(s: State, e: WorkerEvent)
    requires WorkerEnabled(s, e) && !Current(s) && !e.WorkerThrow?
    ensures
      var t := ApplyWorker(s, e);
      t.session == s.session && t.pipelines.published == s.pipelines.published && t.history == s.history
  {
  }

  /** What the worker does for a request that is no longer current nobody sees: it changes neither the session
      nor which pipeline is published nor what is queued there or in the hands of a callback. */
  lemma StaleWorkIsInvisible(r: Run, i: nat)
    requires r.Valid() && i < |r.events| && r.events[i].Work? && !r.events[i].work.WorkerThrow?
    requires !Current(r.states[i])
    ensures
      var s, t := r.states[i], r.states[i + 1];
      && t.session == s.session && t.pipelines.published == s.pipelines.published
      && |t.pipelines.slots| == |s.pipelines.slots|
      && forall k :: 0 <= k < |s.pipelines.slots| && Reached(s, k) ==>
           LooksTheSame(s.pipelines.slots[k], t.pipelines.slots[k])
  {
    var s, e := r.states[i], r.events[i].work;
    RunKeepsInv(r, i);
    assert StepsAt(r.states, r.events, i);
    StaleWorkerLeavesSession(s, e);
    WorkerKeepsSlotCount(s, e);
    forall k | 0 <= k < |s.pipelines.slots| && Reached(s, k)
      ensures LooksTheSame(s.pipelines.slots[k], r.states[i + 1].pipelines.slots[k])
    {
      WorkerLeavesReached(s, e, k);
    }
  }

  // --------------------------------------------------------------- no lost block

  /** Every push the decode loop attempts for a current request succeeds. */
  lemma PushSucceeds(r: Run, i: nat)
    requires r.Valid() && i < |r.events| && r.events[i] == Work(WorkerPush) && Current(r.states[i])
    ensures
      var s, t := r.states[i], r.states[i + 1];
      var k := s.worker.job.pipeline;
      && s.worker.pc.Pushing? && HasPayload(s.pipelines, k) && HasPayload(t.pipelines, k)
      && PayloadOf(t.pipelines, k).queue == PayloadOf(s.pipelines, k).queue + [s.worker.pc.block]
      && |PayloadOf(t.pipelines, k).queue| <= QUEUE_SLOTS
  {
    RunKeepsInv(r, i);
    assert StepsAt(r.states, r.events, i);
  }

  /** Blocks leave a pipeline in the order they were read for it, none skipped. */
  lemma PoppedIsPrefixOfRead(r: Run, i: nat, k: nat)
    requires r.Valid() && i < |r.states| && HasPayload(r.states[i].pipelines, Some(k))
    ensures
      var p := PayloadOf(r.states[i].pipelines, Some(k));
      p.popped + p.queue == p.pushed && p.pushed <= p.read && p.popped <= p.read
  {
    RunKeepsInv(r, i);
    assert PayloadInv(r.states[i].history, r.states[i].pipelines.slots[k].value);
  }

  // ---------------------------------------------------------------- cancellation

  /** While the session lives, the epoch it requested last is the decoder's own. */
  lemma EpochsAgree(r: Run, i: nat)
    requires r.Valid() && i < |r.states| && !r.states[i].session.shuttingDown
    ensures r.states[i].session.epoch == r.states[i].decoderEpoch
  {
    RunKeepsInv(r, i);
  }

  /** A decoder failure caused by an epoch change never becomes a source error. */
  lemma CancellationNeverSurfaces(r: Run, i: nat)
    requires r.Valid() && i < |r.states|
    ensures r.states[i].session.sourceError != Some(Cancelled)
  {
    RunKeepsInv(r, i);
  }

  // ------------------------------------------------------------- version gating

  /** Updating the chain only on a new version gives it the settings of unconditional updating:
      what it processes with is what this callback snapshotted under the lock, headroom included. */
  lemma GatingEqualsUnconditionalUpdate(r: Run, i: nat)
    requires r.Valid() && i < |r.events| && r.events[i] == Callback(RenderProcess)
    ensures
      var s, t := r.states[i], r.states[i + 1];
      && s.render.TagSeen? && HasPayload(t.pipelines, t.render.Held())
      && PayloadOf(t.pipelines, t.render.Held()).target == s.render.snap.controls
      && PayloadOf(t.pipelines, t.render.Held()).headroom == s.render.snap.headroom
      && s.render.snap.version < |s.history.controls|
      && s.render.snap.controls == s.history.controls[s.render.snap.version]
  {
    RunKeepsInv(r, i);
    var s := r.states[i];
    assert StepsAt(r.states, r.events, i);
    assert PayloadInv(s.history, s.pipelines.slots[s.render.held.value].value);
    assert ChainInv(s.session, s.render, s.pipelines.slots[s.render.held.value].value);
  }
}
