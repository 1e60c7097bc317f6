/** When the decode worker rests: nothing is read past the end of a source, no failed request is tried
    again, and a worker that rests has served what is asked for, but for one case. */
module ProtocolRest {
  import opened Wrappers
  import opened ProtocolState
  import opened ProtocolSteps
  import opened ProtocolInvariant
  import opened ProtocolProofs
  import opened ProtocolTheorems
  import opened ProtocolHistory

  // ------------------------------------------------------------------- the invariant

  predicate NoEnd(bs: seq<Block>) { forall j :: 0 <= j < |bs| ==> !bs[j].endOfStream }

  /** Only the last block may be the last one of its source. */
  predicate EndsLast(bs: seq<Block>) { forall j :: 0 <= j < |bs| - 1 ==> !bs[j].endOfStream }

  predicate HasEnded(bs: seq<Block>) { bs != [] && bs[|bs| - 1].endOfStream }

  predicate AllEndLast(p: Pipelines) {
    forall k :: 0 <= k < |p.slots| && p.slots[k].Some? ==> EndsLast(p.slots[k].value.read)
  }

  /** The latest failure was of the worker's source, at its seek or a later one; if at its own, in its own
      format and frame count. */
  predicate FailedHere(j: Job, seek: nat) {
    && j.failed.Some? && j.failed.value.generation == j.active.generation
    && j.active.seek <= j.failed.value.seek <= seek
    && (j.failed.value.seek == j.active.seek ==>
          j.failed.value.format == j.active.format && j.failed.value.frameCount == j.active.frameCount)
  }

  /** What the worker's flag of the end says of its published pipeline. */
  predicate EndSeen(j: Job, p: Pipelines, seek: nat) {
    HasPayload(p, p.published) ==>
      if j.endOfStream then HasEnded(PayloadOf(p, p.published).read) || FailedHere(j, seek)
      else NoEnd(PayloadOf(p, p.published).read)
  }

  /** Without a decoder the latest failure was of the worker's source. */
  predicate FailedClosed(j: Job, seek: nat) {
    && j.failed.Some? && j.failed.value.generation == j.active.generation
    && j.active.seek <= j.failed.value.seek <= seek
  }

  predicate FailedAt(j: Job) {
    && j.failed.Some?
    && (j.failed.value.generation, j.failed.value.seek) == (j.active.generation, j.active.seek)
  }

  /** A source that has failed where the worker stands counts as ended. */
  predicate FailedEnds(j: Job) {
    j.active.generation > 0 && FailedAt(j) ==> j.endOfStream
  }

  predicate Idles(pc: WorkerPc) { pc.Waiting? || pc.Checking? || pc.Seeking? || pc.SeekFailed? }

  predicate Decodes(pc: WorkerPc) { pc.Announcing? || pc.ClearingPending? || pc.Reading? || pc.ReadFailed? }

  ghost predicate EndInv(pc: WorkerPc, j: Job, d: Decoder, p: Pipelines, closing: bool, seek: nat) {
    && (pc.Publishing? && HasPayload(p, Some(pc.slot)) ==> PayloadOf(p, Some(pc.slot)).read == [])
    && (Decodes(pc) && HasPayload(p, j.pipeline) ==> !j.endOfStream && NoEnd(PayloadOf(p, j.pipeline).read))
    && (pc.Pushing? && HasPayload(p, j.pipeline) ==> !j.endOfStream && NoEnd(PayloadOf(p, j.pipeline).pushed))
    && FailedEnds(j)
    && (Idles(pc) && j.active.generation > 0 && d.Open? && !closing ==> EndSeen(j, p, seek))
    && (Idles(pc) && j.active.generation > 0 && d.Closed? ==> FailedClosed(j, seek))
  }

  ghost predicate RestInv(s: State) {
    && AllEndLast(s.pipelines)
    && EndInv(s.worker.pc, s.worker.job, s.decoder, s.pipelines, s.session.shuttingDown, s.session.seek)
  }

  // ---------------------------------------------------------------------- its steps

  /** What callers and callbacks leave to the worker. */
  ghost predicate LeftAlone(s: State, t: State) {
    && t.worker == s.worker && t.decoder == s.decoder && s.session.seek <= t.session.seek
    && (s.session.shuttingDown ==> t.session.shuttingDown)
    && (t.session.shuttingDown || t.pipelines.published == s.pipelines.published)
    && |t.pipelines.slots| == |s.pipelines.slots|
    && forall k :: 0 <= k < |t.pipelines.slots| && t.pipelines.slots[k].Some? ==>
         s.pipelines.slots[k].Some? && SameTraffic(s.pipelines.slots[k].value, t.pipelines.slots[k].value)
  }

  predicate SameTraffic(p: Payload, q: Payload) { q.read == p.read && q.pushed == p.pushed }

  lemma RestSurvives(s: State, t: State)
    requires RestInv(s) && LeftAlone(s, t)
    ensures RestInv(t)
  {
    forall k | 0 <= k < |t.pipelines.slots| && t.pipelines.slots[k].Some?
      ensures EndsLast(t.pipelines.slots[k].value.read)
    {
      assert EndsLast(s.pipelines.slots[k].value.read);
    }
  }

  lemma CallerLeavesAlone(s: State, e: CallerEvent)
    requires SessionInv(s) && CallerEnabled(s, e)
    ensures LeftAlone(s, ApplyCaller(s, e))
  {
    CallerLeaves(s, e);
    CallerDisturbsNothing(s, e);
  }

  lemma PopLeavesAlone(s: State)
    requires s.render.Using?
    ensures LeftAlone(s, ApplyRenderPop(s))
  {
  }

  lemma ProcessLeavesAlone(s: State)
    requires s.render.TagSeen?
    ensures LeftAlone(s, ApplyRenderProcess(s))
  {
  }

  lemma RenderLeavesAlone(s: State, e: RenderEvent)
    requires RenderEnabled(s, e)
    ensures LeftAlone(s, ApplyRender(s, e))
  {
    if e.RenderPop? {
      PopLeavesAlone(s);
    } else if e.RenderProcess? {
      ProcessLeavesAlone(s);
    } else {
      RenderDisturbsNothing(s, e);
      assert ApplyRender(s, e).pipelines.slots == s.pipelines.slots;
    }
  }

  lemma WakeKeepsRest(s: State)
    requires Inv(s) && RestInv(s) && s.worker.pc.Waiting?
    ensures RestInv(ApplyWorkerWake(s))
  {
  }

  lemma OpenFailedKeepsRest(s: State)
    requires Inv(s) && RestInv(s) && s.worker.pc.OpenFailed?
    ensures RestInv(ApplyWorkerOpenFailed(s))
  {
  }

  lemma SeekFailedKeepsRest(s: State)
    requires Inv(s) && RestInv(s) && s.worker.pc.SeekFailed?
    ensures RestInv(ApplyWorkerSeekFailed(s))
  {
  }

  lemma ReadFailedKeepsRest(s: State)
    requires Inv(s) && RestInv(s) && s.worker.pc.ReadFailed?
    ensures RestInv(ApplyWorkerReadFailed(s))
  {
  }

  lemma RebuildKeepsRest(s: State)
    requires Inv(s) && RestInv(s) && s.worker.pc.Rebuilding? && s.worker.pc.slot < |s.pipelines.slots|
    ensures RestInv(ApplyWorkerRebuild(s))
  {
  }

  lemma PublishKeepsRest(s: State, headroom: real)
    requires Inv(s) && RestInv(s) && s.worker.pc.Publishing?
    ensures RestInv(ApplyWorkerPublish(s, headroom))
  {
  }

  lemma AnnounceKeepsRest(s: State, duration: int)
    requires Inv(s) && RestInv(s) && s.worker.pc.Announcing?
    ensures RestInv(ApplyWorkerAnnounce(s, duration))
  {
  }

  lemma ReadKeepsRest(s: State, outcome: ReadOutcome)
    requires Inv(s) && RestInv(s) && s.worker.pc.Reading?
    ensures RestInv(ApplyWorkerRead(s, outcome))
  {
  }

  lemma PushKeepsRest(s: State)
    requires Inv(s) && RestInv(s) && s.worker.pc.Pushing?
    ensures RestInv(ApplyWorkerPush(s))
  {
  }

  lemma CheckKeepsRest(s: State)
    requires RestInv(s) && s.worker.pc.Checking?
    ensures RestInv(Goto(s, if Current(s) then ClosingDecoder else Waiting))
  {
  }

  lemma OpenKeepsRest(s: State, outcome: OpenOutcome)
    requires Inv(s) && RestInv(s) && s.worker.pc.Opening?
    ensures RestInv(ApplyWorkerOpen(s, outcome))
  {
  }

  lemma ConfirmOpenKeepsRest(s: State)
    requires Inv(s) && RestInv(s) && s.worker.pc.Opened?
    ensures RestInv(ApplyWorkerConfirmOpen(s))
  {
  }

  lemma SeekKeepsRest(s: State, outcome: OpenOutcome)
    requires Inv(s) && RestInv(s) && s.worker.pc.Seeking?
    ensures RestInv(ApplyWorkerSeek(s, outcome))
  {
  }

  lemma ConfirmSeekKeepsRest(s: State)
    requires Inv(s) && RestInv(s) && s.worker.pc.Sought?
    ensures RestInv(ApplyWorkerConfirmSeek(s))
  {
  }

  lemma ClearPendingKeepsRest(s: State)
    requires Inv(s) && RestInv(s) && s.worker.pc.ClearingPending?
    ensures RestInv(ApplyWorkerClearPending(s))
  {
  }

  /** The steps that go from one point of an opening or a seek to the next, whatever they find. */
  predicate GoesOn(e: WorkerEvent) {
    e.WorkerCloseDecoder? || e.WorkerLoadPublished? || e.WorkerLoadHazard? || e.WorkerThrow? || e.WorkerExit?
  }

  lemma GoingOnKeepsRest(s: State, e: WorkerEvent)
    requires RestInv(s) && WorkerEnabled(s, e) && GoesOn(e)
    ensures RestInv(ApplyWorker(s, e))
  {
  }

  lemma WorkerKeepsRest(s: State, e: WorkerEvent)
    requires Inv(s) && RestInv(s) && WorkerEnabled(s, e)
    ensures RestInv(ApplyWorker(s, e))
  {
    if GoesOn(e) {
      GoingOnKeepsRest(s, e);
    } else {
      match e {
        case WorkerWake => WakeKeepsRest(s);
        case WorkerCheck => CheckKeepsRest(s);
        case WorkerOpen(outcome) => OpenKeepsRest(s, outcome);
        case WorkerOpenFailed => OpenFailedKeepsRest(s);
        case WorkerConfirmOpen => ConfirmOpenKeepsRest(s);
        case WorkerRebuild => RebuildKeepsRest(s);
        case WorkerPublish(headroom) => PublishKeepsRest(s, headroom);
        case WorkerAnnounce(duration) => AnnounceKeepsRest(s, duration);
        case WorkerSeek(outcome) => SeekKeepsRest(s, outcome);
        case WorkerSeekFailed => SeekFailedKeepsRest(s);
        case WorkerConfirmSeek => ConfirmSeekKeepsRest(s);
        case WorkerClearPending => ClearPendingKeepsRest(s);
        case WorkerRead(outcome) => ReadKeepsRest(s, outcome);
        case WorkerReadFailed => ReadFailedKeepsRest(s);
        case WorkerPush => PushKeepsRest(s);
      }
    }
  }

  lemma StepKeepsRest(s: State, e: Event)
    requires Inv(s) && RestInv(s) && Enabled(s, e)
    ensures RestInv(Apply(s, e))
  {
    match e {
      case Call(call) => CallerLeavesAlone(s, call); RestSurvives(s, ApplyCaller(s, call));
      case Callback(step) => RenderLeavesAlone(s, step); RestSurvives(s, ApplyRender(s, step));
      case Work(work) => WorkerKeepsRest(s, work);
    }
  }

  lemma InitRests(autoPlay: bool, controls: Controls)
    ensures RestInv(Init(autoPlay, controls))
  {
  }

  lemma {:induction false} RunKeepsRest(r: Run, i: nat)
    requires r.Valid() && i < |r.states|
    ensures RestInv(r.states[i])
  {
    if i == 0 {
      InitRests(r.autoPlay, r.controls);
    } else {
      RunKeepsRest(r, i - 1);
      RunKeepsInv(r, i - 1);
      assert StepsAt(r.states, r.events, i - 1);
      StepKeepsRest(r.states[i - 1], r.events[i - 1]);
    }
  }

  // ------------------------------------------------------------------------- theorems

  /** Nothing is read past the end of a source: of the blocks read for a pipeline at most the last one is
      the last one of its source, so a callback commits at most one end a pipeline. */
  lemma NothingIsReadPastTheEnd(r: Run, i: nat, k: nat)
    requires r.Valid() && i < |r.states| && HasPayload(r.states[i].pipelines, Some(k))
    ensures
      var p := PayloadOf(r.states[i].pipelines, Some(k));
      EndsLast(p.read) && EndsLast(p.popped) && (HasEnded(p.popped) ==> p.queue == [])
  {
    RunKeepsRest(r, i);
    PoppedIsPrefixOfRead(r, i, k);
  }

  /** A source that the worker could not open, or could not read, counts as ended until the session asks for
      something else: the worker does not read on. */
  lemma FailedSourceCountsAsEnded(r: Run, i: nat)
    requires r.Valid() && i < |r.states| && r.states[i].worker.job.active.generation > 0
    ensures FailedAt(r.states[i].worker.job) ==> r.states[i].worker.job.endOfStream
  {
    RunKeepsRest(r, i);
  }

  /** The worker publishes a pipeline. */
  predicate Publishes(s: State, e: Event) { e.Work? && e.work.WorkerPublish? && Current(s) }

  /** How a step moves the failure on record. */
  predicate FailureMoves(s: State, e: Event, t: State) {
    t.worker.job.failed == if SourceFails(s, e) then Some(Attempted(s.worker.job.request))
                           else if Publishes(s, e) then None else s.worker.job.failed
  }

  lemma WorkerMovesFailure(s: State, e: WorkerEvent)
    requires WorkerEnabled(s, e)
    ensures FailureMoves(s, Work(e), ApplyWorker(s, e))
  {
  }

  lemma StepMovesFailure(r: Run, i: nat)
    requires r.Valid() && i < |r.events|
    ensures FailureMoves(r.states[i], r.events[i], r.states[i + 1])
  {
    assert StepsAt(r.states, r.events, i);
    match r.events[i]
    case Call(e) => CallerLeaves(r.states[i], e);
    case Callback(e) => RenderLeaves(r.states[i], e);
    case Work(e) => WorkerMovesFailure(r.states[i], e);
  }

  /** The request that failed last, unless a pipeline has been published since. */
  function LastFailed(r: Run, i: nat): Option<Active>
    requires |r.states| == |r.events| + 1 && i <= |r.events|
  {
    if i == 0 then None
    else if SourceFails(r.states[i - 1], r.events[i - 1]) then Some(Attempted(r.states[i - 1].worker.job.request))
    else if Publishes(r.states[i - 1], r.events[i - 1]) then None
    else LastFailed(r, i - 1)
  }

  lemma {:induction false} FailureIsOnRecord(r: Run, i: nat)
    requires r.Valid() && i < |r.states|
    ensures r.states[i].worker.job.failed == LastFailed(r, i)
  {
    if i > 0 {
      FailureIsOnRecord(r, i - 1);
      StepMovesFailure(r, i - 1);
    }
  }

  /** How a decoder call of the worker fails. */
  function BadOutcome(e: Event): Option<Failure> {
    match e
    case Work(WorkerOpen(OpenBad(cause))) => Some(cause)
    case Work(WorkerSeek(OpenBad(cause))) => Some(cause)
    case Work(WorkerRead(ReadBad(cause))) => Some(cause)
    case _ => None
  }

  predicate HasFailed(pc: WorkerPc) { pc.OpenFailed? || pc.SeekFailed? || pc.ReadFailed? }

  /** The worker comes to report a failure. */
  predicate Reports(e: Event) {
    e == Work(WorkerOpenFailed) || e == Work(WorkerSeekFailed) || e == Work(WorkerReadFailed)
  }

  lemma BadOutcomeFails(s: State, e: WorkerEvent)
    requires WorkerEnabled(s, e)
    ensures
      var pc := ApplyWorker(s, e).worker.pc;
      && (HasFailed(pc) <==> BadOutcome(Work(e)).Some?)
      && (HasFailed(pc) ==> BadOutcome(Work(e)) == Some(pc.cause))
  {
  }

  lemma FailedReports(s: State, e: WorkerEvent)
    requires WorkerEnabled(s, e)
    ensures Reports(Work(e)) ==> HasFailed(s.worker.pc)
    ensures HasFailed(s.worker.pc) && !e.WorkerThrow? ==> Reports(Work(e))
    ensures
      var t := ApplyWorker(s, e);
      Reports(Work(e)) && Current(s) ==>
        && t.session.status == StatusError && t.session.sourceError == Some(s.worker.pc.cause)
        && !t.session.intent && !t.session.decoderReady
  {
  }

  lemma {:induction false} WorkerStill(r: Run, i: nat, j: nat)
    requires r.Valid() && i <= j < |r.states| && forall m :: i <= m < j ==> !r.events[m].Work?
    ensures r.states[j].worker == r.states[i].worker
    decreases j
  {
    if i < j {
      WorkerStill(r, i, j - 1);
      assert StepsAt(r.states, r.events, j - 1);
      match r.events[j - 1]
      case Call(e) => CallerLeaves(r.states[j - 1], e);
      case Callback(e) => RenderLeaves(r.states[j - 1], e);
    }
  }

  /** A failed call of the decoder is what the worker comes to report next, unless it dies: if its request is
      still current the session then has an error, of that very cause. */
  lemma FailureIsReported(r: Run, i: nat, j: nat)
    requires r.Valid() && i < j < |r.events| && BadOutcome(r.events[i]).Some?
    requires r.events[j].Work? && !r.events[j].work.WorkerThrow? && forall m :: i < m < j ==> !r.events[m].Work?
    ensures Reports(r.events[j])
    ensures
      var t := r.states[j + 1];
      Current(r.states[j]) ==>
        && t.session.status == StatusError && t.session.sourceError == BadOutcome(r.events[i])
        && !t.session.intent && !t.session.decoderReady
  {
    assert StepsAt(r.states, r.events, i) && StepsAt(r.states, r.events, j);
    BadOutcomeFails(r.states[i], r.events[i].work);
    WorkerStill(r, i + 1, j);
    FailedReports(r.states[j], r.events[j].work);
  }

  lemma {:induction false} CallHadFailed(r: Run, j: nat) returns (i: nat)
    requires r.Valid() && j < |r.states| && HasFailed(r.states[j].worker.pc)
    ensures i < j && BadOutcome(r.events[i]) == Some(r.states[j].worker.pc.cause)
    ensures forall m :: i < m < j ==> !r.events[m].Work?
  {
    assert r.states[0] == Init(r.autoPlay, r.controls);
    var s := r.states[j - 1];
    assert StepsAt(r.states, r.events, j - 1);
    match r.events[j - 1] {
      case Call(e) => CallerLeaves(s, e); i := CallHadFailed(r, j - 1);
      case Callback(e) => RenderLeaves(s, e); i := CallHadFailed(r, j - 1);
      case Work(e) => BadOutcomeFails(s, e); i := j - 1;
    }
  }

  /** And what the worker reports is how its last call of the decoder failed. */
  lemma ReportHasACause(r: Run, j: nat) returns (i: nat)
    requires r.Valid() && j < |r.events| && Reports(r.events[j])
    ensures i < j && BadOutcome(r.events[i]).Some? && forall m :: i < m < j ==> !r.events[m].Work?
    ensures Current(r.states[j]) ==> r.states[j + 1].session.sourceError == BadOutcome(r.events[i])
  {
    assert StepsAt(r.states, r.events, j);
    FailedReports(r.states[j], r.events[j].work);
    i := CallHadFailed(r, j);
  }

  /** The session asks for what `a` was: the same source, seek, format and frame count. */
  predicate StillAsked(n: Session, a: Active) {
    n.generation == a.generation && n.seek == a.seek && n.format == Some(a.format) && n.frameCount == a.frameCount
  }

  /** A failed request is not tried again: the worker takes up work only once the session asks for another
      source, seek, format or frame count than the request that failed last. */
  lemma FailedRequestIsNotRetried(r: Run, i: nat)
    requires r.Valid() && i < |r.events| && r.events[i] == Work(WorkerWake) && !r.states[i].session.shuttingDown
    requires !r.states[i + 1].worker.pc.Waiting?
    ensures LastFailed(r, i).Some? ==> !StillAsked(r.states[i].session, LastFailed(r, i).value)
  {
    FailureIsOnRecord(r, i);
    RunKeepsInv(r, i);
    assert StepsAt(r.states, r.events, i);
  }

  lemma FinishingCloses(s: State, e: WorkerEvent)
    requires WorkerEnabled(s, e) && ApplyWorker(s, e).worker.pc.Finished?
    ensures ApplyWorker(s, e).decoder.Closed?
  {
  }

  /** A worker that has finished has closed its decoder, and nobody opens it again. */
  lemma {:induction false} FinishedWorkerHasClosed(r: Run, i: nat)
    requires r.Valid() && i < |r.states| && r.states[i].worker.pc.Finished?
    ensures r.states[i].decoder.Closed?
  {
    assert r.states[0] == Init(r.autoPlay, r.controls);
    var s := r.states[i - 1];
    assert StepsAt(r.states, r.events, i - 1);
    match r.events[i - 1]
    case Call(e) => CallerLeaves(s, e); FinishedWorkerHasClosed(r, i - 1);
    case Callback(e) => RenderLeaves(s, e); FinishedWorkerHasClosed(r, i - 1);
    case Work(e) => FinishingCloses(s, e);
  }

  /** The worker has done what the session asks for, as far as there is room: the decoder is open on the
      session's source, in the format of its callbacks and at its seek, and the published pipeline
      is full or has all there is. */
  ghost predicate Done(s: State) {
    && s.decoder.Open? && s.decoder.source == s.session.requestedUri && s.session.format == Some(s.decoder.format)
    && s.session.seek < |s.history.seekTargets| && StandsFor(s.history, s.decoder.standing, s.session.seek)
    && HasPayload(s.pipelines, s.pipelines.published)
    && var p := PayloadOf(s.pipelines, s.pipelines.published);
       && p.format == s.decoder.format && p.frameCount == s.session.frameCount
       && (|p.queue| >= QUEUE_SLOTS || HasEnded(p.read))
  }

  /** There is a source to play, and a callback to play it for. */
  predicate HasTask(s: State) { s.session.requestedUri != "" && s.session.format.Some? && s.session.frameCount > 0 }

  /** The decoder is closed after a failure for the present source and seek, but for another format or
      frame count than the present ones. */
  predicate Forsaken(s: State, failed: Option<Active>) {
    && s.decoder.Closed? && failed.Some?
    && failed.value.generation == s.session.generation && failed.value.seek == s.session.seek
    && (s.session.format != Some(failed.value.format) || s.session.frameCount != failed.value.frameCount)
  }

  lemma RestingIsDone(s: State)
    requires Inv(s) && RestInv(s) && s.worker.pc.Waiting? && !s.session.shuttingDown && HasTask(s)
    requires !HasWork(s) && !WaitFaults(s)
    requires s.worker.job.failed.Some? ==> !StillAsked(s.session, s.worker.job.failed.value)
    ensures Done(s) <==> !Forsaken(s, s.worker.job.failed)
  {
    assert !Differs(s, s.worker.job.active);
    assert s.worker.job.active.generation > 0;
    if s.decoder.Open? {
      assert StandsFor(s.history, s.decoder.standing, s.session.seek);
      assert EndSeen(s.worker.job, s.pipelines, s.session.seek);
    } else {
      assert FailedClosed(s.worker.job, s.session.seek);
    }
  }

  /** A live worker that wakes and goes back to rest, although there is something to play and the request
      that failed last is not the present one, has done what is asked for, unless it has been forsaken. */
  lemma WorkerRestsWhenDone(r: Run, i: nat)
    requires r.Valid() && i < |r.events| && r.events[i] == Work(WorkerWake) && !r.states[i].session.shuttingDown
    requires r.states[i + 1].worker.pc.Waiting? && HasTask(r.states[i])
    requires LastFailed(r, i).Some? ==> !StillAsked(r.states[i].session, LastFailed(r, i).value)
    ensures Done(r.states[i]) <==> !Forsaken(r.states[i], LastFailed(r, i))
  {
    FailureIsOnRecord(r, i);
    RunKeepsInv(r, i);
    RunKeepsRest(r, i);
    assert StepsAt(r.states, r.events, i);
    RestingIsDone(r.states[i]);
  }
}
