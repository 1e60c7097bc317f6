/** Where the decoder is sent and when it is cancelled, told from the history of a run: a seek goes to
    the position asked for exactly when no load and no completed seek came between the asking and the
    worker's wake. */
module ProtocolSeeks {
  import opened Wrappers
  import opened ProtocolState
  import opened ProtocolSteps
  import opened ProtocolProofs
  import opened ProtocolTheorems
  import opened ProtocolHistory

  /** The commands that ask for a seek. */
  predicate Commands(s: State, e: CallerEvent) {
    e.SeekTo? || e.SelectDevice? || (e.Play? && s.session.requestedUri != "" && s.session.reachedEnd)
  }

  predicate Asks(s: State, e: Event) { e.Call? && Commands(s, e.call) }

  /** What they ask for: the position named, but not before the start; the place the session has reached;
      and, for a play after the end, the start. */
  function AskedFor(s: State, e: Event): int {
    match e
    case Call(SeekTo(position)) => if position < 0 then 0 else position
    case Call(SelectDevice) => s.session.position
    case _ => 0
  }

  /** What drops a seek that was asked for: a new source, or the worker having carried it out. */
  predicate Drops(s: State, e: Event) {
    Loads(s, e) || (e.Work? && e.work.WorkerClearPending? && Current(s))
  }

  /** How a step moves the session's pending seek, and the numbers of seeks and of sources asked for. */
  predicate PendingMoves(s: State, e: Event, t: State) {
    && t.session.pendingSeek == (if Asks(s, e) then Some(AskedFor(s, e))
                                 else if Drops(s, e) then None else s.session.pendingSeek)
    && t.session.seek == s.session.seek + (if Asks(s, e) then 1 else 0)
    && t.session.generation == s.session.generation + (if Loads(s, e) then 1 else 0)
    && t.history.seekTargets == s.history.seekTargets + (if Asks(s, e) then [AskedFor(s, e)] else [])
  }

  /** What a session asks its worker for. */
  predicate AsksFor(n: Session, q: Request) {
    && (q.uri, q.generation, q.seek, q.epoch, q.target)
       == (n.requestedUri, n.generation, n.seek, n.epoch, n.pendingSeek)
    && n.format == Some(q.format) && q.frameCount == n.frameCount
  }

  /** How a step moves the worker's request: only a wake of a live session takes one, as a whole. */
  predicate RequestMoves(s: State, e: Event, t: State) {
    var q := t.worker.job.request;
    q == s.worker.job.request || (e == Work(WorkerWake) && !s.session.shuttingDown && AsksFor(s.session, q))
  }

  /** What cancels the decoder call in progress, if any. */
  predicate Cancels(e: Event) {
    e.Call? && (e.call.Load? || e.call.SeekTo? || e.call.SelectDevice? || e.call.CloseBegin?)
  }

  predicate EpochMoves(s: State, e: Event, t: State) {
    t.decoderEpoch == s.decoderEpoch + if Cancels(e) then 1 else 0
  }

  lemma CallerMovesPending(s: State, e: CallerEvent)
    requires CallerEnabled(s, e)
    ensures
      var t := ApplyCaller(s, e);
      PendingMoves(s, Call(e), t) && t.worker == s.worker && EpochMoves(s, Call(e), t)
  {
  }

  lemma RenderMovesPending(s: State, e: RenderEvent)
    requires RenderEnabled(s, e)
    ensures var t := ApplyRender(s, e); PendingMoves(s, Callback(e), t) && EpochMoves(s, Callback(e), t)
  {
  }

  predicate SameNumbers(s: State, t: State) {
    && t.session.seek == s.session.seek && t.session.generation == s.session.generation
    && t.decoderEpoch == s.decoderEpoch && t.history.seekTargets == s.history.seekTargets
  }

  lemma PublishLeavesNumbers(s: State, headroom: real)
    requires s.worker.pc.Publishing?
    ensures SameNumbers(s, ApplyWorkerPublish(s, headroom))
  {
  }

  lemma WorkerLeavesNumbers(s: State, e: WorkerEvent)
    requires WorkerEnabled(s, e)
    ensures SameNumbers(s, ApplyWorker(s, e))
  {
    if e.WorkerPublish? { PublishLeavesNumbers(s, e.headroom); }
  }

  lemma WorkerDropsPending(s: State, e: WorkerEvent)
    requires WorkerEnabled(s, e)
    ensures ApplyWorker(s, e).session.pendingSeek == if Drops(s, Work(e)) then None else s.session.pendingSeek
  {
  }

  lemma WorkerMovesPending(s: State, e: WorkerEvent)
    requires WorkerEnabled(s, e)
    ensures var t := ApplyWorker(s, e); PendingMoves(s, Work(e), t) && EpochMoves(s, Work(e), t)
  {
    WorkerLeavesNumbers(s, e);
    WorkerDropsPending(s, e);
  }

  lemma WorkerMovesRequest(s: State, e: WorkerEvent)
    requires WorkerEnabled(s, e)
    ensures RequestMoves(s, Work(e), ApplyWorker(s, e))
  {
  }

  predicate MovesAt(r: Run, i: nat)
    requires |r.states| == |r.events| + 1 && i < |r.events|
  {
    var s, e, t := r.states[i], r.events[i], r.states[i + 1];
    PendingMoves(s, e, t) && RequestMoves(s, e, t) && EpochMoves(s, e, t)
  }

  lemma StepMoves(r: Run, i: nat)
    requires r.Valid() && i < |r.events|
    ensures MovesAt(r, i)
  {
    var s := r.states[i];
    assert StepsAt(r.states, r.events, i);
    match r.events[i] {
      case Call(e) => CallerMovesPending(s, e);
      case Callback(e) =>
        RenderMovesPending(s, e);
        RenderLeaves(s, e);
      case Work(e) =>
        WorkerMovesPending(s, e);
        WorkerMovesRequest(s, e);
    }
  }

  // ------------------------------------------------------------------------- seeks

  /** A seek was asked for before state `i`, and nothing has dropped it since. */
  ghost predicate Awaits(r: Run, i: nat)
    requires |r.states| == |r.events| + 1 && i <= |r.events|
  {
    Since(r, Asks, Drops, i)
  }

  /** What was asked for last. */
  function LastAsked(r: Run, i: nat): int
    requires |r.states| == |r.events| + 1 && i <= |r.events|
  {
    if i == 0 then 0
    else if Asks(r.states[i - 1], r.events[i - 1]) then AskedFor(r.states[i - 1], r.events[i - 1])
    else LastAsked(r, i - 1)
  }

  /** In every run a seek is pending exactly when the session awaits one, and it is the one asked for last. */
  lemma {:induction false} PendingIsAwaited(r: Run, i: nat)
    requires r.Valid() && i < |r.states|
    ensures r.states[i].session.pendingSeek == if Awaits(r, i) then Some(LastAsked(r, i)) else None
  {
    if i > 0 {
      PendingIsAwaited(r, i - 1);
      StepMoves(r, i - 1);
      SinceMoves(r, Asks, Drops, i - 1);
      assert MarkedAt(r, Asks, i - 1) == Asks(r.states[i - 1], r.events[i - 1]);
      assert MarkedAt(r, Drops, i - 1) == Drops(r.states[i - 1], r.events[i - 1]);
    }
  }

  /** The target on record for the present seek sequence, which `CommitIsCurrent` speaks of, is what was
      asked for last. */
  lemma {:induction false} RecordIsAsked(r: Run, i: nat)
    requires r.Valid() && i < |r.states|
    ensures
      var s := r.states[i];
      |s.history.seekTargets| == s.session.seek + 1 && s.history.seekTargets[s.session.seek] == LastAsked(r, i)
  {
    if i > 0 {
      RecordIsAsked(r, i - 1);
      StepMoves(r, i - 1);
    }
  }

  /** The wake at which the worker took its present request: it is what the session asked for then. */
  lemma {:induction false} RequestWasTaken(r: Run, i: nat) returns (w: nat)
    requires r.Valid() && i < |r.states| && r.states[i].worker.job.request.generation > 0
    ensures w < i && r.events[w] == Work(WorkerWake) && !r.states[w].session.shuttingDown
    ensures AsksFor(r.states[w].session, r.states[i].worker.job.request)
    ensures r.states[w + 1].worker.job.request == r.states[i].worker.job.request
  {
    assert r.states[0] == Init(r.autoPlay, r.controls);
    if i > 0 {
      StepMoves(r, i - 1);
      if r.states[i].worker.job.request == r.states[i - 1].worker.job.request {
        w := RequestWasTaken(r, i - 1);
      } else {
        w := i - 1;
      }
    }
  }

  /** A successful seek of the worker answers the seek sequence its last wake saw, in the source that was
      loaded last by then. It goes to the position asked for last if the session still awaited the
      seek at that wake, and to the start otherwise. */
  lemma SeekGoesWhereAsked(r: Run, i: nat) returns (w: nat)
    requires r.Valid() && i < |r.events| && r.events[i] == Work(WorkerSeek(OpenOk))
    ensures w < i && r.events[w] == Work(WorkerWake)
            && r.states[w + 1].worker.job.request == r.states[i].worker.job.request
    ensures
      var t, n := r.states[i + 1], r.states[w].session;
      && t.decoder.Open? && t.decoder.source == LastLoaded(r.events[..w]) && Some(t.decoder.format) == n.format
      && t.decoder.standing == At(n.seek, if Awaits(r, w) then LastAsked(r, w) else 0)
  {
    RunKeepsInv(r, i);
    SeekFollowsRequest(r, i);
    w := RequestWasTaken(r, i);
    PendingIsAwaited(r, w);
    SettingsAreTold(r, w);
    assert StepsAt(r.states, r.events, i);
    assert r.states[i + 1].decoder.standing
        == At(r.states[i].worker.job.request.seek, r.states[i].worker.job.request.target.GetOr(0));
  }

  // ------------------------------------------------------------------ cancellation

  function Cancellations(events: seq<Event>): nat {
    if events == [] then 0
    else Cancellations(events[..|events| - 1]) + if Cancels(events[|events| - 1]) then 1 else 0
  }

  /** The decoder's epoch counts the commands that cancel. */
  lemma {:induction false} EpochCountsCancellations(r: Run, i: nat)
    requires r.Valid() && i < |r.states|
    ensures r.states[i].decoderEpoch == Cancellations(r.events[..i])
  {
    if i > 0 {
      EpochCountsCancellations(r, i - 1);
      StepMoves(r, i - 1);
      assert r.events[..i][..i - 1] == r.events[..i - 1];
    }
  }

  lemma {:induction false} CancellationsGrow(events: seq<Event>, w: nat, i: nat)
    requires w <= i <= |events|
    ensures Cancellations(events[..w]) <= Cancellations(events[..i])
    ensures Cancellations(events[..w]) < Cancellations(events[..i]) <==> exists k :: w <= k < i && Cancels(events[k])
  {
    if w < i {
      CancellationsGrow(events, w, i - 1);
      assert events[..i][..i - 1] == events[..i - 1];
      assert Cancels(events[i - 1]) ==> exists k :: w <= k < i && Cancels(events[k]);
    }
  }

  /** A request the worker has taken has lost its epoch exactly when a load, a seek, a change of the
      device or a close has come since the wake that took it: these cancel whatever it has the decoder
      do, and nothing else does. */
  lemma RequestIsCancelled(r: Run, i: nat) returns (w: nat)
    requires r.Valid() && i < |r.states| && r.states[i].worker.job.request.generation > 0
    ensures w < i && r.events[w] == Work(WorkerWake)
            && r.states[w + 1].worker.job.request == r.states[i].worker.job.request
    ensures r.states[i].worker.job.request.epoch <= r.states[i].decoderEpoch
    ensures r.states[i].worker.job.request.epoch < r.states[i].decoderEpoch
            <==> exists k :: w <= k < i && Cancels(r.events[k])
  {
    w := RequestWasTaken(r, i);
    EpochsAgree(r, w);
    EpochCountsCancellations(r, w);
    EpochCountsCancellations(r, i);
    CancellationsGrow(r.events, w, i);
  }

  /** The worker is about to give up the source it has open, or to replace its pipeline. */
  predicate Engages(pc: WorkerPc) { pc.ClosingDecoder? || pc.LoadingPublished? }

  /** The worker looks whether its request is still current. */
  predicate Looks(e: Event) {
    e == Work(WorkerCheck) || e == Work(WorkerConfirmOpen) || e == Work(WorkerConfirmSeek)
  }

  lemma OnlyLooksEngage(s: State, e: WorkerEvent)
    requires WorkerEnabled(s, e) && Engages(ApplyWorker(s, e).worker.pc)
    ensures Looks(Work(e)) && Current(s) && ApplyWorker(s, e).worker.job == s.worker.job
  {
  }

  /** The worker gives up an open source, and replaces a pipeline, only for a request that was current when
      it last looked. */
  lemma {:induction false} WorksForCurrent(r: Run, i: nat) returns (k: nat)
    requires r.Valid() && i < |r.states| && Engages(r.states[i].worker.pc)
    ensures k < i && Looks(r.events[k]) && Current(r.states[k]) && r.states[k].worker.job == r.states[i].worker.job
    ensures forall m :: k < m < i ==> !r.events[m].Work?
  {
    assert r.states[0] == Init(r.autoPlay, r.controls);
    var s := r.states[i - 1];
    assert StepsAt(r.states, r.events, i - 1);
    match r.events[i - 1] {
      case Call(e) => CallerLeaves(s, e); k := WorksForCurrent(r, i - 1);
      case Callback(e) => RenderLeaves(s, e); k := WorksForCurrent(r, i - 1);
      case Work(e) => OnlyLooksEngage(s, e); k := i - 1;
    }
  }
}
