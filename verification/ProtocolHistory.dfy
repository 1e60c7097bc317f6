/** The session as the events of a run tell it: what it plays, whether it is told to play, with which
    settings, how far its timeline is and what it reports. */
module ProtocolHistory {
  import opened Wrappers
  import opened ProtocolState
  import opened ProtocolSteps
  import opened ProtocolProofs
  import opened ProtocolTheorems

  // ------------------------------------------------------------------------- flags

  /** A kind of event, in the state it happens in. */
  type Mark = (State, Event) -> bool

  predicate MarkedAt(r: Run, mark: Mark, k: nat)
    requires |r.states| == |r.events| + 1 && k < |r.events|
  {
    mark(r.states[k], r.events[k])
  }

  /** An event of the one kind has come before state `i`, and none of the other since. */
  ghost predicate Since(r: Run, sets: Mark, clears: Mark, i: nat)
    requires |r.states| == |r.events| + 1 && i <= |r.events|
  {
    exists k: nat :: k < i && MarkedAt(r, sets, k) && forall m :: k < m < i ==> !MarkedAt(r, clears, m)
  }

  lemma SinceMoves(r: Run, sets: Mark, clears: Mark, i: nat)
    requires |r.states| == |r.events| + 1 && i < |r.events|
    ensures Since(r, sets, clears, i + 1) <==>
              MarkedAt(r, sets, i) || (Since(r, sets, clears, i) && !MarkedAt(r, clears, i))
  {
    if Since(r, sets, clears, i) && !MarkedAt(r, clears, i) {
      var k: nat :| k < i && MarkedAt(r, sets, k) && forall m :: k < m < i ==> !MarkedAt(r, clears, m);
      assert forall m :: k < m < i + 1 ==> !MarkedAt(r, clears, m);
    }
    if Since(r, sets, clears, i + 1) && !MarkedAt(r, sets, i) {
      var k: nat :| k < i + 1 && MarkedAt(r, sets, k) && forall m :: k < m < i + 1 ==> !MarkedAt(r, clears, m);
      assert k < i && !MarkedAt(r, clears, i);
    }
  }

  /** A flag that the one kind of event sets and the other clears. */
  predicate FlagMoves(r: Run, flag: State -> bool, sets: Mark, clears: Mark, k: nat)
    requires |r.states| == |r.events| + 1 && k < |r.events|
  {
    flag(r.states[k + 1]) <==> MarkedAt(r, sets, k) || (flag(r.states[k]) && !MarkedAt(r, clears, k))
  }

  lemma {:induction false} FlagIsTold(r: Run, flag: State -> bool, sets: Mark, clears: Mark, i: nat)
    requires r.Valid() && i < |r.states| && !flag(r.states[0])
    requires forall k :: 0 <= k < |r.events| ==> FlagMoves(r, flag, sets, clears, k)
    ensures flag(r.states[i]) <==> Since(r, sets, clears, i)
  {
    if i > 0 {
      FlagIsTold(r, flag, sets, clears, i - 1);
      assert FlagMoves(r, flag, sets, clears, i - 1);
      SinceMoves(r, sets, clears, i - 1);
    }
  }

  // ------------------------------------------------------------------------- marks

  predicate Loads(s: State, e: Event) { e.Call? && e.call.Load? }

  /** The worker reports that its source, or a seek in it, or a read of it, failed. */
  predicate SourceFails(s: State, e: Event) {
    e.Work? && (e.work.WorkerOpenFailed? || e.work.WorkerSeekFailed? || e.work.WorkerReadFailed?) && Current(s)
  }

  predicate WorkerDies(s: State, e: Event) { e == Work(WorkerThrow) && !s.session.shuttingDown }

  /** A callback commits the last block of its source. */
  predicate EndIsPlayed(s: State, e: Event) {
    e == Callback(RenderCommit(true)) && Commits(s) && s.render.block.endOfStream
  }

  /** What tells the session to play: a play with a source, or a load where that is to start at once. */
  predicate TellsToPlay(s: State, e: Event) {
    (e == Call(Play) && s.session.requestedUri != "") || (Loads(s, e) && s.autoPlay)
  }

  /** What tells it not to: a pause, a load where that is not to start, an error of the stream that is
      not to be recovered or cannot be, an error of the source or of the worker, and the end. */
  predicate TellsNotToPlay(s: State, e: Event) {
    || e == Call(Pause) || (Loads(s, e) && !s.autoPlay) || e == Call(StreamError(false)) || e == Call(RecoveryFailed)
    || SourceFails(s, e) || WorkerDies(s, e) || EndIsPlayed(s, e)
  }

  predicate Announces(s: State, e: Event) { e.Work? && e.work.WorkerAnnounce? && Current(s) }

  /** What ends a decoder's being ready. */
  predicate Unreadies(s: State, e: Event) {
    || Loads(s, e) || e == Call(SelectDevice) || (e.Call? && e.call.StreamError?)
    || SourceFails(s, e) || WorkerDies(s, e)
  }

  /** What takes the session away from the end of its source. */
  predicate LeavesEnd(s: State, e: Event) {
    || Loads(s, e) || (e.Call? && e.call.SeekTo?) || e == Call(SelectDevice) || (e.Call? && e.call.StreamError?)
    || (e == Call(Play) && s.session.requestedUri != "") || SourceFails(s, e)
  }

  /** How a step moves the three flags. */
  predicate FlagsMove(s: State, e: Event, t: State) {
    && (t.session.intent <==> TellsToPlay(s, e) || (s.session.intent && !TellsNotToPlay(s, e)))
    && (t.session.decoderReady <==> Announces(s, e) || (s.session.decoderReady && !Unreadies(s, e)))
    && (t.session.reachedEnd <==> EndIsPlayed(s, e) || (s.session.reachedEnd && !LeavesEnd(s, e)))
  }

  lemma CallerMovesFlags(s: State, e: CallerEvent)
    requires CallerEnabled(s, e)
    ensures FlagsMove(s, Call(e), ApplyCaller(s, e))
  {
  }

  lemma RenderMovesFlags(s: State, e: RenderEvent)
    requires RenderEnabled(s, e)
    ensures FlagsMove(s, Callback(e), ApplyRender(s, e))
  {
  }

  lemma WorkerMovesFlags(s: State, e: WorkerEvent)
    requires WorkerEnabled(s, e)
    ensures FlagsMove(s, Work(e), ApplyWorker(s, e))
  {
  }

  lemma StepMovesFlags(r: Run, i: nat)
    requires r.Valid() && i < |r.events|
    ensures FlagsMove(r.states[i], r.events[i], r.states[i + 1])
  {
    assert StepsAt(r.states, r.events, i);
    match r.events[i]
    case Call(e) => CallerMovesFlags(r.states[i], e);
    case Callback(e) => RenderMovesFlags(r.states[i], e);
    case Work(e) => WorkerMovesFlags(r.states[i], e);
  }

  /** The session is told to play exactly when it has been told so since it was last told not to. */
  lemma IntentIsTold(r: Run, i: nat)
    requires r.Valid() && i < |r.states|
    ensures r.states[i].session.intent <==> Since(r, TellsToPlay, TellsNotToPlay, i)
  {
    var flag := (s: State) => s.session.intent;
    forall k | 0 <= k < |r.events| ensures FlagMoves(r, flag, TellsToPlay, TellsNotToPlay, k) {
      StepMovesFlags(r, k);
    }
    FlagIsTold(r, flag, TellsToPlay, TellsNotToPlay, i);
  }

  /** Its decoder is ready exactly when the worker has announced a pipeline for a current request since
      anything ended that. */
  lemma ReadinessIsTold(r: Run, i: nat)
    requires r.Valid() && i < |r.states|
    ensures r.states[i].session.decoderReady <==> Since(r, Announces, Unreadies, i)
  {
    var flag := (s: State) => s.session.decoderReady;
    forall k | 0 <= k < |r.events| ensures FlagMoves(r, flag, Announces, Unreadies, k) {
      StepMovesFlags(r, k);
    }
    FlagIsTold(r, flag, Announces, Unreadies, i);
  }

  /** It stands at the end exactly when a callback has committed the last block since anything took it
      away from there. */
  lemma EndIsTold(r: Run, i: nat)
    requires r.Valid() && i < |r.states|
    ensures r.states[i].session.reachedEnd <==> Since(r, EndIsPlayed, LeavesEnd, i)
  {
    var flag := (s: State) => s.session.reachedEnd;
    forall k | 0 <= k < |r.events| ensures FlagMoves(r, flag, EndIsPlayed, LeavesEnd, k) {
      StepMovesFlags(r, k);
    }
    FlagIsTold(r, flag, EndIsPlayed, LeavesEnd, i);
  }

  // ------------------------------------------------------------------------ settings

  /** The last source that was loaded. */
  function LastLoaded(events: seq<Event>): string {
    if events == [] then ""
    else match events[|events| - 1]
         case Call(Load(uri)) => uri
         case _ => LastLoaded(events[..|events| - 1])
  }

  /** The last settings that were made. */
  function LastControls(first: Controls, events: seq<Event>): Controls {
    if events == [] then first
    else match events[|events| - 1]
         case Call(EditControls(controls, _)) => controls
         case _ => LastControls(first, events[..|events| - 1])
  }

  /** The format and the frame count of the last callback. */
  function LastBuffer(events: seq<Event>): Option<(Format, nat)> {
    if events == [] then None
    else match events[|events| - 1]
         case Callback(RenderBegin(format, frameCount)) => Some((format, frameCount))
         case _ => LastBuffer(events[..|events| - 1])
  }

  /** What the events before state `i` have asked the session for. */
  predicate SettingsTold(r: Run, i: nat)
    requires |r.states| == |r.events| + 1 && i <= |r.events|
  {
    var n, front := r.states[i].session, r.events[..i];
    && n.requestedUri == n.sourceUri == LastLoaded(front)
    && n.controls == LastControls(r.controls, front)
    && (match LastBuffer(front)
        case None => n.format == None
        case Some(b) => n.format == Some(b.0) && n.frameCount == b.1)
  }

  /** How a step moves them. */
  predicate SettingsMove(s: State, e: Event, t: State) {
    && (t.session.requestedUri, t.session.sourceUri)
       == (if Loads(s, e) then (e.call.uri, e.call.uri) else (s.session.requestedUri, s.session.sourceUri))
    && t.session.controls == (if e.Call? && e.call.EditControls? then e.call.controls else s.session.controls)
    && (t.session.format, t.session.frameCount)
       == (if e.Callback? && e.step.RenderBegin? then (Some(e.step.format), e.step.frameCount)
           else (s.session.format, s.session.frameCount))
  }

  lemma CallerMovesSettings(s: State, e: CallerEvent)
    requires CallerEnabled(s, e)
    ensures SettingsMove(s, Call(e), ApplyCaller(s, e))
  {
  }

  lemma RenderMovesSettings(s: State, e: RenderEvent)
    requires RenderEnabled(s, e)
    ensures SettingsMove(s, Callback(e), ApplyRender(s, e))
  {
  }

  lemma WorkerMovesSettings(s: State, e: WorkerEvent)
    requires WorkerEnabled(s, e)
    ensures SettingsMove(s, Work(e), ApplyWorker(s, e))
  {
  }

  lemma StepMovesSettings(r: Run, i: nat)
    requires r.Valid() && i < |r.events|
    ensures SettingsMove(r.states[i], r.events[i], r.states[i + 1])
  {
    assert StepsAt(r.states, r.events, i);
    match r.events[i]
    case Call(e) => CallerMovesSettings(r.states[i], e);
    case Callback(e) => RenderMovesSettings(r.states[i], e);
    case Work(e) => WorkerMovesSettings(r.states[i], e);
  }

  lemma SettingsToldFurther(r: Run, i: nat)
    requires |r.states| == |r.events| + 1 && i < |r.events|
    requires SettingsTold(r, i) && SettingsMove(r.states[i], r.events[i], r.states[i + 1])
    ensures SettingsTold(r, i + 1)
  {
    assert r.events[..i + 1][..i] == r.events[..i];
  }

  /** In every run the session's source is the one loaded last, its settings are those made last, and its
      format and frame count those of the last callback. */
  lemma {:induction false} SettingsAreTold(r: Run, i: nat)
    requires r.Valid() && i < |r.states|
    ensures SettingsTold(r, i)
  {
    if i > 0 {
      SettingsAreTold(r, i - 1);
      StepMovesSettings(r, i - 1);
      SettingsToldFurther(r, i - 1);
    }
  }

  // ------------------------------------------------------------------------ headroom

  /** A step that computes a headroom from the bands, and the headroom. */
  function Computes(s: State, e: Event): Option<real> {
    match e
    case Call(EditControls(_, headroom)) => headroom
    case Work(WorkerPublish(headroom)) => if Current(s) then Some(headroom) else None
    case _ => None
  }

  /** How a step moves the headroom last computed: every step that computes one stores it. */
  predicate HeadroomMoves(s: State, e: Event, t: State) {
    match Computes(s, e)
    case Some(h) => t.session.computed == h && t.session.headroom == h
    case None => t.session.computed == s.session.computed
  }

  lemma CallerComputes(s: State, e: CallerEvent)
    requires CallerEnabled(s, e)
    ensures HeadroomMoves(s, Call(e), ApplyCaller(s, e))
  {
  }

  lemma RenderComputes(s: State, e: RenderEvent)
    requires RenderEnabled(s, e)
    ensures HeadroomMoves(s, Callback(e), ApplyRender(s, e))
  {
  }

  lemma WorkerComputes(s: State, e: WorkerEvent)
    requires WorkerEnabled(s, e)
    ensures HeadroomMoves(s, Work(e), ApplyWorker(s, e))
  {
  }

  /** Every step that computes a headroom stores it, and no other step changes the one last computed. */
  lemma ComputedIsTold(r: Run, i: nat)
    requires r.Valid() && i < |r.events|
    ensures HeadroomMoves(r.states[i], r.events[i], r.states[i + 1])
  {
    assert StepsAt(r.states, r.events, i);
    match r.events[i]
    case Call(e) => CallerComputes(r.states[i], e);
    case Callback(e) => RenderComputes(r.states[i], e);
    case Work(e) => WorkerComputes(r.states[i], e);
  }

  // ------------------------------------------------------------------------ timeline

  /** Position, duration and completions after an event: a load starts them over, a seek goes to its
      position or to the start, an announcement brings the duration, and a commit its block's place;
      every other event leaves them alone. */
  function TimelineAfter(s: State, e: Event): (int, int, nat) {
    var n := s.session;
    if Loads(s, e) then (0, 0, 0)
    else if e.Call? && e.call.SeekTo? then
      (if e.call.position < 0 then 0 else e.call.position, n.duration, n.completions)
    else if Announces(s, e) then (n.position, e.work.duration, n.completions)
    else if e == Callback(RenderCommit(true)) && Commits(s) then
      var b := s.render.block;
      if b.endOfStream then (b.duration, b.duration, n.completions + 1) else (b.position, b.duration, n.completions)
    else (n.position, n.duration, n.completions)
  }

  lemma CallerTimeline(s: State, e: CallerEvent)
    requires CallerEnabled(s, e)
    ensures Timeline(ApplyCaller(s, e)) == TimelineAfter(s, Call(e))
  {
  }

  lemma RenderTimeline(s: State, e: RenderEvent)
    requires RenderEnabled(s, e)
    ensures Timeline(ApplyRender(s, e)) == TimelineAfter(s, Callback(e))
  {
  }

  lemma WorkerTimeline(s: State, e: WorkerEvent)
    requires WorkerEnabled(s, e)
    ensures Timeline(ApplyWorker(s, e)) == TimelineAfter(s, Work(e))
  {
    WorkerLeavesPosition(s, e);
    if !Announces(s, Work(e)) { WorkerLeavesDuration(s, e); }
  }

  lemma TimelineIsTold(r: Run, i: nat)
    requires r.Valid() && i < |r.events|
    ensures Timeline(r.states[i + 1]) == TimelineAfter(r.states[i], r.events[i])
  {
    assert StepsAt(r.states, r.events, i);
    match r.events[i]
    case Call(e) => CallerTimeline(r.states[i], e);
    case Callback(e) => RenderTimeline(r.states[i], e);
    case Work(e) => WorkerTimeline(r.states[i], e);
  }

  // -------------------------------------------------------------------------- status

  /** The status for a source that is being opened, as far as it is to be played. */
  function Pending(plays: bool): Status { if plays then StatusLoading else StatusPaused }

  /** What the session reports after an event. */
  function StatusAfter(s: State, e: Event): Status {
    var n := s.session;
    if SourceFails(s, e) || WorkerDies(s, e) then StatusError
    else match e
         case Call(Load(_)) => Pending(s.autoPlay)
         case Call(Play) =>
           if n.requestedUri == "" then StatusError else if n.decoderReady then StatusPlaying else StatusLoading
         case Call(Pause) => if n.requestedUri == "" then StatusIdle else StatusPaused
         case Call(SeekTo(_)) => Pending(n.intent)
         case Call(SelectDevice) => if n.requestedUri == "" then n.status else Pending(n.intent)
         case Call(StreamError(recovers)) => if recovers then StatusLoading else StatusError
         case Call(RecoveryFailed) => StatusError
         case Callback(RenderCommit(locked)) =>
           if !locked || !Commits(s) then n.status else if s.render.block.endOfStream then StatusIdle else StatusPlaying
         case _ => n.status
  }

  lemma CallerStatus(s: State, e: CallerEvent)
    requires CallerEnabled(s, e)
    ensures ApplyCaller(s, e).session.status == StatusAfter(s, Call(e))
  {
  }

  lemma RenderStatus(s: State, e: RenderEvent)
    requires RenderEnabled(s, e)
    ensures ApplyRender(s, e).session.status == StatusAfter(s, Callback(e))
  {
  }

  lemma WorkerStatus(s: State, e: WorkerEvent)
    requires WorkerEnabled(s, e)
    ensures ApplyWorker(s, e).session.status == StatusAfter(s, Work(e))
  {
  }

  /** The status of every state of every run is told by the events, with the flags that `IntentIsTold` and
      `ReadinessIsTold` tell. */
  lemma StatusIsTold(r: Run, i: nat)
    requires r.Valid() && i < |r.events|
    ensures r.states[i + 1].session.status == StatusAfter(r.states[i], r.events[i])
  {
    assert StepsAt(r.states, r.events, i);
    match r.events[i]
    case Call(e) => CallerStatus(r.states[i], e);
    case Callback(e) => RenderStatus(r.states[i], e);
    case Work(e) => WorkerStatus(r.states[i], e);
  }
}
