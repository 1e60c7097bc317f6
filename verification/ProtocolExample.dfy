/** The theorems about runs are not about nothing, and what they say may go wrong does go wrong. */
module ProtocolExample {
  import opened Wrappers
  import opened ProtocolState
  import opened ProtocolSteps
  import opened ProtocolRest
  import opened ProtocolScenes
  import opened ProtocolTheorems
  import Transitions

  // --------------------------------------------------------------- a commit is reached

  lemma LoadingLeads(c: Controls) returns (events: seq<Event>)
    ensures Leads(Init(true, c), events, ApplyLoad(Init(true, c), "track"))
  {
    events := Then(Init(true, c), [], Init(true, c), Call(Load("track")), ApplyLoad(Init(true, c), "track"));
  }

  /** A track is loaded, a callback has told its format, and the worker has queued one block. */
  lemma QueueingLeads(c: Controls, position: int, duration: int, headroom: real)
    returns (events: seq<Event>, t: State)
    ensures Leads(Init(true, c), events, t) && Calm(t, FORMAT) && Queued(t, 0, FORMAT, position, duration)
    ensures t.session.frameCount == FRAMES && t.session.intent && t.session.headroom == headroom
    ensures t.worker.pc.Waiting? && t.worker.job.active == Active(1, 0, FORMAT, FRAMES) && t.session.seek == 0
  {
    var start := Init(true, c);
    events := LoadingLeads(c);
    var s := CalledBack(ApplyLoad(start, "track"), FORMAT, FRAMES);
    events := CallingBackLeads(start, events, ApplyLoad(start, "track"), FORMAT, FRAMES);
    events, t := ReopeningLeads(start, events, s, FORMAT, headroom);
    events, t := PushingLeads(start, events, t, FORMAT, 0, position, duration);
  }

  /** The callback has popped a current block. */
  predicate Carrying(s: State, position: int, duration: int, headroom: real) {
    && s.render.HasBlock() && HasPayload(s.pipelines, s.render.held) && !s.session.shuttingDown && s.session.intent
    && s.session.requestedUri != "" && !s.session.closed
    && s.render.block.tag == Tag(s.session.generation, s.session.seek) && !s.render.block.endOfStream
    && s.render.block.position == position && s.render.block.duration == duration
    && s.render.snap.headroom == headroom && PayloadOf(s.pipelines, s.render.held).applied == None
  }

  lemma PoppingLeads(start: State, events: seq<Event>, s: State, position: int, duration: int)
    returns (more: seq<Event>, t: State)
    requires Leads(start, events, s) && Calm(s, FORMAT) && Queued(s, 0, FORMAT, position, duration)
    requires s.session.frameCount == FRAMES && s.session.intent
    ensures Leads(start, more, t) && t.render.Popped? && Carrying(t, position, duration, s.session.headroom)
  {
    more := AcquiringLeads(start, events, s, FORMAT, FRAMES);
    var a := Acquired(s, FORMAT, FRAMES);
    t := ApplyRenderPop(a);
    more := Then(start, more, a, Callback(RenderPop), t);
  }

  lemma CheckingLeads(start: State, events: seq<Event>, s: State, position: int, duration: int, headroom: real)
    returns (more: seq<Event>, t: State)
    requires Leads(start, events, s) && s.render.Popped? && Carrying(s, position, duration, headroom)
    ensures Leads(start, more, t) && t.render.TagSeen? && Carrying(t, position, duration, headroom)
  {
    var a := s.(render := GenerationSeen(s.render.snap, s.render.held, s.render.block));
    t := s.(render := TagSeen(s.render.snap, s.render.held, s.render.block));
    more := Then(start, events, s, Callback(RenderCheckGeneration), a);
    more := Then(start, more, a, Callback(RenderCheckSeek), t);
  }

  lemma ProcessingLeads(start: State, events: seq<Event>, s: State, position: int, duration: int, headroom: real)
    returns (more: seq<Event>, t: State)
    requires Leads(start, events, s) && s.render.TagSeen? && Carrying(s, position, duration, headroom)
    ensures Leads(start, more, t) && Commits(t) && !t.render.block.endOfStream && HeadroomHeld(t) == headroom
    ensures t.render.block.position == position && t.render.block.duration == duration
    ensures HasPayload(t.pipelines, t.render.held) && t.session.intent && t.session.requestedUri != ""
            && !t.session.closed && t.LockFree()
  {
    t := ApplyRenderProcess(s);
    more := Then(start, events, s, Callback(RenderProcess), t);
  }

  /** A callback is about to commit a block, with any headroom in its chain. */
  lemma CommittingLeads(c: Controls, position: int, duration: int, headroom: real)
    returns (events: seq<Event>, t: State)
    ensures Leads(Init(true, c), events, t) && Commits(t) && !t.render.block.endOfStream && HeadroomHeld(t) == headroom
    ensures t.render.block.position == position && t.render.block.duration == duration
    ensures HasPayload(t.pipelines, t.render.held) && t.session.intent && t.session.requestedUri != ""
            && !t.session.closed && t.LockFree()
  {
    events, t := QueueingLeads(c, position, duration, headroom);
    events, t := PoppingLeads(Init(true, c), events, t, position, duration);
    events, t := CheckingLeads(Init(true, c), events, t, position, duration, headroom);
    events, t := ProcessingLeads(Init(true, c), events, t, position, duration, headroom);
  }

  /** Events that can happen are the events of a run. */
  lemma RunOf(c: Controls, events: seq<Event>, t: State) returns (r: Run)
    requires Leads(Init(true, c), events, t)
    ensures r.Valid() && r.autoPlay && r.controls == c && r.events == events && r.states[|events|] == t
  {
    var states := Transitions.PathOf(Step(), Init(true, c), events, t);
    forall i | 0 <= i < |events| ensures StepsAt(states, events, i) {
      assert Transitions.PathAt(Step(), states, events, i);
    }
    r := Run(true, c, states, events);
  }

  /** For any settings, position and duration there is a run that commits a block with them. */
  lemma ACommitIsReached(c: Controls, position: int, duration: int) returns (r: Run)
    ensures r.Valid() && r.autoPlay && r.controls == c && |r.events| > 0
    ensures
      var i := |r.events| - 1;
      && r.events[i] == Callback(RenderCommit(true))
      && r.states[i + 1].session.position == position && r.states[i + 1].session.duration == duration
      && r.states[i + 1].session.status == StatusPlaying
  {
    var events, s := CommittingLeads(c, position, duration, 0.0);
    var t := ApplyRenderCommit(s, true);
    events := Then(Init(true, c), events, s, Callback(RenderCommit(true)), t);
    r := RunOf(c, events, t);
  }

  // ---------------------------------------------------------------- what is overwritten

  /** A pause that comes while a callback is about to commit is overwritten. */
  lemma APauseIsOverwritten(c: Controls) returns (events: seq<Event>, t: State)
    ensures Leads(Init(true, c), events + [Call(Pause)] + [Callback(RenderCommit(true))], t) && PlaysUnasked(t.session)
  {
    var s: State;
    events, s := CommittingLeads(c, 0, 0, 0.0);
    var paused := ApplyPause(s);
    t := ApplyRenderCommit(paused, true);
    var more := Then(Init(true, c), events, s, Call(Pause), paused);
    more := Then(Init(true, c), more, paused, Callback(RenderCommit(true)), t);
  }

  /** So is the headroom of new bands, by that of the bands before. */
  lemma AHeadroomIsOverwritten(c: Controls, d: Controls, before: real, after: real)
    returns (events: seq<Event>, t: State)
    ensures Leads(Init(true, c), events + [Call(EditControls(d, Some(after)))] + [Callback(RenderCommit(true))], t)
    ensures t.session.controls == d && t.session.computed == after && t.session.headroom == before
  {
    var s: State;
    events, s := CommittingLeads(c, 0, 0, before);
    var edited := BumpControls(s, d, Some(after));
    t := ApplyRenderCommit(edited, true);
    var more := Then(Init(true, c), events, s, Call(EditControls(d, Some(after))), edited);
    more := Then(Init(true, c), more, edited, Callback(RenderCommit(true)), t);
  }

  // ------------------------------------------------------------------- a seek is lost

  /** The worker carries out its seek as far as the new pipeline. */
  lemma SeekingLeads(start: State, events: seq<Event>, s: State, f: Format) returns (more: seq<Event>, t: State)
    requires Leads(start, events, s) && Calm(s, f) && Built(s, f, 0) && s.worker.pc.Seeking?
    ensures Leads(start, more, t) && Calm(t, f) && Built(t, f, 0) && t.worker.pc == LoadingPublished(ForSeek)
    ensures t.session == s.session && t.history == s.history
  {
    var a := ApplyWorkerSeek(s, OpenOk);
    t := Goto(a, LoadingPublished(ForSeek));
    more := Then(start, events, s, Work(WorkerSeek(OpenOk)), a);
    more := Then(start, more, a, Work(WorkerConfirmSeek), t);
  }

  /** The worker publishes that pipeline, and the seek is no longer pending. */
  lemma ClearingLeads(start: State, events: seq<Event>, s: State, f: Format) returns (more: seq<Event>, t: State)
    requires Leads(start, events, s) && Calm(s, f) && Built(s, f, 0) && s.worker.pc == LoadingPublished(ForSeek)
    ensures Leads(start, more, t) && Calm(t, f) && Built(t, f, 1) && Uncommanded(s, t) && t.worker.pc.Reading?
    ensures t.session.pendingSeek == None
  {
    assert FreeSlot(Some(0), None, 0) == Some(1);
    more := ReplacingLeads(start, events, s, 1, 0.0);
    var p := Replaced(s, 1, 0.0);
    t := ApplyWorkerClearPending(p);
    more := Then(start, more, p, Work(WorkerClearPending), t);
  }

  /** From a waiting worker the seek is carried out and the worker waits again. */
  lemma CarryingOutLeads(start: State, events: seq<Event>, s: State, f: Format) returns (more: seq<Event>, t: State)
    requires Leads(start, events, s) && Calm(s, f) && MustOpen(s, f) && s.session.seek > 0
    ensures Leads(start, more, t) && Calm(t, f) && Uncommanded(s, t) && t.session.pendingSeek == None
    ensures t.worker.pc.Waiting? && t.worker.job.active.format == f && Queued(t, 1, f, 0, 0)
  {
    more, t := ReopeningLeads(start, events, s, f, 0.0);
    more, t := SeekingLeads(start, more, t, f);
    more, t := ClearingLeads(start, more, t, f);
    more, t := PushingLeads(start, more, t, f, 1, 0, 0);
  }

  /** A track is loaded, a seek asked for, and a callback has told its format. */
  lemma AskingLeads(c: Controls, target: nat) returns (events: seq<Event>, t: State)
    ensures Leads(Init(true, c), events, t) && Calm(t, FORMAT) && MustOpen(t, FORMAT)
    ensures t.session.seek == 1 && t.history.seekTargets == [0, target] && t.session.frameCount == FRAMES
  {
    var start, loaded := Init(true, c), ApplyLoad(Init(true, c), "track");
    events := LoadingLeads(c);
    events := Then(start, events, loaded, Call(SeekTo(target)), ApplySeekTo(loaded, target));
    events := CallingBackLeads(start, events, ApplySeekTo(loaded, target), FORMAT, FRAMES);
    t := CalledBack(ApplySeekTo(loaded, target), FORMAT, FRAMES);
  }

  /** For any position there is a run in which the worker, for a current request, seeks to the start
      although that position is what was asked for last: the device has changed its format. */
  lemma ASeekIsLost(c: Controls, target: nat) returns (events: seq<Event>, s: State)
    ensures Leads(Init(true, c), events, s) && Current(s) && Enabled(s, Work(WorkerSeek(OpenOk)))
    ensures s.history.seekTargets == [0, target] && s.session.seek == 1
    ensures
      var t := Apply(s, Work(WorkerSeek(OpenOk)));
      t.decoder.Open? && t.decoder.standing == At(1, 0)
  {
    events, s := AskingLeads(c, target);
    events, s := CarryingOutLeads(Init(true, c), events, s, FORMAT);
    events := CallingBackLeads(Init(true, c), events, s, OTHER_FORMAT, FRAMES);
    s := CalledBack(s, OTHER_FORMAT, FRAMES);
    events, s := ReopeningLeads(Init(true, c), events, s, OTHER_FORMAT, 0.0);
    assert s.worker.job.request.seek == 1 && s.worker.job.request.target == None;
  }

  // -------------------------------------------------------------- a worker is forsaken

  /** The worker cannot open its request's source in a format new to it. */
  lemma FailingLeads(start: State, events: seq<Event>, s: State, f: Format) returns (more: seq<Event>, t: State)
    requires Leads(start, events, s) && Calm(s, f) && MustReopen(s, f)
    ensures Leads(start, more, t) && t.worker.pc.Waiting? && t.decoder.Closed?
    ensures t.session == SourceError(s, Broken).session && t.pipelines == s.pipelines && t.render == s.render
    ensures t.worker.job.failed == Some(Active(1, s.session.seek, f, s.session.frameCount))
    ensures t.worker.job.active == s.worker.job.active && t.worker.job.endOfStream
  {
    var w := Woken(s);
    more := Then(start, events, s, Work(WorkerWake), w);
    more := ClosingLeads(start, more, w);
    var a := Goto(w, OpenFailed(Broken)).(decoder := Closed);
    more := Then(start, more, Goto(w, Opening).(decoder := Closed), Work(WorkerOpen(OpenBad(Broken))), a);
    t := ApplyWorkerOpenFailed(a);
    more := Then(start, more, a, Work(WorkerOpenFailed), t);
  }

  /** The worker waits, having played the session's source in another format. */
  predicate MustReopen(s: State, f: Format) {
    && s.worker.pc.Waiting? && s.worker.job.active.generation == 1 && s.worker.job.active.format != f
    && (s.pipelines.published.Some? ==> HasPayload(s.pipelines, s.pipelines.published))
  }

  /** The device changes its format, the source cannot be opened in it, and the device changes it back: then
      the worker rests without a decoder, and a play leaves it at that and the session loading. */
  lemma AWorkerIsForsaken(c: Controls) returns (events: seq<Event>, t: State)
    ensures Leads(Init(true, c), events, t) && HasTask(t) && Forsaken(t, t.worker.job.failed)
    ensures !StillAsked(t.session, t.worker.job.failed.value)
    ensures t.worker.pc.Waiting? && Enabled(t, Work(WorkerWake)) && Apply(t, Work(WorkerWake)) == t
    ensures Enabled(t, Call(Play))
    ensures
      var u := Apply(t, Call(Play));
      u.session.status == StatusLoading && Enabled(u, Work(WorkerWake)) && Apply(u, Work(WorkerWake)) == u
  {
    var start, s := Init(true, c), Init(true, c);
    events, s := QueueingLeads(c, 0, 0, 0.0);
    events := CallingBackLeads(start, events, s, OTHER_FORMAT, FRAMES);
    s := CalledBack(s, OTHER_FORMAT, FRAMES);
    events, s := FailingLeads(start, events, s, OTHER_FORMAT);
    events := SilentLeads(start, events, s, FORMAT, FRAMES);
    t := CalledBack(s, FORMAT, FRAMES);
  }
}
