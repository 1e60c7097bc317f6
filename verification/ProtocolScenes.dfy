/** Pieces of runs of the playback session, for the runs that show what does happen. */
module ProtocolScenes {
  import opened Wrappers
  import opened ProtocolState
  import opened ProtocolSteps
  import Transitions

  const FORMAT := Format(0, 48000, 2, 32, 32, 3, true)
  const OTHER_FORMAT := FORMAT.(sampleRate := 44100)
  const FRAMES: nat := 480

  function Step(): (State, Event) -> Option<State> {
    (s: State, e: Event) => if Enabled(s, e) then Some(Apply(s, e)) else None
  }

  ghost predicate Leads(s: State, events: seq<Event>, t: State) { Transitions.Leads(Step(), s, events, t) }

  /** Events that lead from `start` to `s`, and one more. */
  lemma Then(start: State, events: seq<Event>, s: State, e: Event, t: State) returns (more: seq<Event>)
    requires Leads(start, events, s) && Enabled(s, e) && Apply(s, e) == t
    ensures more == events + [e] && Leads(start, more, t)
  {
    more := events + [e];
    Transitions.LeadsOn(Step(), start, events, s, e);
  }

  // --------------------------------------------------------------------- the worker

  /** The worker opens its request's source. */
  function OpenedFor(s: State): State {
    s.(decoder := Open(s.worker.job.request.uri, s.worker.job.request.format, At(0, 0)),
       worker := s.worker.(pc := LoadingPublished(ForOpen)))
  }

  lemma ClosingLeads(start: State, events: seq<Event>, s: State) returns (more: seq<Event>)
    requires Leads(start, events, s) && s.worker.pc.Checking? && s.LockFree() && Current(s)
    ensures Leads(start, more, Goto(s, Opening).(decoder := Closed))
  {
    more := Then(start, events, s, Work(WorkerCheck), Goto(s, ClosingDecoder));
    more := Then(start, more, Goto(s, ClosingDecoder), Work(WorkerCloseDecoder), Goto(s, Opening).(decoder := Closed));
  }

  lemma OpeningLeads(start: State, events: seq<Event>, s: State) returns (more: seq<Event>)
    requires Leads(start, events, s)
    requires s.worker.pc.Checking? && s.LockFree() && Current(s) && s.worker.job.request.format.channels != 0
    ensures Leads(start, more, OpenedFor(s))
  {
    more := ClosingLeads(start, events, s);
    var t := OpenedFor(s).(worker := s.worker.(pc := Opened));
    more := Then(start, more, Goto(s, Opening).(decoder := Closed), Work(WorkerOpen(OpenOk)), t);
    more := Then(start, more, t, Work(WorkerConfirmOpen), OpenedFor(s));
  }

  /** The worker has built a new pipeline in `slot`, and has published it. */
  function Rebuilt(s: State, slot: nat): State
    requires s.worker.pc.LoadingPublished? && slot < |s.pipelines.slots|
  {
    ApplyWorkerRebuild(Goto(s, Rebuilding(s.worker.pc.stage, slot)))
  }

  function Replaced(s: State, slot: nat, headroom: real): State
    requires s.worker.pc.LoadingPublished? && slot < |s.pipelines.slots|
  {
    ApplyWorkerPublish(Rebuilt(s, slot), headroom)
  }

  lemma ChoosingLeads(start: State, events: seq<Event>, s: State, slot: nat) returns (more: seq<Event>)
    requires Leads(start, events, s)
    requires s.worker.pc.LoadingPublished? && FreeSlot(s.pipelines.published, s.pipelines.hazard, 0) == Some(slot)
    ensures Leads(start, more, Goto(s, Rebuilding(s.worker.pc.stage, slot)))
  {
    var t := Goto(s, LoadingHazard(s.worker.pc.stage, s.pipelines.published));
    more := Then(start, events, s, Work(WorkerLoadPublished), t);
    more := Then(start, more, t, Work(WorkerLoadHazard), Goto(s, Rebuilding(s.worker.pc.stage, slot)));
  }

  lemma ReplacingLeads(start: State, events: seq<Event>, s: State, slot: nat, headroom: real) returns (more: seq<Event>)
    requires Leads(start, events, s)
    requires s.worker.pc.LoadingPublished? && s.LockFree() && slot < |s.pipelines.slots|
    requires FreeSlot(s.pipelines.published, s.pipelines.hazard, 0) == Some(slot)
    ensures Leads(start, more, Replaced(s, slot, headroom))
  {
    more := ChoosingLeads(start, events, s, slot);
    more := Then(start, more, Goto(s, Rebuilding(s.worker.pc.stage, slot)), Work(WorkerRebuild), Rebuilt(s, slot));
    more := Then(start, more, Rebuilt(s, slot), Work(WorkerPublish(headroom)), Replaced(s, slot, headroom));
  }

  // ------------------------------------------------------------------- the callback

  /** A callback with another format than the published pipeline's, from begin to end. */
  function CalledBack(s: State, f: Format, n: nat): State {
    s.(session := s.session.(format := Some(f), frameCount := n))
  }

  function SnapshotOf(s: State, f: Format, n: nat): Snapshot {
    Snapshot(f, n, s.session.intent && s.session.requestedUri != "", s.session.version, s.session.controls,
             s.session.headroom)
  }

  /** The callback once it has validated the published pipeline and released the lock. */
  function Acquired(s: State, f: Format, n: nat): State {
    CalledBack(s, f, n).(render := Using(SnapshotOf(s, f, n), s.pipelines.published),
                         pipelines := s.pipelines.(hazard := s.pipelines.published))
  }

  lemma BeginningLeads(start: State, events: seq<Event>, s: State, f: Format, n: nat) returns (more: seq<Event>)
    requires Leads(start, events, s) && s.render.Idle? && !s.session.shuttingDown
    ensures Leads(start, more, Acquired(s, f, n).(render := Validating(SnapshotOf(s, f, n), s.pipelines.published)))
  {
    var snap, t := SnapshotOf(s, f, n), CalledBack(s, f, n);
    var a, b := t.(render := Loading(snap)), t.(render := Storing(snap, s.pipelines.published));
    more := Then(start, events, s, Callback(RenderBegin(f, n)), a);
    more := Then(start, more, a, Callback(RenderLoad), b);
    more := Then(start, more, b, Callback(RenderStoreHazard),
                 Acquired(s, f, n).(render := Validating(snap, s.pipelines.published)));
  }

  lemma AcquiringLeads(start: State, events: seq<Event>, s: State, f: Format, n: nat) returns (more: seq<Event>)
    requires Leads(start, events, s) && s.render.Idle? && !s.session.shuttingDown
    ensures Leads(start, more, Acquired(s, f, n))
  {
    var snap, t := SnapshotOf(s, f, n), Acquired(s, f, n);
    more := BeginningLeads(start, events, s, f, n);
    var a, b := t.(render := Validating(snap, s.pipelines.published)),
      t.(render := Validated(snap, s.pipelines.published));
    more := Then(start, more, a, Callback(RenderReload), b);
    more := Then(start, more, b, Callback(RenderUnlock), t);
  }

  /** There is no published pipeline that suits a format. */
  predicate Unsuited(s: State, f: Format) {
    && s.render.Idle? && s.pipelines.hazard == None && !s.session.shuttingDown
    && (s.pipelines.published.None?
        || (HasPayload(s.pipelines, s.pipelines.published)
            && PayloadOf(s.pipelines, s.pipelines.published).format != f))
  }

  lemma CallingBackLeads(start: State, events: seq<Event>, s: State, f: Format, n: nat) returns (more: seq<Event>)
    requires Leads(start, events, s) && Unsuited(s, f)
    ensures Leads(start, more, CalledBack(s, f, n))
  {
    more := AcquiringLeads(start, events, s, f, n);
    var t := Acquired(s, f, n).(render := Releasing(s.pipelines.published));
    more := Then(start, more, Acquired(s, f, n), Callback(RenderPop), t);
    more := Then(start, more, t, Callback(RenderRelease), CalledBack(s, f, n));
  }

  lemma SilentLeads(start: State, events: seq<Event>, s: State, f: Format, n: nat) returns (more: seq<Event>)
    requires Leads(start, events, s) && s.render.Idle? && s.pipelines.hazard == None
    requires !s.session.shuttingDown && !s.session.intent
    ensures Leads(start, more, CalledBack(s, f, n))
  {
    more := AcquiringLeads(start, events, s, f, n);
    var t := Acquired(s, f, n).(render := Releasing(s.pipelines.published));
    more := Then(start, more, Acquired(s, f, n), Callback(RenderPop), t);
    more := Then(start, more, t, Callback(RenderRelease), CalledBack(s, f, n));
  }

  // -------------------------------------------------------------------- longer pieces

  /** A first source is requested in the format `f`, and no callback is running. */
  predicate Calm(s: State, f: Format) {
    && s.render.Idle? && s.pipelines.hazard == None && |s.pipelines.slots| == PIPELINE_SLOTS
    && !s.session.shuttingDown && !s.session.closed && s.session.requestedUri != "" && s.session.generation == 1
    && s.session.format == Some(f) && s.session.frameCount > 0 && f.channels != 0 && s.worker.job.failed == None
  }

  /** Nobody has commanded anything between `s` and `t`. */
  predicate Uncommanded(s: State, t: State) {
    && t.session.intent == s.session.intent && t.session.seek == s.session.seek
    && t.session.frameCount == s.session.frameCount && t.history.seekTargets == s.history.seekTargets
  }

  /** The worker has an empty pipeline in `slot` for its current request. */
  predicate Built(s: State, f: Format, slot: nat) {
    && Current(s) && s.decoder.Open?
    && s.worker.job.request.format == s.worker.job.active.format == f
      && s.worker.job.request.frameCount == s.session.frameCount
    && s.pipelines.published == s.worker.job.pipeline == Some(slot) && HasPayload(s.pipelines, Some(slot))
    && PayloadOf(s.pipelines, Some(slot))
      == FreshPayload(s.worker.job.request, PayloadOf(s.pipelines, Some(slot)).build)
  }

  /** The worker waits, with nothing to decode in the format `f`. */
  predicate MustOpen(s: State, f: Format) {
    && s.worker.pc.Waiting? && (s.worker.job.active.generation != 1 || s.worker.job.active.format != f)
    && s.pipelines.published != Some(0)
      && (s.pipelines.published.Some? ==> HasPayload(s.pipelines, s.pipelines.published))
  }

  /** The state of a worker woken to open. */
  function Woken(s: State): State
    requires s.session.format.Some?
  {
    s.(worker := Worker(Checking, Taken(s)))
  }

  lemma WakingLeads(start: State, events: seq<Event>, s: State, f: Format) returns (more: seq<Event>)
    requires Leads(start, events, s) && Calm(s, f) && MustOpen(s, f)
    ensures Leads(start, more, Woken(s))
  {
    more := Then(start, events, s, Work(WorkerWake), Woken(s));
  }

  lemma AnnouncingLeads(start: State, events: seq<Event>, s: State, f: Format, headroom: real)
    returns (more: seq<Event>, t: State)
    requires Calm(s, f) && Current(s) && s.worker.pc == LoadingPublished(ForOpen) && s.worker.job.request.format == f
    requires s.decoder.Open? && s.worker.job.request.frameCount == s.session.frameCount
    requires Leads(start, events, Replaced(s, 0, headroom))
    ensures Leads(start, more, t) && Calm(t, f) && Built(t, f, 0) && Uncommanded(s, t)
    ensures t.worker.pc == (if s.session.seek == 0 then Reading else Seeking) && t.session.headroom == headroom
    ensures t.worker.job.request == s.worker.job.request && t.session.pendingSeek == s.session.pendingSeek
    ensures t.worker.job.active == Attempted(t.worker.job.request).(seek := 0)
  {
    var p := Replaced(s, 0, headroom);
    t := ApplyWorkerAnnounce(p, 0);
    more := Then(start, events, p, Work(WorkerAnnounce(0)), t);
  }

  /** The worker wakes, opens the source and comes to its seek, if one was ever asked for. */
  lemma ReopeningLeads(start: State, events: seq<Event>, s: State, f: Format, headroom: real)
    returns (more: seq<Event>, t: State)
    requires Leads(start, events, s) && Calm(s, f) && MustOpen(s, f)
    ensures Leads(start, more, t) && Calm(t, f) && Built(t, f, 0) && Uncommanded(s, t)
    ensures t.worker.pc == (if s.session.seek == 0 then Reading else Seeking) && t.session.headroom == headroom
    ensures t.worker.job.request.target == t.session.pendingSeek == s.session.pendingSeek
    ensures t.worker.job.active == Attempted(t.worker.job.request).(seek := 0)
  {
    more := WakingLeads(start, events, s, f);
    var w := Woken(s);
    more := OpeningLeads(start, more, w);
    assert FreeSlot(s.pipelines.published, None, 0) == Some(0);
    more := ReplacingLeads(start, more, OpenedFor(w), 0, headroom);
    more, t := AnnouncingLeads(start, more, OpenedFor(w), f, headroom);
  }

  /** The worker after it has read one block. */
  function HavingRead(s: State, position: int, duration: int): State {
    ApplyWorkerRead(s, ReadOk(position, duration, false,
                              s.worker.job.request.frameCount * s.worker.job.request.format.channels))
  }

  lemma ReadingLeads(start: State, events: seq<Event>, s: State, position: int, duration: int)
    returns (more: seq<Event>)
    requires Leads(start, events, s) && s.worker.pc.Reading? && s.decoder.Open?
    ensures Leads(start, more, HavingRead(s, position, duration))
  {
    var n := s.worker.job.request.frameCount * s.worker.job.request.format.channels;
    more := Then(start, events, s, Work(WorkerRead(ReadOk(position, duration, false, n))),
                 HavingRead(s, position, duration));
  }

  /** The block at the head of the pipeline in `slot`. */
  predicate Queued(s: State, slot: nat, f: Format, position: int, duration: int) {
    && s.pipelines.published == Some(slot) && HasPayload(s.pipelines, Some(slot))
    && PayloadOf(s.pipelines, Some(slot)).format == f
      && PayloadOf(s.pipelines, Some(slot)).frameCount == s.session.frameCount
    && PayloadOf(s.pipelines, Some(slot)).applied == None && PayloadOf(s.pipelines, Some(slot)).queue != []
    && var b := PayloadOf(s.pipelines, Some(slot)).queue[0];
       b.tag == Tag(s.session.generation, s.session.seek) && b.position == position && b.duration == duration
         && !b.endOfStream
  }

  /** One block is read and pushed, and the worker waits again. */
  lemma PushingLeads(start: State, events: seq<Event>, s: State, f: Format, slot: nat, position: int, duration: int)
    returns (more: seq<Event>, t: State)
    requires Leads(start, events, s) && Calm(s, f) && Built(s, f, slot) && s.worker.pc.Reading?
    ensures Leads(start, more, t) && Calm(t, f) && t.session == s.session && t.history == s.history
    ensures t.worker.pc.Waiting? && t.worker.job.active.format == f && Queued(t, slot, f, position, duration)
    ensures t.worker.job.active == s.worker.job.active
  {
    more := ReadingLeads(start, events, s, position, duration);
    var r := HavingRead(s, position, duration);
    t := ApplyWorkerPush(r);
    more := Then(start, more, r, Work(WorkerPush), t);
  }
}
