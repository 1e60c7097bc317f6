/** The life of a low-level audio stream: its state machine and the handshake between any number
    of callers of start, stop, reset and close and the worker threads they launch. */
module StreamStateMachine {
  import opened Wrappers

  datatype StreamState = Created | Prepared | Running | Stopped | Faulted | Closed

  datatype Transition = Prepare | Start | Stop | Reset | Fault | Close

  predicate CanTransition(s: StreamState, t: Transition) {
    match s
    case Created => t == Prepare || t == Fault || t == Close
    case Prepared => t == Start || t == Reset || t == Fault || t == Close
    case Running => t == Stop || t == Fault || t == Close
    case Stopped => t == Start || t == Reset || t == Fault || t == Close
    case Faulted => t == Reset || t == Close
    case Closed => false
  }

  function NextState(t: Transition): StreamState {
    match t
    case Prepare => Prepared
    case Start => Running
    case Stop => Stopped
    case Reset => Prepared
    case Fault => Faulted
    case Close => Closed
  }

  /** The state after an attempted transition: an illegal one changes nothing. */
  function Attempted(s: StreamState, t: Transition): StreamState {
    if CanTransition(s, t) then NextState(t) else s
  }

  /** Closed is the one final state, and every other state can reach it in one step. */
  lemma ClosedIsFinal(s: StreamState)
    ensures (forall t :: Attempted(s, t) == s) <==> s == Closed
    ensures Attempted(s, Close) == Closed
  {
    if s != Closed { assert Attempted(s, Close) != s; }
  }

  class Machine {
    var state: StreamState

    constructor ()
      ensures state == Created
    {
      state := Created;
    }

    method Transition(t: Transition) returns (r: Option<StreamState>)
      modifies this
      ensures state == Attempted(old(state), t)
      ensures r == if CanTransition(old(state), t) then Some(state) else None
    {
      if !CanTransition(state, t) {
        return None;
      }
      state := NextState(t);
      return Some(state);
    }
  }
}

module StreamLifecycle {
  import opened Wrappers
  import opened StreamStateMachine
  import Transitions

  /** A worker thread: not yet started up, delivering callbacks, on its way out, or finished. */
  datatype WorkerPc = Starting | Playing | Ending | Gone

  /** What a call that has not returned is doing. */
  datatype CallerPc =
    | StartWaits      // start waits for the startup result
    | StartDrains     // a failed start waits for the worker to finish
    | StopWaits       // stop waits for the worker to finish
    | ResetStops      // reset is about to run stop
    | ResetWaits      // reset waits in stop
    | ResetFinishes   // reset is about to take the lock for its own transition
    | CloseWaits      // the close that closed the stream waits for the worker to finish

  datatype State = State(
    machine: StreamState,
    status: StreamState,
    closed: bool,
    active: bool,
    stopRequested: bool,
    startupCompleted: bool,
    startupFailed: bool,
    /** Every worker ever launched; the last one is the current one. */
    workers: seq<WorkerPc>,
    /** The calls in progress. */
    calls: map<nat, CallerPc>,
    /** History: whether the close that closed the stream has returned. */
    closeReturned: bool,
    /** History: the call that closed the stream. */
    closer: Option<nat>,
    /** History: whether the latest launch, which cleared the startup result, failed to create its
        thread. */
    launchFailed: bool)

  const INIT := State(Prepared, Prepared, false, false, false, false, false, [], map[], false, None, false)

  datatype Launch = Launched | NoEvent | NoThread

  /** Steps of calls from outside the worker; `caller` names the call until it returns. */
  datatype CallEvent =
    | StartBegin(caller: nat, valid: bool, launch: Launch)
    | StartWake(caller: nat)
    | StartDrained(caller: nat)
    | StopBegin(caller: nat)
    | StopWake(caller: nat)
    | ResetBegin(caller: nat)
    | ResetStop(caller: nat)
    | ResetWake(caller: nat)
    | ResetFinish(caller: nat)
    | CloseBegin(caller: nat)
    | CloseWake(caller: nat)

  /** Steps of the current worker; the first two are calls from its own callback. */
  datatype WorkerEvent =
    | SelfStop
    | SelfClose
    | Publish
    | Cancelled
    | StartupFails
    | Callback
    | RuntimeError
    | Breaks
    | Emergency
    | Exit

  datatype Event = Call(call: CallEvent) | Work(work: WorkerEvent)

  predicate Busy(s: State, caller: nat, pc: CallerPc) { caller in s.calls && s.calls[caller] == pc }

  function Returned(s: State, caller: nat): State { s.(calls := s.calls - {caller}) }

  function Waiting(s: State, caller: nat, pc: CallerPc): State { s.(calls := s.calls[caller := pc]) }

  function Current(s: State): WorkerPc { if s.workers == [] then Gone else s.workers[|s.workers| - 1] }

  function WithCurrent(workers: seq<WorkerPc>, pc: WorkerPc): (after: seq<WorkerPc>)
    ensures |after| == |workers|
  {
    if workers == [] then workers else workers[|workers| - 1 := pc]
  }

  function SetCurrent(s: State, pc: WorkerPc): State { s.(workers := WithCurrent(s.workers, pc)) }

  function Faulting(s: State): State {
    s.(machine := Attempted(s.machine, Fault), status := Faulted)
  }

  /** A fault, where `faults` says it is to be recorded. */
  function FaultingIf(s: State, faults: bool): State {
    s.(machine := if faults then Attempted(s.machine, Fault) else s.machine,
       status := if faults then Faulted else s.status)
  }

  function StartupResult(s: State, failed: bool): State {
    s.(startupFailed := failed, startupCompleted := true)
  }

  /** Launching a worker, or failing to. */
  function ApplyLaunch(s: State, caller: nat, launch: Launch): State {
    match launch
    case NoEvent => Faulting(s)
    case NoThread => Faulting(s.(stopRequested := false, startupCompleted := false, startupFailed := false,
                                 launchFailed := true))
    case Launched =>
      Waiting(s.(stopRequested := false, startupCompleted := false, startupFailed := false, launchFailed := false,
                 active := true,
                 workers := s.workers + [Starting]), caller, StartWaits)
  }

  function ApplyStart(s: State, caller: nat, valid: bool, launch: Launch): State {
    if s.closed || s.active || !valid || !CanTransition(s.machine, Start) then s
    else ApplyLaunch(s.(machine := NextState(Start)), caller, launch)
  }

  function ApplyStartWake(s: State, caller: nat): State {
    if s.startupFailed then Waiting(s, caller, StartDrains)
    else Returned(s.(status := Running), caller)
  }

  /** Whether `stop` returns at once, without asking for anything. */
  predicate StopIsImmediate(s: State) {
    s.closed || (!s.active && s.status != Faulted)
  }

  function StopRequested(s: State): State {
    s.(machine := if s.machine == Running then Attempted(Running, Stop) else s.machine, stopRequested := true)
  }

  function ApplyStop(s: State, caller: nat): State {
    if StopIsImmediate(s) then s else Waiting(StopRequested(s), caller, StopWaits)
  }

  function StopDone(s: State): State {
    s.(status := if !s.closed && s.status != Faulted then Stopped else s.status)
  }

  function ApplyResetStop(s: State, caller: nat): State {
    if StopIsImmediate(s) then Waiting(s, caller, ResetFinishes) else Waiting(StopRequested(s), caller, ResetWaits)
  }

  function ApplyResetFinish(s: State, caller: nat): State {
    var resets := !s.closed && CanTransition(s.machine, Reset);
    Returned(s, caller).(machine := if resets then NextState(Reset) else s.machine,
                         status := if resets then Prepared else s.status)
  }

  function ApplyClose(s: State, caller: nat): State {
    if s.closed then s
    else
      Waiting(s.(stopRequested := true, closed := true, closer := Some(caller), machine := Attempted(s.machine, Close),
                 status := Closed), caller, CloseWaits)
  }

  function ApplyPublish(s: State): State {
    if s.stopRequested || s.closed then StartupResult(SetCurrent(s, Ending), true)
    else StartupResult(SetCurrent(s, Playing).(status := Running), false)
  }

  function ApplyStartupFails(s: State): State {
    StartupResult(SetCurrent(FaultingIf(s, !s.closed && s.machine == Running), Ending), true)
  }

  function ApplyRuntimeError(s: State): State {
    SetCurrent(FaultingIf(s, !s.closed), Ending)
  }

  function ApplyEmergency(s: State): State {
    SetCurrent(FaultingIf(s, !s.closed), Ending).(startupCompleted := true)
  }

  /** The last critical section of a worker thread. */
  function ApplyExit(s: State): State {
    SetCurrent(s, Gone).(active := false, startupCompleted := true,
                         startupFailed := if s.startupCompleted then s.startupFailed else true,
                         status := if !s.closed && s.status != Faulted then Stopped else s.status)
  }

  predicate CallEnabled(s: State, e: CallEvent) {
    match e
    case StartBegin(c, _, _) => c !in s.calls
    case StartWake(c) => Busy(s, c, StartWaits) && s.startupCompleted
    case StartDrained(c) => Busy(s, c, StartDrains) && !s.active
    case StopBegin(c) => c !in s.calls
    case StopWake(c) => Busy(s, c, StopWaits) && !s.active
    case ResetBegin(c) => c !in s.calls
    case ResetStop(c) => Busy(s, c, ResetStops)
    case ResetWake(c) => Busy(s, c, ResetWaits) && !s.active
    case ResetFinish(c) => Busy(s, c, ResetFinishes)
    case CloseBegin(c) => c !in s.calls
    case CloseWake(c) => Busy(s, c, CloseWaits) && !s.active
  }

  function ApplyCall(s: State, e: CallEvent): State {
    match e
    case StartBegin(c, valid, launch) => ApplyStart(s, c, valid, launch)
    case StartWake(c) => ApplyStartWake(s, c)
    case StartDrained(c) => Returned(s, c)
    case StopBegin(c) => ApplyStop(s, c)
    case StopWake(c) => Returned(StopDone(s), c)
    case ResetBegin(c) => Waiting(s, c, ResetStops)
    case ResetStop(c) => ApplyResetStop(s, c)
    case ResetWake(c) => Waiting(StopDone(s), c, ResetFinishes)
    case ResetFinish(c) => ApplyResetFinish(s, c)
    case CloseBegin(c) => ApplyClose(s, c)
    case CloseWake(c) => Returned(s, c).(closeReturned := true)
  }

  /** Where the current worker stands when it takes a step. */
  predicate WorkerEnabled(pc: WorkerPc, stopped: bool, e: WorkerEvent) {
    match e
    case SelfStop => pc != Gone
    case SelfClose => pc != Gone
    case Publish => pc == Starting
    case Cancelled => pc == Starting && stopped
    case StartupFails => pc == Starting
    case Callback => pc == Playing
    case RuntimeError => pc == Playing
    case Breaks => pc == Playing && stopped
    case Emergency => pc == Starting || pc == Playing
    case Exit => pc == Ending
  }

  function ApplyWork(s: State, e: WorkerEvent): State {
    match e
    case SelfStop => if StopIsImmediate(s) then s else StopRequested(s)
    case SelfClose => if s.closed then s else s.(stopRequested := true)
    case Publish => ApplyPublish(s)
    case Cancelled => StartupResult(SetCurrent(s, Ending), true)
    case StartupFails => ApplyStartupFails(s)
    case Callback => s
    case RuntimeError => ApplyRuntimeError(s)
    case Breaks => SetCurrent(s, Ending)
    case Emergency => ApplyEmergency(s)
    case Exit => ApplyExit(s)
  }

  predicate Enabled(s: State, e: Event) {
    match e
    case Call(call) => CallEnabled(s, call)
    case Work(work) => WorkerEnabled(Current(s), s.stopRequested || s.closed, work)
  }

  function Apply(s: State, e: Event): State {
    match e
    case Call(call) => ApplyCall(s, call)
    case Work(work) => ApplyWork(s, work)
  }

  datatype Run = Run(states: seq<State>, events: seq<Event>) {
    ghost predicate Valid() {
      && |states| == |events| + 1 && states[0] == INIT
      && forall i :: 0 <= i < |events| ==> Steps(i)
    }

    /** Event `i` can happen where it stands and leads to the next state. */
    predicate Steps(i: nat)
      requires |states| == |events| + 1 && i < |events|
    {
      Enabled(states[i], events[i]) && states[i + 1] == Apply(states[i], events[i])
    }
  }

  // ------------------------------------------------------------------ the invariant

  /** Every worker but the current one has finished, and the current one exactly when the stream
      counts no worker as active. */
  ghost predicate OneWorker(workers: seq<WorkerPc>, active: bool) {
    && (forall i :: 0 <= i < |workers| - 1 ==> workers[i] == Gone)
    && (active <==> workers != [] && workers[|workers| - 1] != Gone)
  }

  /** A worker that delivers callbacks or is on its way out has published its startup result. */
  predicate StartupPublished(s: State) {
    Current(s) == Playing || Current(s) == Ending ==> s.startupCompleted
  }

  ghost predicate CallsServed(s: State) {
    forall c :: c in s.calls ==>
      && (s.calls[c] == StartWaits ==> s.workers != [])
      && (s.calls[c] == CloseWaits ==> s.closer == Some(c))
  }

  /** Once a worker has been launched, the startup result is there or owed by a live worker, unless
      the latest launch cleared it and then failed. */
  predicate ResultOwed(s: State) {
    && (s.launchFailed ==> !s.startupCompleted && !s.active)
    && (s.workers != [] ==> s.launchFailed || s.startupCompleted || s.active)
  }

  /** The call that closed the stream waits until it returns. */
  predicate CloserWaits(s: State) {
    && (s.closed <==> s.closer.Some?)
    && (s.closed && !s.closeReturned ==> Busy(s, s.closer.value, CloseWaits))
    && (s.closeReturned ==> s.closed && !s.active && !Busy(s, s.closer.value, CloseWaits))
  }

  ghost predicate Inv(s: State) {
    && OneWorker(s.workers, s.active)
    && (s.closed <==> s.machine == Closed)
    && s.machine != Created
    && StartupPublished(s)
    && ResultOwed(s)
    && CloserWaits(s)
    && (s.closed && s.active ==> s.stopRequested)
    && CallsServed(s)
  }

  // ----------------------------------------------------------------------- steps

  lemma LaunchKeepsInv(s: State, c: nat, launch: Launch)
    requires Inv(s) && c !in s.calls && !s.closed && !s.active && CanTransition(s.machine, Start)
    ensures Inv(ApplyLaunch(s.(machine := Running), c, launch))
  {
  }

  lemma StartKeepsInv(s: State, c: nat, valid: bool, launch: Launch)
    requires Inv(s) && c !in s.calls
    ensures Inv(ApplyStart(s, c, valid, launch))
  {
    if !(s.closed || s.active || !valid || !CanTransition(s.machine, Start)) {
      LaunchKeepsInv(s, c, launch);
    }
  }

  lemma CloseKeepsInv(s: State, c: nat)
    requires Inv(s) && c !in s.calls
    ensures Inv(ApplyClose(s, c))
  {
  }

  lemma StopKeepsInv(s: State, c: nat)
    requires Inv(s) && c !in s.calls
    ensures Inv(ApplyStop(s, c))
  {
  }

  lemma ResetBeginKeepsInv(s: State, c: nat)
    requires Inv(s) && c !in s.calls
    ensures Inv(Waiting(s, c, ResetStops))
  {
  }

  lemma ResetStopKeepsInv(s: State, c: nat)
    requires Inv(s) && Busy(s, c, ResetStops)
    ensures Inv(ApplyResetStop(s, c))
  {
  }

  lemma ResetFinishKeepsInv(s: State, c: nat)
    requires Inv(s) && Busy(s, c, ResetFinishes)
    ensures Inv(ApplyResetFinish(s, c))
  {
  }

  lemma WakeKeepsInv(s: State, e: CallEvent)
    requires Inv(s) && CallEnabled(s, e)
    requires e.StartWake? || e.StartDrained? || e.StopWake? || e.ResetWake? || e.CloseWake?
    ensures Inv(ApplyCall(s, e))
  {
  }

  lemma CallKeepsInv(s: State, e: CallEvent)
    requires Inv(s) && CallEnabled(s, e)
    ensures Inv(ApplyCall(s, e))
  {
    match e
    case StartBegin(c, valid, launch) => StartKeepsInv(s, c, valid, launch);
    case StopBegin(c) => StopKeepsInv(s, c);
    case ResetBegin(c) => ResetBeginKeepsInv(s, c);
    case ResetStop(c) => ResetStopKeepsInv(s, c);
    case ResetFinish(c) => ResetFinishKeepsInv(s, c);
    case CloseBegin(c) => CloseKeepsInv(s, c);
    case _ => WakeKeepsInv(s, e);
  }

  lemma WorkerKeepsInv(s: State, e: WorkerEvent)
    requires Inv(s) && WorkerEnabled(Current(s), s.stopRequested || s.closed, e)
    ensures Inv(ApplyWork(s, e))
  {
    CurrentIsLast(s);
  }

  lemma CurrentIsLast(s: State)
    requires Inv(s)
    ensures Current(s) != Gone <==> s.active
  {
  }

  lemma StepKeepsInv(s: State, e: Event)
    requires Inv(s) && Enabled(s, e)
    ensures Inv(Apply(s, e))
  {
    match e
    case Call(call) => CallKeepsInv(s, call);
    case Work(work) => WorkerKeepsInv(s, work);
  }

  /** Every state of every run satisfies the invariant. */
  lemma {:induction false} RunKeepsInv(r: Run, i: nat)
    requires r.Valid() && i < |r.states|
    ensures Inv(r.states[i])
  {
    if i > 0 {
      RunKeepsInv(r, i - 1);
      assert r.Steps(i - 1);
      StepKeepsInv(r.states[i - 1], r.events[i - 1]);
    }
  }

  // -------------------------------------------------------------------- theorems

  /** At most one worker thread is alive, and one is exactly when the stream counts it as active. */
  lemma AtMostOneWorker(r: Run, i: nat, a: nat, b: nat)
    requires r.Valid() && i < |r.states| && a < |r.states[i].workers| && b < |r.states[i].workers|
    requires r.states[i].workers[a] != Gone && r.states[i].workers[b] != Gone
    ensures a == b && r.states[i].active
  {
    RunKeepsInv(r, i);
  }

  /** The stream is closed exactly when its state machine is. */
  lemma ClosedAgrees(r: Run, i: nat)
    requires r.Valid() && i < |r.states|
    ensures r.states[i].closed <==> r.states[i].machine == Closed
  {
    RunKeepsInv(r, i);
  }

  /** A worker on its way out has published its startup result: the repair in its last critical
      section never acts. */
  lemma ExitFollowsStartup(r: Run, i: nat)
    requires r.Valid() && i < |r.events| && r.events[i] == Work(Exit)
    ensures r.states[i].startupCompleted && r.states[i].active && !r.states[i + 1].active
  {
    RunKeepsInv(r, i);
    assert r.Steps(i);
  }

  /** What a step of a closed stream leaves as it is. */
  predicate StaysClosed(s: State, t: State) {
    t.closed && t.closer == s.closer && |t.workers| == |s.workers| && (s.closeReturned ==> t.closeReturned)
  }

  lemma StepKeepsClosed(s: State, e: Event)
    requires Inv(s) && Enabled(s, e) && s.closed
    ensures StaysClosed(s, Apply(s, e))
  {
    match e
    case Call(call) => CallKeepsClosed(s, call);
    case Work(work) => WorkKeepsClosed(s, work);
  }

  lemma CallKeepsClosed(s: State, e: CallEvent)
    requires Inv(s) && CallEnabled(s, e) && s.closed
    ensures StaysClosed(s, ApplyCall(s, e))
  {
  }

  lemma WorkKeepsClosed(s: State, e: WorkerEvent)
    requires Inv(s) && WorkerEnabled(Current(s), s.stopRequested || s.closed, e) && s.closed
    ensures StaysClosed(s, ApplyWork(s, e))
  {
  }

  lemma NextStaysClosed(r: Run, i: nat)
    requires r.Valid() && i < |r.events| && r.states[i].closed
    ensures StaysClosed(r.states[i], r.states[i + 1])
  {
    RunKeepsInv(r, i);
    assert r.Steps(i);
    StepKeepsClosed(r.states[i], r.events[i]);
  }

  lemma {:induction false} StaysClosedFrom(r: Run, i: nat, j: nat)
    requires r.Valid() && i <= j < |r.states| && r.states[i].closed
    ensures StaysClosed(r.states[i], r.states[j])
    decreases j
  {
    if i < j {
      StaysClosedFrom(r, i, j - 1);
      NextStaysClosed(r, j - 1);
    }
  }

  /** Once closed, the stream stays closed and launches no worker. */
  lemma ClosedIsForever(r: Run, i: nat, j: nat)
    requires r.Valid() && i <= j < |r.states| && r.states[i].closed
    ensures StaysClosed(r.states[i], r.states[j]) && r.states[j].machine == Closed
  {
    StaysClosedFrom(r, i, j);
    RunKeepsInv(r, j);
  }

  /** From the moment the close that closed the stream has returned, no worker is alive, none is
      ever launched, and no callback runs. */
  lemma NothingRunsAfterClose(r: Run, i: nat, j: nat)
    requires r.Valid() && i < |r.events| && r.events[i].Call? && r.events[i].call.CloseWake? && i < j < |r.states|
    ensures !r.states[j].active && r.states[j].closed && |r.states[j].workers| == |r.states[i].workers|
    ensures forall w :: 0 <= w < |r.states[j].workers| ==> r.states[j].workers[w] == Gone
    ensures j < |r.events| ==> r.events[j] != Work(Callback)
  {
    RunKeepsInv(r, i);
    assert r.Steps(i);
    RunKeepsInv(r, i + 1);
    ClosedIsForever(r, i + 1, j);
    RunKeepsInv(r, j);
    if j < |r.events| { assert r.Steps(j); }
  }

  /** From the close that closed the stream until that close returns it is the one close that
      waits; afterwards none does. */
  lemma ClosingCallWaits(r: Run, i: nat, j: nat, c: nat, d: nat)
    requires r.Valid() && i < |r.events| && r.events[i] == Call(CloseBegin(c)) && !r.states[i].closed
    requires i < j < |r.states|
    ensures Busy(r.states[j], d, CloseWaits) <==> d == c && !r.states[j].closeReturned
  {
    assert r.Steps(i);
    ClosedIsForever(r, i + 1, j);
    RunKeepsInv(r, j);
  }

  /** A close returns at once exactly when the stream is already closed. It then returns while a
      worker is alive exactly when one is, and then the call that closed the stream still waits. */
  lemma LaterCloseReturnsAtOnce(r: Run, i: nat, c: nat)
    requires r.Valid() && i < |r.events| && r.events[i] == Call(CloseBegin(c))
    ensures c !in r.states[i + 1].calls <==> r.states[i].closed
    ensures c !in r.states[i + 1].calls && r.states[i + 1].active <==> r.states[i].closed && r.states[i].active
    ensures r.states[i].closed && r.states[i].active ==> exists d :: d != c && Busy(r.states[i], d, CloseWaits)
  {
    RunKeepsInv(r, i);
    var s := r.states[i];
    assert r.Steps(i);
    if s.closed && s.active { assert Busy(s, s.closer.value, CloseWaits); }
  }

  predicate WakesWhenIdle(e: CallEvent) { e.StopWake? || e.StartDrained? || e.ResetWake? || e.CloseWake? }

  /** A call that waited returns only while no worker is alive. */
  lemma WaitersReturnWhenIdle(r: Run, i: nat)
    requires r.Valid() && i < |r.events|
    requires r.events[i].Call? && WakesWhenIdle(r.events[i].call)
    ensures forall w :: 0 <= w < |r.states[i].workers| ==> r.states[i].workers[w] == Gone
  {
    RunKeepsInv(r, i);
    assert r.Steps(i);
  }

  /** A worker that has been asked to stop is never forgotten: while a close waits, the current
      worker has seen the request. */
  lemma ClosingWorkerIsAsked(r: Run, i: nat)
    requires r.Valid() && i < |r.states| && r.states[i].closed && r.states[i].active
    ensures r.states[i].stopRequested
  {
    RunKeepsInv(r, i);
  }

  /** A waiting start waits for a result that is neither there nor owed by a live worker exactly
      while the latest launch is one whose thread could not be created. */
  lemma StartIsServed(r: Run, i: nat, c: nat)
    requires r.Valid() && i < |r.states| && Busy(r.states[i], c, StartWaits)
    ensures !r.states[i].startupCompleted && !r.states[i].active <==> r.states[i].launchFailed
  {
    RunKeepsInv(r, i);
  }

  /** Whether a step is a launch that clears the startup result. */
  predicate Launches(s: State, e: Event) {
    && e.Call? && e.call.StartBegin? && !e.call.launch.NoEvent?
    && !s.closed && !s.active && e.call.valid && CanTransition(s.machine, Start)
  }

  lemma CallDecides(s: State, e: CallEvent)
    requires CallEnabled(s, e)
    ensures ApplyCall(s, e).launchFailed == if Launches(s, Call(e)) then e.launch.NoThread? else s.launchFailed
  {
  }

  lemma WorkDecides(s: State, e: WorkerEvent)
    ensures ApplyWork(s, e).launchFailed == s.launchFailed
  {
    match e {
      case SelfStop =>
      case SelfClose =>
      case Publish =>
      case Cancelled =>
      case StartupFails =>
      case Callback =>
      case RuntimeError =>
      case Breaks =>
      case Emergency =>
      case Exit =>
    }
  }

  /** The launches of a run decide it alone: a later launch that succeeds serves a stranded start. */
  lemma LatestLaunchDecides(r: Run, i: nat)
    requires r.Valid() && i < |r.events|
    ensures r.states[i + 1].launchFailed ==
            if Launches(r.states[i], r.events[i]) then r.events[i].call.launch.NoThread? else r.states[i].launchFailed
  {
    assert r.Steps(i);
    match r.events[i]
    case Call(e) => CallDecides(r.states[i], e);
    case Work(e) => WorkDecides(r.states[i], e);
  }

  // ------------------------------------------------------------- what the calls do

  /** All but the calls in progress is as it was. */
  predicate OnlyCalls(s: State, t: State) { t == s.(calls := t.calls) }

  /** A reset ends with the stream prepared, in its machine and in its status, whatever fault or stop
      it found; only a closed stream or one that runs again by then is left as it is. */
  lemma ResetPrepares(r: Run, i: nat, c: nat)
    requires r.Valid() && i < |r.events| && r.events[i] == Call(ResetFinish(c))
    ensures
      var s, t := r.states[i], r.states[i + 1];
      && c !in t.calls
      && (if s.machine == Closed || s.machine == Running then OnlyCalls(s, t)
          else (t.machine, t.status) == (Prepared, Prepared)
               && t == s.(calls := t.calls, machine := t.machine, status := t.status))
  {
    RunKeepsInv(r, i);
    assert r.Steps(i);
  }

  /** A start is refused, and changes nothing, exactly on a closed or faulted stream, on one that
      has a worker or still counts as running, and for a bad request. Otherwise the stream runs
      under a new worker that nobody has asked to stop, and the call waits for its result; or,
      if there is no event or no thread for it, the stream is faulted. */
  lemma StartLaunches(r: Run, i: nat, c: nat, valid: bool, launch: Launch)
    requires r.Valid() && i < |r.events| && r.events[i] == Call(StartBegin(c, valid, launch))
    ensures
      var s, t := r.states[i], r.states[i + 1];
      if valid && !s.active && (s.machine == Prepared || s.machine == Stopped) then
        match launch
        case Launched =>
          && t.machine == Running && t.active && t.workers == s.workers + [Starting] && Busy(t, c, StartWaits)
          && !t.stopRequested && !t.startupCompleted && t.status == s.status
        case _ => (t.machine, t.status) == (Faulted, Faulted) && t.workers == s.workers && t.calls == s.calls
      else t == s
  {
    RunKeepsInv(r, i);
    assert r.Steps(i);
  }

  /** A start that wakes to a successful startup returns and reports the stream as running; one that
      wakes to a failed startup goes on waiting until the worker has finished. */
  lemma StartReports(r: Run, i: nat, c: nat)
    requires r.Valid() && i < |r.events| && r.events[i] == Call(StartWake(c))
    ensures
      var s, t := r.states[i], r.states[i + 1];
      && s.startupCompleted
      && (if s.startupFailed then Busy(t, c, StartDrains) && OnlyCalls(s, t)
          else c !in t.calls && t == s.(calls := t.calls, status := Running))
  {
    RunKeepsInv(r, i);
    assert r.Steps(i);
  }

  /** What a worker reports of its startup: failed if it was told to stop before, and else that it
      plays, with the stream running. */
  lemma StartupIsPublished(r: Run, i: nat)
    requires r.Valid() && i < |r.events| && (r.events[i] == Work(Publish) || r.events[i] == Work(Cancelled))
    ensures
      var s, t := r.states[i], r.states[i + 1];
      && t.startupCompleted && Current(s) == Starting
      && (t.startupFailed <==> s.stopRequested || s.closed)
      && Current(t) == (if t.startupFailed then Ending else Playing)
      && t.status == (if t.startupFailed then s.status else Running) && t.machine == s.machine
  {
    RunKeepsInv(r, i);
    assert r.Steps(i);
  }

  /** The machine after a request to stop. */
  function AskedToStop(m: StreamState): StreamState { if m == Running then Stopped else m }

  /** A stop with nothing to stop returns at once and changes nothing; any other one asks the worker
      to stop, takes a running stream to stopped, and waits. */
  lemma StopAsks(r: Run, i: nat, c: nat)
    requires r.Valid() && i < |r.events| && r.events[i] == Call(StopBegin(c))
    ensures
      var s, t := r.states[i], r.states[i + 1];
      if !s.closed && (s.active || s.status == Faulted) then
        Busy(t, c, StopWaits) && t == s.(calls := t.calls, stopRequested := true, machine := AskedToStop(s.machine))
      else t == s
  {
    RunKeepsInv(r, i);
    assert r.Steps(i);
  }

  /** So does the stop inside a reset, which otherwise goes on at once. */
  lemma ResetAsks(r: Run, i: nat, c: nat)
    requires r.Valid() && i < |r.events| && r.events[i] == Call(ResetStop(c))
    ensures
      var s, t := r.states[i], r.states[i + 1];
      if !s.closed && (s.active || s.status == Faulted) then
        Busy(t, c, ResetWaits) && t == s.(calls := t.calls, stopRequested := true, machine := AskedToStop(s.machine))
      else Busy(t, c, ResetFinishes) && OnlyCalls(s, t)
  {
    RunKeepsInv(r, i);
    assert r.Steps(i);
  }

  predicate StopEnds(e: CallEvent) { e.StopWake? || e.ResetWake? }

  /** When the wait of a stop is over there is no worker, and the stream is reported as stopped, unless
      it has been closed or is faulted. */
  lemma StopLeavesStopped(r: Run, i: nat)
    requires r.Valid() && i < |r.events| && r.events[i].Call? && StopEnds(r.events[i].call)
    ensures
      var s, t := r.states[i], r.states[i + 1];
      && !t.active && t == s.(calls := t.calls, status := t.status)
      && t.status == (if s.closed || s.status == Faulted then s.status else Stopped)
      && (r.events[i].call.StopWake? ==> r.events[i].call.caller !in t.calls)
      && (r.events[i].call.ResetWake? ==> Busy(t, r.events[i].call.caller, ResetFinishes))
  {
    RunKeepsInv(r, i);
    assert r.Steps(i);
  }

  predicate Fails(e: WorkerEvent) { e.StartupFails? || e.RuntimeError? || e.Emergency? }

  /** A worker that fails is on its way out, and takes every open stream to faulted, except for a
      failed startup that a stop has overtaken. A start never goes on waiting for it. */
  lemma FailureFaults(r: Run, i: nat)
    requires r.Valid() && i < |r.events| && r.events[i].Work? && Fails(r.events[i].work)
    ensures
      var s, t := r.states[i], r.states[i + 1];
      && Current(t) == Ending && t.startupCompleted && t.calls == s.calls
      && (if s.closed || (r.events[i].work.StartupFails? && s.machine != Running)
          then (t.machine, t.status) == (s.machine, s.status)
          else (t.machine, t.status) == (Faulted, Faulted))
      && (r.events[i].work.StartupFails? ==> t.startupFailed)
      && (!r.events[i].work.StartupFails? ==> t.startupFailed == s.startupFailed)
  {
    RunKeepsInv(r, i);
    assert r.Steps(i);
    CurrentIsLast(r.states[i]);
  }

  /** When a worker has finished, the stream is reported as stopped, unless it has been closed or is
      faulted. */
  lemma ExitLeavesStopped(r: Run, i: nat)
    requires r.Valid() && i < |r.events| && r.events[i] == Work(Exit)
    ensures
      var s, t := r.states[i], r.states[i + 1];
      && Current(t) == Gone && !t.active && (t.machine, t.calls) == (s.machine, s.calls)
      && t.status == (if s.closed || s.status == Faulted then s.status else Stopped)
  {
    RunKeepsInv(r, i);
    assert r.Steps(i);
  }

  /** The close of an open stream closes it at once, in its machine and in its status, and asks the
      worker to stop. */
  lemma CloseCloses(r: Run, i: nat, c: nat)
    requires r.Valid() && i < |r.events| && r.events[i] == Call(CloseBegin(c)) && !r.states[i].closed
    ensures
      var s, t := r.states[i], r.states[i + 1];
      && t.closed && t.stopRequested && (t.machine, t.status) == (Closed, Closed)
      && (t.workers, t.active) == (s.workers, s.active) && Busy(t, c, CloseWaits)
  {
    RunKeepsInv(r, i);
    assert r.Steps(i);
  }

  /** What a callback may ask for itself: a stop that takes a running stream to stopped, and a close
      that only asks the worker to stop. Neither waits. */
  lemma CallbacksOnlyAsk(r: Run, i: nat)
    requires r.Valid() && i < |r.events| && (r.events[i] == Work(SelfStop) || r.events[i] == Work(SelfClose))
    ensures
      var s, t := r.states[i], r.states[i + 1];
      && t == s.(machine := t.machine, stopRequested := t.stopRequested)
      && (!s.closed ==> t.stopRequested)
      && t.machine == (if !s.closed && r.events[i].work.SelfStop? then AskedToStop(s.machine) else s.machine)
  {
    RunKeepsInv(r, i);
    assert r.Steps(i);
    CurrentIsLast(r.states[i]);
  }

  lemma StartKeepsRequest(s: State, c: nat, valid: bool, launch: Launch)
    requires s.stopRequested && !Launches(s, Call(StartBegin(c, valid, launch)))
    ensures ApplyStart(s, c, valid, launch).stopRequested
  {
  }

  lemma CallKeepsRequest(s: State, e: CallEvent)
    requires CallEnabled(s, e) && s.stopRequested && !Launches(s, Call(e))
    ensures ApplyCall(s, e).stopRequested
  {
    match e {
      case StartBegin(c, valid, launch) => StartKeepsRequest(s, c, valid, launch);
      case StartWake(_) =>
      case StartDrained(_) =>
      case StopBegin(_) =>
      case StopWake(_) =>
      case ResetBegin(_) =>
      case ResetStop(_) =>
      case ResetWake(_) =>
      case ResetFinish(_) =>
      case CloseBegin(_) =>
      case CloseWake(_) =>
    }
  }

  lemma WorkKeepsRequest(s: State, e: WorkerEvent)
    requires s.stopRequested
    ensures ApplyWork(s, e).stopRequested
  {
    match e {
      case SelfStop =>
      case SelfClose =>
      case Publish =>
      case Cancelled =>
      case StartupFails =>
      case Callback =>
      case RuntimeError =>
      case Breaks =>
      case Emergency =>
      case Exit =>
    }
  }

  /** A request to stop stands until the next launch. */
  lemma {:induction false} RequestStands(r: Run, i: nat, j: nat)
    requires r.Valid() && i <= j < |r.states| && r.states[i].stopRequested
    requires forall k :: i <= k < j ==> !Launches(r.states[k], r.events[k])
    ensures r.states[j].stopRequested
    decreases j
  {
    if i < j {
      RequestStands(r, i, j - 1);
      assert r.Steps(j - 1);
      match r.events[j - 1]
      case Call(e) => CallKeepsRequest(r.states[j - 1], e);
      case Work(e) => WorkKeepsRequest(r.states[j - 1], e);
    }
  }

  // ------------------------------------------------------- what the code does not keep

  function Step(): (State, Event) -> Option<State> {
    (s: State, e: Event) => if Enabled(s, e) then Some(Apply(s, e)) else None
  }

  ghost predicate Leads(s: State, events: seq<Event>, t: State) { Transitions.Leads(Step(), s, events, t) }

  /** Events that lead from `start` to `s`, and one more. */
  lemma Then(start: State, events: seq<Event>, s: State, e: Event, t: State) returns (more: seq<Event>)
    requires Leads(start, events, s) && Enabled(s, e) && Apply(s, e) == t
    ensures more == events + [e] && Leads(start, more, t)
  {
    more := events + [e];
    Transitions.LeadsOn(Step(), start, events, s, e);
  }

  const LAUNCHED := INIT.(machine := Running, active := true, workers := [Starting], calls := map[0 := StartWaits])

  /** The stream once the worker of a first start has published its result, which the start has not
      read yet. */
  const STARTED := LAUNCHED.(status := Running, startupCompleted := true, workers := [Playing])

  lemma StartedIsReached() returns (events: seq<Event>)
    ensures Leads(INIT, events, STARTED)
  {
    events := Then(INIT, [], INIT, Call(StartBegin(0, true, Launched)), LAUNCHED);
    events := Then(INIT, events, LAUNCHED, Work(Publish), STARTED);
  }

  /** The stream while a close waits for that worker. */
  const CLOSING := STARTED.(machine := Closed, status := Closed, closed := true, stopRequested := true,
                            closer := Some(1), calls := map[0 := StartWaits, 1 := CloseWaits])

  lemma ClosingIsReached() returns (events: seq<Event>)
    ensures Leads(INIT, events, CLOSING)
  {
    events := StartedIsReached();
    assert STARTED.calls[1 := CloseWaits] == CLOSING.calls;
    events := Then(INIT, events, STARTED, Call(CloseBegin(1)), CLOSING);
  }

  /** While closed, the public status leaves `Closed` exactly when a start that was overtaken by the
      close wakes to a successful startup. */
  lemma ClosedStatusIsOverwritten(r: Run, i: nat)
    requires r.Valid() && i < |r.events| && r.states[i].closed && r.states[i].status == Closed
    ensures r.states[i + 1].status != Closed <==>
              r.events[i].Call? && r.events[i].call.StartWake? && !r.states[i].startupFailed
  {
    RunKeepsInv(r, i);
    var s, e := r.states[i], r.events[i];
    assert r.Steps(i);
    match e
    case Call(call) => ClosedStatusUnderCall(s, call);
    case Work(work) => ClosedStatusUnderWork(s, work);
  }

  lemma ClosedStatusUnderCall(s: State, e: CallEvent)
    requires Inv(s) && CallEnabled(s, e) && s.closed && s.status == Closed
    ensures ApplyCall(s, e).status != Closed <==> e.StartWake? && !s.startupFailed
  {
  }

  lemma ClosedStatusUnderWork(s: State, e: WorkerEvent)
    requires Inv(s) && WorkerEnabled(Current(s), s.stopRequested || s.closed, e) && s.closed && s.status == Closed
    ensures ApplyWork(s, e).status == Closed
  {
  }

  /** It does happen: a closed stream may report that it is running. */
  lemma ClosedStreamMayReportRunning() returns (events: seq<Event>, t: State)
    ensures Leads(INIT, events, t) && t.closed && t.status == Running
  {
    events := ClosingIsReached();
    t := ApplyStartWake(CLOSING, 0);
    events := Then(INIT, events, CLOSING, Call(StartWake(0)), t);
  }

  /** It does happen that a close returns while the worker is alive. */
  lemma LaterCloseDoesNotWait() returns (events: seq<Event>, t: State)
    ensures Leads(INIT, events + [Call(CloseBegin(2))], t) && 2 !in t.calls && t.active
  {
    events := ClosingIsReached();
    t := CLOSING;
    var more := Then(INIT, events, CLOSING, Call(CloseBegin(2)), t);
  }

  /** The stream while a stop waits for the worker, and when the worker is gone, both before the
      first start has woken. */
  const STOPPING := STARTED.(machine := Stopped, stopRequested := true, calls := map[0 := StartWaits, 1 := StopWaits])

  const OVERTAKEN := STOPPING.(status := Stopped, active := false, workers := [Gone])

  lemma StoppingIsReached() returns (events: seq<Event>)
    ensures Leads(INIT, events, STOPPING)
  {
    events := StartedIsReached();
    assert STARTED.calls[1 := StopWaits] == STOPPING.calls;
    events := Then(INIT, events, STARTED, Call(StopBegin(1)), STOPPING);
  }

  lemma OvertakenIsReached() returns (events: seq<Event>)
    ensures Leads(INIT, events, OVERTAKEN)
  {
    events := StoppingIsReached();
    var ending := STOPPING.(workers := [Ending]);
    events := Then(INIT, events, STOPPING, Work(Breaks), ending);
    events := Then(INIT, events, ending, Work(Exit), OVERTAKEN);
  }

  /** A start that has not yet woken may be stranded by a later start whose thread cannot be
      created: it then waits for a result that nobody owes. */
  lemma FailedThreadMayStrandAStart() returns (events: seq<Event>, t: State)
    ensures Leads(INIT, events, t) && Busy(t, 0, StartWaits) && !t.startupCompleted && !t.active
  {
    events := OvertakenIsReached();
    t := ApplyStart(OVERTAKEN, 2, true, NoThread);
    events := Then(INIT, events, OVERTAKEN, Call(StartBegin(2, true, NoThread)), t);
  }

  /** The stream has counted as running ever since its worker called close from a callback. */
  ghost predicate ClosedByItself(r: Run, i: nat)
    requires i < |r.states| == |r.events| + 1
  {
    i > 0 && r.states[i].machine == Running && (r.events[i - 1] == Work(SelfClose) || ClosedByItself(r, i - 1))
  }

  /** A live worker that nobody has asked to stop, and that has not failed. */
  predicate Served(s: State) {
    s.active && !s.stopRequested && (Current(s) == Starting || Current(s) == Playing)
  }

  lemma StartKeepsServed(s: State, c: nat, valid: bool, launch: Launch)
    requires ApplyStart(s, c, valid, launch).machine == Running && (s.machine == Running ==> Served(s))
    ensures Served(ApplyStart(s, c, valid, launch))
  {
  }

  lemma StopKeepsServed(s: State, c: nat)
    requires s.machine == Running ==> Served(s)
    ensures ApplyStop(s, c).machine == Running ==> Served(ApplyStop(s, c))
    ensures ApplyResetStop(s, c).machine == Running ==> Served(ApplyResetStop(s, c))
  {
  }

  lemma ResetKeepsServed(s: State, c: nat)
    requires ApplyResetFinish(s, c).machine == Running && (s.machine == Running ==> Served(s))
    ensures Served(ApplyResetFinish(s, c))
  {
  }

  lemma CloseKeepsServed(s: State, c: nat)
    requires ApplyClose(s, c).machine == Running && (s.machine == Running ==> Served(s))
    ensures Served(ApplyClose(s, c))
  {
  }

  lemma CallKeepsServed(s: State, e: CallEvent)
    requires CallEnabled(s, e) && ApplyCall(s, e).machine == Running && (s.machine == Running ==> Served(s))
    ensures Served(ApplyCall(s, e))
  {
    match e {
      case StartBegin(c, valid, launch) => StartKeepsServed(s, c, valid, launch);
      case StartWake(_) =>
      case StartDrained(_) =>
      case StopBegin(c) => StopKeepsServed(s, c);
      case StopWake(_) =>
      case ResetBegin(_) =>
      case ResetStop(c) => StopKeepsServed(s, c);
      case ResetWake(_) =>
      case ResetFinish(c) => ResetKeepsServed(s, c);
      case CloseBegin(c) => CloseKeepsServed(s, c);
      case CloseWake(_) =>
    }
  }

  lemma WorkKeepsServed(s: State, e: WorkerEvent)
    requires Inv(s) && WorkerEnabled(Current(s), s.stopRequested || s.closed, e) && !e.SelfClose?
    requires ApplyWork(s, e).machine == Running && (s.machine == Running ==> Served(s))
    ensures Served(ApplyWork(s, e))
  {
    CurrentIsLast(s);
  }

  lemma StepKeepsServed(s: State, e: Event)
    requires Inv(s) && Enabled(s, e) && e != Work(SelfClose)
    requires Apply(s, e).machine == Running && (s.machine == Running ==> Served(s))
    ensures Served(Apply(s, e))
  {
    match e
    case Call(call) => CallKeepsServed(s, call);
    case Work(work) => WorkKeepsServed(s, work);
  }

  lemma NextIsServed(r: Run, i: nat)
    requires r.Valid() && i < |r.events| && r.events[i] != Work(SelfClose) && r.states[i + 1].machine == Running
    requires r.states[i].machine == Running ==> Served(r.states[i])
    ensures Served(r.states[i + 1])
  {
    RunKeepsInv(r, i);
    assert r.Steps(i);
    StepKeepsServed(r.states[i], r.events[i]);
  }

  /** A stream that counts as running has a worker that nobody has asked to stop, unless the worker
      has closed the stream from its own callback. */
  lemma {:induction false} RunningIsServed(r: Run, i: nat)
    requires r.Valid() && i < |r.states| && r.states[i].machine == Running && !ClosedByItself(r, i)
    ensures Served(r.states[i])
  {
    if i > 0 {
      if r.states[i - 1].machine == Running { RunningIsServed(r, i - 1); }
      NextIsServed(r, i - 1);
    }
  }

  /** A worker that exits leaves the stream counted as running exactly in that case. Then every later
      start is refused and every later reset changes nothing, by `StartLaunches` and `ResetPrepares`. */
  lemma SelfCloseStrandsTheStream(r: Run, i: nat)
    requires r.Valid() && i < |r.events| && r.events[i] == Work(Exit)
    ensures r.states[i + 1].machine == Running <==> ClosedByItself(r, i)
  {
    RunKeepsInv(r, i);
    assert r.Steps(i);
    if r.states[i].machine == Running && !ClosedByItself(r, i) { RunningIsServed(r, i); }
  }

  /** It does happen. */
  lemma AStreamMayRunWithoutAWorker() returns (events: seq<Event>, t: State)
    ensures Leads(INIT, events, t) && t.machine == Running && t.status == Stopped && !t.active && t.calls == map[]
  {
    events := StartedIsReached();
    var s := STARTED.(calls := map[]);
    assert STARTED.calls - {0} == map[];
    events := Then(INIT, events, STARTED, Call(StartWake(0)), s);
    t := s.(stopRequested := true);
    events := Then(INIT, events, s, Work(SelfClose), t);
    s, t := t, t.(workers := [Ending]);
    events := Then(INIT, events, s, Work(Breaks), t);
    s, t := t, t.(workers := [Gone], active := false, status := Stopped);
    events := Then(INIT, events, s, Work(Exit), t);
  }

  /** The stream when its worker has failed, when that is gone, and while a reset is under way. */
  const FAULTED := STARTED.(machine := Faulted, status := Faulted, workers := [Ending])

  const LEFT := FAULTED.(workers := [Gone], active := false)

  const RESETTING := LEFT.(calls := map[0 := StartWaits, 1 := ResetStops])

  const ASKING := RESETTING.(calls := map[0 := StartWaits, 1 := ResetWaits], stopRequested := true)

  const FINISHING := ASKING.(calls := map[0 := StartWaits, 1 := ResetFinishes])

  lemma LeftIsReached() returns (events: seq<Event>)
    ensures Leads(INIT, events, LEFT)
  {
    events := StartedIsReached();
    events := Then(INIT, events, STARTED, Work(RuntimeError), FAULTED);
    events := Then(INIT, events, FAULTED, Work(Exit), LEFT);
  }

  lemma AskingIsReached() returns (events: seq<Event>)
    ensures Leads(INIT, events, ASKING)
  {
    events := LeftIsReached();
    assert LEFT.calls[1 := ResetStops] == RESETTING.calls;
    events := Then(INIT, events, LEFT, Call(ResetBegin(1)), RESETTING);
    assert RESETTING.calls[1 := ResetWaits] == ASKING.calls;
    events := Then(INIT, events, RESETTING, Call(ResetStop(1)), ASKING);
  }

  lemma FinishingIsReached() returns (events: seq<Event>)
    ensures Leads(INIT, events, FINISHING)
  {
    events := AskingIsReached();
    assert ASKING.calls[1 := ResetFinishes] == FINISHING.calls;
    events := Then(INIT, events, ASKING, Call(ResetWake(1)), FINISHING);
  }

  /** A stream that has faulted and lost its worker can be reset and started again. */
  lemma AFaultedStreamStartsAgain() returns (events: seq<Event>, t: State)
    ensures Leads(INIT, events + [Call(ResetFinish(1))] + [Call(StartBegin(2, true, Launched))], t)
    ensures t.machine == Running && t.active && t.workers == [Gone, Starting]
  {
    events := FinishingIsReached();
    var g := ApplyResetFinish(FINISHING, 1);
    var more := Then(INIT, events, FINISHING, Call(ResetFinish(1)), g);
    t := ApplyStart(g, 2, true, Launched);
    more := Then(INIT, more, g, Call(StartBegin(2, true, Launched)), t);
  }
}
