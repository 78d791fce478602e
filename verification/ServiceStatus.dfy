/** The status protocol of the demo service (ServiceProgramTask/main.cpp): the main thread and
    the control handler report states to the service control manager (SCM) through a shared
    SERVICE_STATUS that no lock protects. */
module ServiceStatus {

  const HINT_TIMEOUT: nat := 5000 // milliseconds

  datatype SvcState = StartPending | Running | StopPending | Stopped

  function Rank(s: SvcState): nat {
    match s
    case StartPending => 0
    case Running => 1
    case StopPending => 2
    case Stopped => 3
  }

  predicate IsPending(s: SvcState) { s == StartPending || s == StopPending }

  /** One report, as the SCM receives it; `accepts` are the stop and shutdown controls. */
  datatype Report = Report(state: SvcState, accepts: bool, checkPoint: nat)

  /** The shared status record and m_dwCheckPoint. */
  datatype Fields = Fields(status: Report, next: nat)

  function Filled(f: Fields, state: SvcState): Fields {
    Fields(Report(state, state != StartPending, if IsPending(state) then f.next else 0),
           if IsPending(state) then f.next + 1 else f.next)
  }

  class ServiceContext {
    var currentState: SvcState
    var controlsAccepted: bool
    var checkPoint: nat
    var nextCheckPoint: nat
    var win32ExitCode: int
    var waitHint: nat
    ghost var sent: seq<Report>

    ghost function Value(): Fields
      reads this
    {
      Fields(Report(currentState, controlsAccepted, checkPoint), nextCheckPoint)
    }

    constructor ()
      ensures nextCheckPoint == 1 && sent == []
    {
      currentState, controlsAccepted, checkPoint, nextCheckPoint, sent := Stopped, false, 0, 1, [];
      win32ExitCode, waitHint := 0, 0;
    }

    /** `answer` is what SetServiceStatus returns. */
    method ReportSvcStatus(state: SvcState, exitCode: int, answer: bool) returns (ok: bool)
      modifies this
      ensures ok == answer && win32ExitCode == exitCode && waitHint == 5000
      ensures currentState == state && (controlsAccepted <==> state != StartPending)
      ensures if state == Running || state == Stopped then checkPoint == 0 && nextCheckPoint == old(nextCheckPoint)
              else checkPoint == old(nextCheckPoint) && nextCheckPoint == old(nextCheckPoint) + 1
      ensures Value() == Filled(old(Value()), state)
      ensures sent == old(sent) + [Value().status]
    {
      currentState := state;
      win32ExitCode := exitCode;
      waitHint := HINT_TIMEOUT;
      if state == StartPending {
        controlsAccepted := false;
      } else {
        controlsAccepted := true;
      }
      if state == Running || state == Stopped {
        checkPoint := 0;
      } else {
        checkPoint := nextCheckPoint;
        nextCheckPoint := nextCheckPoint + 1;
      }
      sent := sent + [Report(currentState, controlsAccepted, checkPoint)];
      ok := answer;
    }
  }

  // ---------- Threads ----------

  /** The main thread: CoderServiceMain and StartCoderServiceWorker.  A report fills the record,
      then sends what the record holds. */
  datatype Main = Fill(state: SvcState) | Send(state: SvcState) | WaitStarted | WaitStop | WaitWorker | Ended

  datatype Worker = Starting | Working | Stopping | Exited

  /** CoderServiceController. */
  datatype Handler = Idle | HandlerFill | HandlerSend | SetStop

  datatype State = State(
    fields: Fields,
    log: seq<Report>,
    started: bool,      // m_hStartedEvent
    stop: bool,         // m_hStopEvent
    main: Main,
    worker: Worker,
    handler: Handler)

  datatype Step =
    | MainFill
    | MainSend
    | StillStarting     // the wait timed out
    | HasStarted
    | SeesStop
    | StillStopping
    | HasStopped
    | WorkerStep
    | Deliver           // the SCM calls the handler with a stop or shutdown
    | HandlerStep

  /** The SCM delivers a stop one at a time, to a service that accepts it and is not stopped;
      `again` says whether it also does so once the service has reported STOP_PENDING. */
  predicate Deliverable(s: State, again: bool) {
    && s.handler == Idle
    && s.log != []
    && var last := s.log[|s.log| - 1];
       last.accepts && last.state != Stopped && (last.state == StopPending ==> again)
  }

  predicate Enabled(s: State, b: Step, again: bool) {
    match b
    case MainFill => s.main.Fill?
    case MainSend => s.main.Send?
    case StillStarting => s.main == WaitStarted && !s.started
    case HasStarted => s.main == WaitStarted && s.started
    case SeesStop => s.main == WaitStop && s.stop
    case StillStopping => s.main == WaitWorker && s.worker != Exited
    case HasStopped => s.main == WaitWorker && s.worker == Exited
    case WorkerStep => s.log != [] && (s.worker == Working ==> s.stop) && s.worker != Exited
    case Deliver => Deliverable(s, again)
    case HandlerStep => s.handler != Idle
  }

  function AfterSend(state: SvcState): Main {
    match state
    case StartPending => WaitStarted
    case Running => WaitStop
    case StopPending => WaitWorker
    case Stopped => Ended
  }

  function Apply(s: State, b: Step): State {
    match b
    case MainFill =>
      if s.main.Fill? then s.(fields := Filled(s.fields, s.main.state), main := Send(s.main.state)) else s
    case MainSend =>
      if s.main.Send? then s.(log := s.log + [s.fields.status], main := AfterSend(s.main.state)) else s
    case StillStarting => s.(main := Fill(StartPending))
    case HasStarted => s.(started := false, main := Fill(Running))
    case SeesStop => s.(main := Fill(StopPending))
    case StillStopping => s.(main := Fill(StopPending))
    case HasStopped => s.(stop := false, main := Fill(Stopped))
    case WorkerStep =>
      if s.worker == Starting then s.(started := true, worker := Working)
      else if s.worker == Working then s.(worker := Stopping)
      else s.(worker := Exited)
    case Deliver => s.(handler := HandlerFill)
    case HandlerStep =>
      match s.handler {
        case HandlerFill => s.(fields := Filled(s.fields, StopPending), handler := HandlerSend)
        case HandlerSend => s.(log := s.log + [s.fields.status], handler := SetStop)
        case _ => s.(stop := true, handler := Idle)
      }
  }

  function Start(f: Fields): State { State(f, [], false, false, Fill(StartPending), Starting, Idle) }

  /** The steps lead from one state to another. */
  ghost predicate Leads(s: State, steps: seq<Step>, t: State, again: bool)
    decreases |steps|
  {
    if steps == [] then s == t
    else
      var n := |steps| - 1;
      exists m :: Leads(s, steps[..n], m, again) && Enabled(m, steps[n], again) && t == Apply(m, steps[n])
  }

  ghost predicate Run(s: State, steps: seq<Step>, t: State, again: bool) {
    s == Start(s.fields) && s.fields.next == 1 && Leads(s, steps, t, again)
  }

  // ---------- Order of the reports ----------

  /** A prefix of START_PENDING+ RUNNING STOP_PENDING+ STOPPED. */
  predicate Ordered(log: seq<Report>) {
    && (log != [] ==> log[0].state == StartPending)
    && forall i, j :: 0 <= i < |log| && j == i + 1 && j < |log| ==> Follows(log[i].state, log[j].state)
  }

  /** The next report repeats a pending state or goes one state further. */
  predicate Follows(a: SvcState, b: SvcState) { Rank(b) == Rank(a) + 1 || (a == b && IsPending(a)) }

  function PendingReports(log: seq<Report>): nat {
    if log == [] then 0
    else PendingReports(log[..|log| - 1]) + if IsPending(log[|log| - 1].state) then 1 else 0
  }

  /** Pending reports are numbered 1, 2, 3, ...; the others carry 0; only START_PENDING refuses
      controls. */
  predicate Numbered(log: seq<Report>) {
    log == [] ||
    var r := log[|log| - 1];
    && r.checkPoint == (if IsPending(r.state) then PendingReports(log) else 0)
    && (r.accepts <==> r.state != StartPending)
    && Numbered(log[..|log| - 1])
  }

  /** The last state reported. */
  predicate LastIs(s: State, state: SvcState) { s.log != [] && s.log[|s.log| - 1].state == state }

  predicate GoodMain(s: State) {
    match s.main
    case Fill(StartPending) => s.log == [] || LastIs(s, StartPending)
    case Send(StartPending) => s.log == [] || LastIs(s, StartPending)
    case WaitStarted => LastIs(s, StartPending)
    case Fill(Running) => LastIs(s, StartPending)
    case Send(Running) => LastIs(s, StartPending)
    case WaitStop => if s.handler == SetStop || s.stop then LastIs(s, StopPending) else LastIs(s, Running)
    case Ended => LastIs(s, Stopped)
    case _ => LastIs(s, StopPending)
  }

  /** The handler runs only while the main thread waits for the stop event. */
  predicate GoodHandler(s: State) {
    && (s.handler != Idle ==> s.main == WaitStop && !s.stop)
    && (s.stop ==> s.main in {WaitStop, WaitWorker, Fill(StopPending), Send(StopPending)})
  }

  predicate GoodFields(s: State) {
    && (s.main.Send? ==> s.fields.status.state == s.main.state)
    && (s.handler == HandlerSend ==> s.fields.status.state == StopPending)
    && (s.main.Send? || s.handler == HandlerSend ==>
          && (s.fields.status.accepts <==> s.fields.status.state != StartPending)
          && s.fields.status.checkPoint == if IsPending(s.fields.status.state) then s.fields.next - 1 else 0)
    && s.fields.next == 1 + PendingReports(s.log)
       + if (s.main.Send? && IsPending(s.main.state)) || s.handler == HandlerSend then 1 else 0
  }

  predicate Starts(m: Main) { m == Fill(StartPending) || m == Send(StartPending) || m == WaitStarted }

  predicate GoodWorker(s: State) {
    && (s.started || s.main in {Fill(Running), Send(Running)} || LastIs(s, Running) ==> s.worker != Starting)
    && (s.main in {Fill(Stopped), Send(Stopped), Ended} ==> s.worker == Exited)
    && (!Starts(s.main) ==> !s.started && s.worker != Starting)
  }

  predicate Inv(s: State) {
    GoodMain(s) && GoodHandler(s) && GoodFields(s) && GoodWorker(s) && Ordered(s.log) && Numbered(s.log)
  }

  lemma SendKeepsOrder(log: seq<Report>, r: Report)
    requires Ordered(log)
    requires if log == [] then r.state == StartPending else Follows(log[|log| - 1].state, r.state)
    ensures Ordered(log + [r])
  {
  }

  lemma SendKeepsNumbers(log: seq<Report>, r: Report)
    requires Numbered(log)
    requires r.accepts <==> r.state != StartPending
    requires r.checkPoint == if IsPending(r.state) then PendingReports(log) + 1 else 0
    ensures Numbered(log + [r])
    ensures PendingReports(log + [r]) == PendingReports(log) + if IsPending(r.state) then 1 else 0
  {
    assert (log + [r])[..|log|] == log;
  }

  lemma MainSendKeepsPlaces(s: State)
    requires GoodMain(s) && GoodHandler(s) && GoodWorker(s) && s.main.Send? && s.fields.status.state == s.main.state
    ensures GoodMain(Apply(s, MainSend)) && GoodHandler(Apply(s, MainSend)) && GoodWorker(Apply(s, MainSend))
  {
  }

  lemma MainSendKeepsOrder(s: State)
    requires GoodMain(s) && s.main.Send? && s.fields.status.state == s.main.state && Ordered(s.log)
    ensures Ordered(Apply(s, MainSend).log)
  {
    SendKeepsOrder(s.log, s.fields.status);
  }

  lemma MainSendKeepsNumbers(s: State)
    requires GoodHandler(s) && GoodFields(s) && s.main.Send? && Numbered(s.log)
    ensures Numbered(Apply(s, MainSend).log) && GoodFields(Apply(s, MainSend))
  {
    SendKeepsNumbers(s.log, s.fields.status);
  }

  lemma HandlerSendKeepsInv(s: State)
    requires Inv(s) && s.handler == HandlerSend
    ensures Inv(Apply(s, HandlerStep))
  {
    SendKeepsOrder(s.log, s.fields.status);
    SendKeepsNumbers(s.log, s.fields.status);
  }

  lemma StepKeepsInv(s: State, b: Step)
    requires Inv(s) && Enabled(s, b, false)
    ensures Inv(Apply(s, b))
  {
    if b == MainSend {
      MainSendKeepsPlaces(s);
      MainSendKeepsOrder(s);
      MainSendKeepsNumbers(s);
    } else if b == HandlerStep && s.handler == HandlerSend {
      HandlerSendKeepsInv(s);
    }
  }

  lemma {:induction false} RunKeepsInv(s: State, steps: seq<Step>, t: State)
    requires Run(s, steps, t, false)
    ensures Inv(t)
    decreases |steps|
  {
    if steps != [] {
      var n := |steps| - 1;
      var m :| Leads(s, steps[..n], m, false) && Enabled(m, steps[n], false) && t == Apply(m, steps[n]);
      RunKeepsInv(s, steps[..n], m);
      StepKeepsInv(m, steps[n]);
    }
  }

  /** Under one stop, no two threads are inside ReportSvcStatus at once, RUNNING means that the
      worker has started, and STOPPED that it has exited; both events are reset by then. */
  lemma ReportsMeanWhatTheySay(s: State, steps: seq<Step>, t: State)
    requires Run(s, steps, t, false)
    ensures !(t.main.Fill? || t.main.Send?) || t.handler in {Idle, SetStop}
    ensures LastIs(t, Running) ==> t.worker != Starting && !t.started
    ensures LastIs(t, Stopped) ==> t.worker == Exited && t.main == Ended && !t.started && !t.stop
    ensures Numbered(t.log)
  {
    RunKeepsInv(s, steps, t);
  }

  ghost predicate AlwaysOrdered(again: bool) {
    forall s: State, steps: seq<Step>, t: State :: Run(s, steps, t, again) ==> Ordered(t.log)
  }

  /** Every run reports its states in order iff the SCM sends no stop to a service that has
      reported STOP_PENDING, although such a report accepts it. */
  lemma OrderedUnlessStoppedTwice(again: bool)
    ensures AlwaysOrdered(again) <==> !again
  {
    if again {
      var s, steps, t := TwoStops();
    } else {
      forall s: State, steps: seq<Step>, t: State | Run(s, steps, t, again) ensures Ordered(t.log) {
        RunKeepsInv(s, steps, t);
      }
    }
  }

  lemma {:induction false} Then(s: State, a: seq<Step>, m: State, b: Step) returns (steps: seq<Step>, t: State)
    requires Leads(s, a, m, true) && Enabled(m, b, true)
    ensures Leads(s, steps, t, true) && t == Apply(m, b) && steps == a + [b]
  {
    steps, t := a + [b], Apply(m, b);
    assert steps[..|a|] == a;
  }

  function Pending(n: nat, state: SvcState): Report { Report(state, state == StopPending, n) }

  lemma UntilRunning(s: State) returns (steps: seq<Step>, t: State)
    requires s == Start(s.fields) && s.fields.next == 1
    ensures Leads(s, steps, t, true)
    ensures t == State(Fields(Report(Running, true, 0), 2), [Pending(1, StartPending), Report(Running, true, 0)],
                       false, false, WaitStop, Working, Idle)
  {
    steps, t := Then(s, [], s, MainFill);
    steps, t := Then(s, steps, t, MainSend);
    steps, t := Then(s, steps, t, WorkerStep);
    steps, t := Then(s, steps, t, HasStarted);
    steps, t := Then(s, steps, t, MainFill);
    steps, t := Then(s, steps, t, MainSend);
  }

  lemma UntilStopping(s: State) returns (steps: seq<Step>, t: State)
    requires s == Start(s.fields) && s.fields.next == 1
    ensures Leads(s, steps, t, true)
    ensures t.log == [Pending(1, StartPending), Report(Running, true, 0),
                      Pending(2, StopPending), Pending(3, StopPending)]
    ensures t.main == WaitWorker && t.worker == Working && t.stop && t.handler == Idle
  {
    steps, t := UntilRunning(s);
    steps, t := Then(s, steps, t, Deliver);
    steps, t := Then(s, steps, t, HandlerStep);
    steps, t := Then(s, steps, t, HandlerStep);
    steps, t := Then(s, steps, t, HandlerStep);
    steps, t := Then(s, steps, t, SeesStop);
    steps, t := Then(s, steps, t, MainFill);
    steps, t := Then(s, steps, t, MainSend);
  }

  lemma UntilStopped(s: State) returns (steps: seq<Step>, t: State)
    requires s == Start(s.fields) && s.fields.next == 1
    ensures Leads(s, steps, t, true)
    ensures |t.log| == 5 && t.log[4].state == Stopped && t.handler == HandlerFill
  {
    steps, t := UntilStopping(s);
    steps, t := Then(s, steps, t, Deliver);
    steps, t := Then(s, steps, t, WorkerStep);
    steps, t := Then(s, steps, t, WorkerStep);
    steps, t := Then(s, steps, t, HasStopped);
    steps, t := Then(s, steps, t, MainFill);
    steps, t := Then(s, steps, t, MainSend);
  }

  /** A second stop, delivered while the service stops, whose handler is overtaken by the final
      report: STOP_PENDING after STOPPED. */
  lemma TwoStops() returns (s: State, steps: seq<Step>, t: State)
    ensures Run(s, steps, t, true)
    ensures |t.log| == 6 && t.log[4].state == Stopped && t.log[5].state == StopPending
  {
    s := Start(Fields(Report(Stopped, false, 0), 1));
    steps, t := UntilStopped(s);
    steps, t := Then(s, steps, t, HandlerStep);
    steps, t := Then(s, steps, t, HandlerStep);
  }

  // ---------- Any number of stops ----------

  predicate Tells(r: Report) { r.accepts <==> r.state != StartPending }

  /** Until RUNNING is sent the handler is not called, since START_PENDING accepts no control. */
  predicate StartsUp(s: State) {
    && s.handler == Idle && !s.stop
    && (forall i :: 0 <= i < |s.log| ==> s.log[i].state == StartPending)
    && (s.log == [] ==> s.main == Fill(StartPending) || s.main == Send(StartPending))
    && (s.main.Send? ==> s.fields.status.state == s.main.state)
  }

  predicate Early(m: Main) {
    m in {Fill(StartPending), Send(StartPending), WaitStarted, Fill(Running), Send(Running)}
  }

  /** From RUNNING, sent at index r, on: only STOP_PENDING and STOPPED follow, and STOP_PENDING
      comes first, because the main thread waits for the handler. */
  predicate WindsDown(s: State, r: nat) {
    && 0 < r < |s.log| && s.log[r].state == Running
    && (forall i :: 0 <= i < r ==> s.log[i].state == StartPending)
    && (forall i :: r < i < |s.log| ==> s.log[i].state == StopPending || s.log[i].state == Stopped)
    && (|s.log| > r + 1 ==> s.log[r + 1].state == StopPending)
    && (|s.log| == r + 1 ==> s.main == WaitStop && !s.stop && s.handler != SetStop)
    && (|s.log| == r + 1 && s.handler == HandlerSend ==> s.fields.status.state == StopPending)
    && (s.main.Fill? || s.main.Send? ==> s.main.state == StopPending || s.main.state == Stopped)
    && (s.main.Send? || s.handler == HandlerSend ==>
          s.fields.status.state == StopPending || s.fields.status.state == Stopped)
  }

  predicate Shaped(s: State, r: nat) {
    && (if Early(s.main) then StartsUp(s) else WindsDown(s, r))
    && (forall i :: 0 <= i < |s.log| ==> Tells(s.log[i]))
    && (s.main.Send? || s.handler == HandlerSend ==> Tells(s.fields.status))
  }

  /** RUNNING is sent at the end of the log. */
  lemma EarlyStepKeepsShape(s: State, b: Step)
    requires Shaped(s, |s.log|) && Enabled(s, b, true) && Early(s.main)
    ensures Shaped(Apply(s, b), |s.log|)
  {
  }

  lemma HandlerKeepsShape(s: State, b: Step, r: nat)
    requires Shaped(s, r) && Enabled(s, b, true) && !Early(s.main) && (b == HandlerStep || b == Deliver)
    ensures Shaped(Apply(s, b), r)
  {
  }

  lemma LateStepKeepsShape(s: State, b: Step, r: nat)
    requires Shaped(s, r) && Enabled(s, b, true) && !Early(s.main) && b != HandlerStep && b != Deliver
    ensures Shaped(Apply(s, b), r)
  {
  }

  lemma StepKeepsShape(s: State, b: Step, r: nat) returns (r': nat)
    requires Shaped(s, r) && Enabled(s, b, true)
    ensures Shaped(Apply(s, b), r')
  {
    r' := r;
    if Early(s.main) {
      r' := |s.log|;
      EarlyStepKeepsShape(s, b);
    } else if b == HandlerStep || b == Deliver {
      HandlerKeepsShape(s, b, r);
    } else {
      LateStepKeepsShape(s, b, r);
    }
  }

  lemma {:induction false} RunKeepsShape(s: State, steps: seq<Step>, t: State) returns (r: nat)
    requires Run(s, steps, t, true)
    ensures Shaped(t, r)
    decreases |steps|
  {
    if steps == [] {
      r := 0;
    } else {
      var n := |steps| - 1;
      var m :| Leads(s, steps[..n], m, true) && Enabled(m, steps[n], true) && t == Apply(m, steps[n]);
      r := RunKeepsShape(s, steps[..n], m);
      r := StepKeepsShape(m, steps[n], r);
    }
  }

  /** Of every run, whatever stops are delivered: the reports are in order iff nothing is reported
      after STOPPED.  Overlapping reporters cannot break the order before that. */
  lemma OrderedIffNothingFollowsStopped(s: State, steps: seq<Step>, t: State)
    requires Run(s, steps, t, true)
    ensures Ordered(t.log) <==> forall i :: 0 <= i < |t.log| - 1 ==> t.log[i].state != Stopped
  {
    var r := RunKeepsShape(s, steps, t);
    if i :| 0 <= i < |t.log| - 1 && t.log[i].state == Stopped {
      assert !Follows(t.log[i].state, t.log[i + 1].state);
    } else {
      forall i, j | 0 <= i < |t.log| && j == i + 1 && j < |t.log|
        ensures Follows(t.log[i].state, t.log[j].state)
      {
      }
    }
  }
}
