/** A further stop that the SCM forwards to a service in STOP_PENDING: exactly when its handler can
    report STOP_PENDING after the service has reported STOPPED. */
module StopDelivery {
  import opened ServiceStatus

  /** A report of STOPPED at index n or later is followed by STOP_PENDING. */
  ghost predicate Overtakes(log: seq<Report>, n: nat) {
    exists i: nat :: n <= i < |log| - 1 && log[i].state == Stopped && log[i + 1].state == StopPending
  }

  /** The main thread has still to send STOPPED, and what it is about to send is not overwritten. */
  predicate WillStop(s: State) {
    s.main != Ended && (s.main == Send(Stopped) ==> s.fields.status.state == Stopped)
  }

  // ---------- What holds in every run ----------

  /** The worker has started before RUNNING is sent; the stop event is set while the service winds
      down, until the worker has exited. */
  predicate Serves(s: State) {
    && (s.started || s.main == Fill(Running) || s.main == Send(Running) || !Early(s.main) ==> s.worker != Starting)
    && (s.main in {Fill(StopPending), Send(StopPending), WaitWorker} ==> s.stop)
    && (s.main == WaitStop && LastIs(s, StopPending) ==> s.stop || s.handler == SetStop)
  }

  lemma StepKeepsServes(s: State, b: Step, r: nat)
    requires Serves(s) && Shaped(s, r) && Enabled(s, b, true)
    ensures Serves(Apply(s, b))
  {
  }

  lemma {:induction false} RunKeepsServes(s: State, steps: seq<Step>, t: State) returns (r: nat)
    requires Run(s, steps, t, true)
    ensures Serves(t) && Shaped(t, r)
    decreases |steps|
  {
    if steps == [] {
      r := 0;
    } else {
      var n := |steps| - 1;
      var m :| Leads(s, steps[..n], m, true) && Enabled(m, steps[n], true) && t == Apply(m, steps[n]);
      r := RunKeepsServes(s, steps[..n], m);
      StepKeepsServes(m, steps[n], r);
      r := StepKeepsShape(m, steps[n], r);
    }
  }

  // ---------- Overtaking ----------

  /** The handler was called and does nothing while the main thread goes on. */
  predicate Closing(s: State) {
    && s.handler == HandlerFill && s.log != [] && !Early(s.main) && WillStop(s)
    && s.worker != Starting
    && (s.main in {WaitStop, Fill(StopPending), Send(StopPending), WaitWorker} ==> s.stop)
    && (s.main.Fill? || s.main.Send? ==> s.main.state == StopPending || s.main.state == Stopped)
  }

  function WorkerRank(w: Worker): nat {
    match w
    case Starting => 3
    case Working => 2
    case Stopping => 1
    case Exited => 0
  }

  function Rank(s: State): nat {
    match s.main
    case WaitStop => 9
    case Fill(x) => if x == StopPending then 8 else 2
    case Send(x) => if x == StopPending then 7 else 1
    case WaitWorker => 3 + WorkerRank(s.worker)
    case _ => 0
  }

  function NextStep(s: State): Step {
    match s.main
    case WaitStop => SeesStop
    case Fill(_) => MainFill
    case Send(_) => MainSend
    case _ => if s.worker == Exited then HasStopped else WorkerStep
  }

  lemma ClosingStep(s: State)
    requires Closing(s)
    ensures Enabled(s, NextStep(s), true)
    ensures var t := Apply(s, NextStep(s));
      && |s.log| <= |t.log|
      && if s.main == Send(Stopped) then t.handler == HandlerFill && LastIs(t, Stopped) && |s.log| < |t.log|
         else Closing(t) && Rank(t) < Rank(s)
  {
  }

  /** The main thread reports STOPPED while the handler waits. */
  lemma {:induction false} MainOvertakes(s0: State, a: seq<Step>, s: State) returns (steps: seq<Step>, t: State)
    requires Leads(s0, a, s, true) && Closing(s)
    ensures Leads(s0, steps, t, true) && a <= steps
    ensures t.handler == HandlerFill && LastIs(t, Stopped) && |s.log| < |t.log|
    decreases Rank(s)
  {
    ClosingStep(s);
    steps, t := Then(s0, a, s, NextStep(s));
    if s.main != Send(Stopped) { steps, t := MainOvertakes(s0, steps, t); }
  }

  /** Nobody will send STOPPED any more. */
  predicate Spent(s: State) {
    && (s.main == Ended || s.main == Send(Stopped))
    && (s.main == Send(Stopped) || s.handler == HandlerSend ==> s.fields.status.state == StopPending)
  }

  lemma SpentStep(s: State, b: Step)
    requires Spent(s) && Enabled(s, b, true)
    ensures var t := Apply(s, b);
      Spent(t) && (t.log == s.log || (t.log == s.log + [s.fields.status] && s.fields.status.state == StopPending))
  {
  }

  lemma {:induction false} SpentRun(s: State, steps: seq<Step>, t: State)
    requires Leads(s, steps, t, true) && Spent(s)
    ensures Spent(t) && |s.log| <= |t.log|
    ensures forall i :: |s.log| <= i < |t.log| ==> t.log[i].state == StopPending
    decreases |steps|
  {
    if steps != [] {
      var n := |steps| - 1;
      var m :| Leads(s, steps[..n], m, true) && Enabled(m, steps[n], true) && t == Apply(m, steps[n]);
      SpentRun(s, steps[..n], m);
      SpentStep(m, steps[n]);
    }
  }

  /** The handler then reports STOP_PENDING. */
  lemma HandlerFollows(s0: State, a: seq<Step>, s: State) returns (steps: seq<Step>, t: State)
    requires Leads(s0, a, s, true) && s.handler == HandlerFill && LastIs(s, Stopped)
    ensures Leads(s0, steps, t, true) && a <= steps
    ensures |t.log| == |s.log| + 1 && t.log[|s.log| - 1].state == Stopped && LastIs(t, StopPending)
  {
    steps, t := Then(s0, a, s, HandlerStep);
    steps, t := Then(s0, steps, t, HandlerStep);
  }

  /** The handler called by a stop is ready, whatever the main thread does. */
  lemma DeliveryCloses(s: State, r: nat)
    requires Shaped(s, r) && Serves(s) && Deliverable(s, true) && LastIs(s, StopPending) && WillStop(s)
    ensures Enabled(s, Deliver, true) && Closing(Apply(s, Deliver)) && Apply(s, Deliver).log == s.log
  {
  }

  lemma StopIsOvertaken(s: State, r: nat) returns (more: seq<Step>, t: State)
    requires Shaped(s, r) && Serves(s) && Deliverable(s, true) && LastIs(s, StopPending) && WillStop(s)
    ensures Leads(s, [Deliver] + more, t, true) && Overtakes(t.log, |s.log|)
  {
    DeliveryCloses(s, r);
    var steps;
    steps, t := Then(s, [], s, Deliver);
    steps, t := MainOvertakes(s, steps, t);
    ghost var n: nat := |t.log| - 1;
    steps, t := HandlerFollows(s, steps, t);
    assert t.log[n].state == Stopped && t.log[n + 1].state == StopPending;
    more := steps[1..];
    assert steps == [Deliver] + more;
  }

  lemma NoStopIsLeft(s: State, r: nat)
    requires Shaped(s, r) && s.handler == Idle && LastIs(s, StopPending) && !WillStop(s)
    ensures Spent(s)
  {
  }

  /** For every stop delivered after STOP_PENDING was reported, in every run: some continuation
      reports STOP_PENDING after STOPPED iff the main thread has still to send STOPPED. */
  lemma LateStopCanOvertake(s0: State, a: seq<Step>, s: State)
    requires Run(s0, a, s, true) && Deliverable(s, true) && LastIs(s, StopPending)
    ensures (exists more: seq<Step>, t: State :: Leads(s, [Deliver] + more, t, true) && Overtakes(t.log, |s.log|))
       <==> WillStop(s)
  {
    var r := RunKeepsServes(s0, a, s);
    if WillStop(s) {
      var more, t := StopIsOvertaken(s, r);
    } else {
      NoStopIsLeft(s, r);
      forall more: seq<Step>, t: State | Leads(s, [Deliver] + more, t, true) ensures !Overtakes(t.log, |s.log|) {
        SpentRun(s, [Deliver] + more, t);
      }
    }
  }
}
