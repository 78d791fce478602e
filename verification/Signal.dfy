/** ez::signal: a mutex, a flag and a condition variable forming an event that resets itself
    after each wait until notify_all latches it.

    The class holds the code of each critical section.  The machine below it lets any number
    of threads run those sections in any order, with blocking, waking and notifying as
    separate steps and with spurious wakeups. */
module Signal {

  datatype Event = Event(re: bool, sg: bool)

  const INITIAL := Event(true, false)

  /** A waiter that holds the lock and finds the flag set leaves, clearing the flag only in
      auto-reset mode; otherwise the state does not change and it blocks. */
  function Consume(e: Event): Event {
    if e.sg && e.re then e.(sg := false) else e
  }

  function Raise(e: Event): Event { e.(sg := true) }

  function Latch(e: Event): Event { Event(false, true) }

  function Rearm(e: Event): Event { Event(true, false) }

  class EzSignal {
    var re: bool
    var sg: bool

    function Value(): Event
      reads this
    {
      Event(re, sg)
    }

    constructor ()
      ensures Value() == INITIAL && re && !sg
    {
      re := true;
      sg := false;
    }

    /** One turn of the wait loop, from acquiring the lock to blocking or returning. */
    method WaitSection() returns (passed: bool)
      modifies this
      ensures passed == old(sg)
      ensures Value() == Consume(old(Value()))
      ensures re == old(re) && sg == (old(sg) && !re)
    {
      if !sg { return false; }
      if re { sg := false; }
      passed := true;
    }

    method NotifyAllSection()
      modifies this
      ensures Value() == Latch(old(Value()))
      ensures sg && !re
    {
      sg := true;
      re := false;
    }

    method NotifyOneSection()
      modifies this
      ensures Value() == Raise(old(Value()))
      ensures sg && re == old(re)
    {
      sg := true;
    }

    method ResetSection()
      modifies this
      ensures Value() == Rearm(old(Value()))
      ensures !sg && re
    {
      sg := false;
      re := true;
    }
  }

  // ---------- Threads ----------

  type Thread = nat

  /** Where a thread is: outside the object, blocked in cv_.wait, woken but not yet holding
      the lock, or past the critical section of a notifier and before its cv_ call. */
  datatype Place = Outside | Blocked | Woken | OwesOne | OwesAll

  /** `passes`, `raises` and `latches` count completed waits, notify_one sections and
      notify_all sections. */
  datatype State = State(event: Event, place: map<Thread, Place>, passes: nat, raises: nat, latches: nat)

  datatype Step =
    | Arrive(t: Thread)               // a thread that has not used the event yet
    | EnterWait(t: Thread)            // wait: lock, test the flag
    | Spurious(t: Thread)             // cv_.wait returns without a notification
    | Recheck(t: Thread)              // a woken waiter reacquires the lock and tests again
    | RaiseFlag(t: Thread)            // notify_one: critical section
    | CallOne(t: Thread, w: Thread)   // notify_one: cv_.notify_one, waking w if any is blocked
    | RaiseAll(t: Thread)             // notify_all: critical section
    | CallAll(t: Thread)              // notify_all: cv_.notify_all
    | DoReset(t: Thread)

  predicate At(s: State, t: Thread, p: Place) { t in s.place && s.place[t] == p }

  ghost predicate AnyBlocked(s: State) { exists t :: At(s, t, Blocked) }

  ghost predicate Enabled(s: State, a: Step) {
    match a
    case Arrive(t) => t !in s.place
    case EnterWait(t) => At(s, t, Outside)
    case Spurious(t) => At(s, t, Blocked)
    case Recheck(t) => At(s, t, Woken)
    case RaiseFlag(t) => At(s, t, Outside)
    case CallOne(t, w) => At(s, t, OwesOne) && (AnyBlocked(s) ==> At(s, w, Blocked))
    case RaiseAll(t) => At(s, t, Outside)
    case CallAll(t) => At(s, t, OwesAll)
    case DoReset(t) => At(s, t, Outside)
  }

  function Move(s: State, t: Thread, p: Place): State { s.(place := s.place[t := p]) }

  function TestFlag(s: State, t: Thread): State {
    if s.event.sg then Move(s.(event := Consume(s.event), passes := s.passes + 1), t, Outside)
    else Move(s, t, Blocked)
  }

  function WakeAll(place: map<Thread, Place>): map<Thread, Place> {
    map t | t in place :: if place[t] == Blocked then Woken else place[t]
  }

  function Apply(s: State, a: Step): State {
    match a
    case Arrive(t) => Move(s, t, Outside)
    case EnterWait(t) => TestFlag(s, t)
    case Spurious(t) => Move(s, t, Woken)
    case Recheck(t) => TestFlag(s, t)
    case RaiseFlag(t) => Move(s.(event := Raise(s.event), raises := s.raises + 1), t, OwesOne)
    case CallOne(t, w) =>
      var done := Move(s, t, Outside);
      if At(s, w, Blocked) then Move(done, w, Woken) else done
    case RaiseAll(t) => Move(s.(event := Latch(s.event), latches := s.latches + 1), t, OwesAll)
    case CallAll(t) => s.(place := WakeAll(s.place[t := Outside]))
    case DoReset(t) => s.(event := Rearm(s.event))
  }

  ghost predicate Init(s: State) {
    && s.event == INITIAL && s.passes == s.raises == s.latches == 0
    && forall t <- s.place :: s.place[t] == Outside
  }

  ghost predicate Run(states: seq<State>, steps: seq<Step>) {
    && |states| == |steps| + 1
    && Init(states[0])
    && forall i :: 0 <= i < |steps| ==> Enabled(states[i], steps[i]) && states[i + 1] == Apply(states[i], steps[i])
  }

  // ---------- Invariants ----------

  /** Someone is about to notify, or about to test the flag. */
  ghost predicate Pending(s: State) {
    exists t :: At(s, t, OwesOne) || At(s, t, OwesAll) || At(s, t, Woken)
  }

  /** A set flag and a blocked thread never meet with nobody about to act on it. */
  ghost predicate NoLostWakeup(s: State) { s.event.sg && AnyBlocked(s) ==> Pending(s) }

  ghost predicate Inv(s: State) {
    && NoLostWakeup(s)
    && (!s.event.re ==> s.event.sg)
    && (!s.event.re && AnyBlocked(s) ==> exists t :: At(s, t, OwesAll))
    // each pass in auto-reset mode uses up a raise of its own
    && (s.latches == 0 ==> s.event.re && s.passes + (if s.event.sg then 1 else 0) <= s.raises)
  }

  lemma StepKeepsInv(s: State, a: Step)
    requires Inv(s) && Enabled(s, a)
    ensures Inv(Apply(s, a))
  {
    var s' := Apply(s, a);
    if s'.event.sg && AnyBlocked(s') {
      var b :| At(s', b, Blocked);
      assert At(s, b, Blocked);
      StepKeepsPending(s, a);
    }
  }

  lemma StepKeepsPending(s: State, a: Step)
    requires Inv(s) && Enabled(s, a)
    requires Apply(s, a).event.sg && AnyBlocked(Apply(s, a)) && AnyBlocked(s)
    ensures Pending(Apply(s, a))
    ensures !Apply(s, a).event.re ==> exists t :: At(Apply(s, a), t, OwesAll)
  {
    var s' := Apply(s, a);
    match a
    case Arrive(_) =>
      var p :| At(s, p, OwesOne) || At(s, p, OwesAll) || At(s, p, Woken);
      assert At(s', p, s.place[p]);
      KeepsOwesAll(s, a);
    case Spurious(t) => assert At(s', t, Woken); KeepsOwesAll(s, a);
    case RaiseFlag(t) => assert At(s', t, OwesOne); KeepsOwesAll(s, a);
    case CallOne(_, w) => assert At(s', w, Woken); KeepsOwesAll(s, a);
    case RaiseAll(t) => assert At(s', t, OwesAll);
    case CallAll(_) => assert false;
    case DoReset(_) =>
    case _ =>
      // the tester passed without clearing the flag, so the event is latched, or it is the
      // flag that was clear before
      if s.event.sg { KeepsOwesAll(s, a); }
  }

  /** Only CallAll ends a thread's debt of a broadcast. */
  lemma KeepsOwesAll(s: State, a: Step)
    requires Inv(s) && Enabled(s, a) && !a.CallAll?
    requires AnyBlocked(s)
    ensures !s.event.re ==> exists t :: At(Apply(s, a), t, OwesAll)
  {
    if !s.event.re {
      var t :| At(s, t, OwesAll);
      assert At(Apply(s, a), t, OwesAll);
    }
  }

  lemma {:induction false} RunKeepsInv(states: seq<State>, steps: seq<Step>, k: nat)
    requires Run(states, steps) && k < |states|
    ensures Inv(states[k])
  {
    if k > 0 {
      RunKeepsInv(states, steps, k - 1);
      StepKeepsInv(states[k - 1], steps[k - 1]);
    }
  }

  // ---------- Main results ----------

  /** In every reachable state in which nobody is about to act, a blocked thread is blocked
      with the flag clear. */
  lemma NoWakeupIsLost(states: seq<State>, steps: seq<Step>, k: nat)
    requires Run(states, steps) && k < |states|
    ensures !Pending(states[k]) && AnyBlocked(states[k]) ==> !states[k].event.sg && states[k].event.re
  {
    RunKeepsInv(states, steps, k);
  }

  /** Without notify_all, at most one wait completes per notify_one, whatever the wakeups
      and resets. */
  lemma PassesNeedRaises(states: seq<State>, steps: seq<Step>, k: nat)
    requires Run(states, steps) && k < |states| && states[k].latches == 0
    ensures states[k].passes <= states[k].raises
  {
    RunKeepsInv(states, steps, k);
  }

  /** A notify_one is not forgotten: until a wait completes or the event is reset the flag stays
      set. */
  lemma {:induction false} RaisedUntilPassed(states: seq<State>, steps: seq<Step>, r: nat, j: nat)
    requires Run(states, steps) && r < j < |states| && (steps[r].RaiseFlag? || steps[r].RaiseAll?)
    requires forall k :: r < k < j ==> !steps[k].DoReset?
    requires states[j].passes == states[r].passes
    ensures states[j].event.sg
  {
    PassesNeverDrop(states, steps, r, j - 1);
    RunStepPasses(states, steps, j - 1);
    if j > r + 1 { RaisedUntilPassed(states, steps, r, j - 1); }
  }

  lemma {:induction false} PassesNeverDrop(states: seq<State>, steps: seq<Step>, i: nat, j: nat)
    requires Run(states, steps) && i <= j < |states|
    ensures states[i].passes <= states[j].passes
  {
    if i < j {
      PassesNeverDrop(states, steps, i, j - 1);
      RunStepPasses(states, steps, j - 1);
    }
  }

  /** A wait completes only while the flag is set, and always then. */
  lemma RunStepPasses(states: seq<State>, steps: seq<Step>, k: nat)
    requires Run(states, steps) && k < |steps|
    ensures states[k + 1].passes == states[k].passes
      + if (steps[k].EnterWait? || steps[k].Recheck?) && states[k].event.sg then 1 else 0
  {
  }

  /** After a reset no wait completes until the next notification, and the event resets itself
      again. */
  lemma {:induction false} ResetBlocks(states: seq<State>, steps: seq<Step>, r: nat, j: nat)
    requires Run(states, steps) && r < j < |states| && steps[r].DoReset?
    requires forall k :: r < k < j ==> !steps[k].RaiseFlag? && !steps[k].RaiseAll?
    ensures !states[j].event.sg && states[j].event.re && states[j].passes == states[r].passes
  {
    RunStepPasses(states, steps, j - 1);
    if j > r + 1 { ResetBlocks(states, steps, r, j - 1); }
  }

  /** In auto-reset mode a completed wait clears the flag; latched it does not. */
  lemma PassingClears(states: seq<State>, steps: seq<Step>, k: nat)
    requires Run(states, steps) && k < |steps| && states[k + 1].passes > states[k].passes
    ensures states[k + 1].event.re == states[k].event.re
    ensures states[k + 1].event.sg == !states[k].event.re
  {
    RunStepPasses(states, steps, k);
  }

  ghost predicate Enables(s: State, steps: seq<Step>)
    decreases |steps|
  {
    steps == [] || (Enabled(s, steps[0]) && Enables(Apply(s, steps[0]), steps[1..]))
  }

  ghost function Exec(s: State, steps: seq<Step>): State
    decreases |steps|
  {
    if steps == [] then s else Exec(Apply(s, steps[0]), steps[1..])
  }

  /** A step that finishes a call already under way. */
  predicate Finishes(a: Step) { a.Recheck? || a.CallOne? || a.CallAll? }

  /** From every reachable state with the flag set and a thread blocked, at most two steps
      of calls already under way complete a wait. */
  lemma AWaitCanComplete(states: seq<State>, steps: seq<Step>, k: nat) returns (next: seq<Step>)
    requires Run(states, steps) && k < |states|
    requires states[k].event.sg && AnyBlocked(states[k])
    ensures |next| <= 2 && Enables(states[k], next) && (forall a <- next :: Finishes(a))
    ensures Exec(states[k], next).passes == states[k].passes + 1
  {
    RunKeepsInv(states, steps, k);
    var s := states[k];
    var b :| At(s, b, Blocked);
    var t :| At(s, t, OwesOne) || At(s, t, OwesAll) || At(s, t, Woken);
    if At(s, t, Woken) {
      next := [Recheck(t)];
      assert next[1..] == [];
    } else {
      var call := if At(s, t, OwesOne) then CallOne(t, b) else CallAll(t);
      next := [call, Recheck(b)];
      var s' := Apply(s, call);
      assert At(s', b, Woken) && s'.event == s.event;
      assert next[1..] == [Recheck(b)] && [Recheck(b)][1..] == [];
      assert Exec(s, next) == Exec(s', [Recheck(b)]) == Apply(s', Recheck(b));
    }
  }

  lemma {:induction false} StaysLatched(states: seq<State>, steps: seq<Step>, r: nat, j: nat)
    requires Run(states, steps) && r < j < |states| && steps[r].RaiseAll?
    requires forall k :: r < k < j ==> !steps[k].DoReset?
    ensures states[j].event == Event(false, true)
  {
    if j > r + 1 { StaysLatched(states, steps, r, j - 1); }
  }

  /** Once notify_all has latched the event and delivered its broadcast, no thread is or
      becomes blocked until the event is reset. */
  lemma {:induction false} BroadcastLetsAllThrough(states: seq<State>, steps: seq<Step>, r: nat, c: nat, j: nat)
    requires Run(states, steps) && r < c < j < |states|
    requires steps[r].RaiseAll? && steps[c].CallAll?
    requires forall k :: r < k < j ==> !steps[k].DoReset?
    ensures states[j].event == Event(false, true) && !AnyBlocked(states[j])
    decreases j
  {
    StaysLatched(states, steps, r, j - 1);
    if j > c + 1 { BroadcastLetsAllThrough(states, steps, r, c, j - 1); }
    LatchedStep(states[j - 1], steps[j - 1]);
  }

  lemma LatchedStep(s: State, a: Step)
    requires Enabled(s, a) && s.event == Event(false, true) && !a.DoReset?
    requires !AnyBlocked(s) || a.CallAll?
    ensures Apply(s, a).event == Event(false, true) && !AnyBlocked(Apply(s, a))
  {
    if AnyBlocked(Apply(s, a)) {
      var b :| At(Apply(s, a), b, Blocked);
      assert At(s, b, Blocked);
    }
  }
}
