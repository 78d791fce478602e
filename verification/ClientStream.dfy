/** client_connect_write_stream: a writer thread pops packages from the bounded queue, hands
    gRPC a pointer to `request_`, and waits on the signal that the completion callback
    raises.  The machine composes the queue and the signal; gRPC is assumed to deliver one
    completion, on some thread of its own, for every write it was given. */
module ClientStream {
  import opened Wrappers
  import opened WireFormat
  import M = Messages
  import Q = Queue
  import S = Signal

  type Pkg = M.Message
  type Thread = S.Thread

  const WRITER: Thread := 0
  const QUEUE_LIMIT: nat := 1_000_000

  datatype LoopPlace =
    | Top         // testing exit_
    | Popping     // before pop_front
    | Writing     // request_ filled, before StartWrite
    | AtWait      // StartWrite done, before signal_.wait
    | Waiting     // inside signal_.wait
    | Clearing    // before request_.Clear
    | Closing     // left the loop, before StartWritesDone
    | Done

  /** OnWriteDone on one gRPC thread, for the write with the given number. */
  datatype Callback = Entered(ok: bool, write: nat) | Raised(ok: bool) | Called(ok: bool) | Joining

  datatype State = State(
    exit: bool,
    entering: multiset<Pkg>,          // requests past the exit test, before push_back
    queue: seq<Pkg>,
    loop: LoopPlace,
    current: Pkg,                     // request_
    inFlight: set<nat>,               // numbers of the writes gRPC has not completed
    lent: Pkg,                        // request_ as it was when StartWrite was last called
    event: S.State,                   // signal_
    callbacks: map<Thread, Callback>,
    writes: nat,                      // StartWrite calls
    raisedBy: nat,                    // the write whose completion last raised the flag
    accepted: seq<Pkg>,
    written: seq<Pkg>,
    closes: nat)                      // StartWritesDone calls

  /** Threads that call request and disconnect. */
  datatype CallerStep =
    | Ask(p: Pkg)                     // request: the exit test
    | Push(p: Pkg)                    // request: push_back
    | Disconnect                      // disconnect: exit_ is set

  /** The writer thread; `WakeUp` is a spurious wakeup. */
  datatype WriterStep = TestExit | Pop | StartWrite | CallWait | WakeUp | Recheck | Clear | WritesDone

  /** gRPC and the callbacks it runs. */
  datatype CallbackStep =
    | Complete(t: Thread, ok: bool, write: nat)   // gRPC completes a write and calls OnWriteDone
    | Raise(t: Thread)                // notify_one: critical section
    | Notify(t: Thread, w: Thread)    // notify_one: cv_.notify_one
    | Return(t: Thread)               // OnWriteDone returns, or calls disconnect on failure
    | Joined(t: Thread)               // disconnect has joined the writer thread

  datatype Step = Caller(c: CallerStep) | Writer(w: WriterStep) | Grpc(g: CallbackStep)

  function MakePackage(buffer: seq<Byte>): Pkg {
    M.Message(0, Narrow(|buffer|), buffer, [])
  }

  predicate Free(s: State, t: Thread) {
    t != WRITER && t !in s.callbacks && (t !in s.event.place || S.At(s.event, t, S.Outside))
  }

  /** The signal's step inside a step of the client, if there is one. */
  function SignalStep(s: State, a: Step): seq<S.Step> {
    match a
    case Caller(_) => []
    case Writer(w) =>
      if w.CallWait? then [S.EnterWait(WRITER)]
      else if w.WakeUp? then [S.Spurious(WRITER)]
      else if w.Recheck? then [S.Recheck(WRITER)]
      else []
    case Grpc(g) =>
      match g
      case Complete(t, _, _) => if t in s.event.place then [] else [S.Arrive(t)]
      case Raise(t) => [S.RaiseFlag(t)]
      case Notify(t, w) => [S.CallOne(t, w)]
      case _ => []
  }

  predicate WriterGuard(s: State, w: WriterStep) {
    match w
    case TestExit => s.loop == Top
    case Pop => s.loop == Popping
    case StartWrite => s.loop == Writing
    case CallWait => s.loop == AtWait
    case WakeUp => s.loop == Waiting
    case Recheck => s.loop == Waiting
    case Clear => s.loop == Clearing
    case WritesDone => s.loop == Closing
  }

  predicate CallbackGuard(s: State, g: CallbackStep) {
    match g
    case Complete(t, _, n) => n in s.inFlight && Free(s, t)
    case Raise(t) => t in s.callbacks && s.callbacks[t].Entered?
    case Notify(t, _) => t in s.callbacks && s.callbacks[t].Raised?
    case Return(t) => t in s.callbacks && s.callbacks[t].Called?
    case Joined(t) => t in s.callbacks && s.callbacks[t].Joining? && s.loop == Done
  }

  ghost predicate Enabled(s: State, a: Step) {
    && (a.Writer? ==> WriterGuard(s, a.w))
    && (a.Grpc? ==> CallbackGuard(s, a.g))
    && (a.Caller? && a.c.Push? ==> a.c.p in s.entering)
    && (SignalStep(s, a) != [] ==> S.Enabled(s.event, SignalStep(s, a)[0]))
  }

  function NextEvent(s: State, a: Step): S.State {
    var steps := SignalStep(s, a);
    if steps == [] then s.event else S.Apply(s.event, steps[0])
  }

  function CallerUpdate(s: State, c: CallerStep): State {
    match c
    case Ask(p) => if s.exit then s else s.(entering := s.entering + multiset{p})
    case Push(p) =>
      var v := s.(entering := s.entering - multiset{p}, queue := Q.Pushed(QUEUE_LIMIT, s.queue, p));
      if |s.queue| >= QUEUE_LIMIT then v else v.(accepted := s.accepted + [p])
    case Disconnect => s.(exit := true)
  }

  /** The writer's place after testing the flag. */
  function AfterTest(s: State): LoopPlace { if s.event.event.sg then Clearing else Waiting }

  function WriterUpdate(s: State, w: WriterStep): State {
    match w
    case TestExit => s.(loop := if s.exit then Closing else Popping)
    case Pop =>
      if s.queue == [] then s.(loop := Top)
      else s.(loop := Writing, current := s.queue[0], queue := s.queue[1..])
    case StartWrite =>
      s.(loop := AtWait, inFlight := s.inFlight + {s.writes + 1}, lent := s.current,
         writes := s.writes + 1, written := s.written + [s.current])
    case CallWait => s.(loop := AfterTest(s))
    case WakeUp => s
    case Recheck => s.(loop := AfterTest(s))
    case Clear => s.(loop := Top, current := M.EMPTY)
    case WritesDone => s.(loop := Done, closes := s.closes + 1)
  }

  function CallbackUpdate(s: State, g: CallbackStep): State
    requires CallbackGuard(s, g)
  {
    match g
    case Complete(t, ok, n) =>
      s.(inFlight := s.inFlight - {n}, callbacks := s.callbacks[t := Entered(ok, n)])
    case Raise(t) =>
      s.(callbacks := s.callbacks[t := Raised(s.callbacks[t].ok)], raisedBy := s.callbacks[t].write)
    case Notify(t, _) => s.(callbacks := s.callbacks[t := Called(s.callbacks[t].ok)])
    case Return(t) =>
      if s.callbacks[t].ok then s.(callbacks := s.callbacks - {t})
      else s.(exit := true, callbacks := s.callbacks[t := Joining])
    case Joined(t) => s.(callbacks := s.callbacks - {t})
  }

  function Apply(s: State, a: Step): State
    requires a.Grpc? ==> CallbackGuard(s, a.g)
  {
    var u := match a
      case Caller(c) => CallerUpdate(s, c)
      case Writer(w) => WriterUpdate(s, w)
      case Grpc(g) => CallbackUpdate(s, g);
    u.(event := NextEvent(s, a))
  }

  ghost predicate Init(s: State) {
    && !s.exit && s.entering == multiset{} && s.queue == [] && s.loop == Top
    && s.current == M.EMPTY && s.inFlight == {} && s.callbacks == map[] && s.writes == 0
    && s.accepted == s.written == [] && s.closes == 0
    && S.Init(s.event) && WRITER in s.event.place
  }

  ghost predicate Run(states: seq<State>, steps: seq<Step>) {
    && |states| == |steps| + 1
    && Init(states[0])
    && forall i :: 0 <= i < |steps| ==> Enabled(states[i], steps[i]) && states[i + 1] == Apply(states[i], steps[i])
  }

  // ---------- Invariants ----------

  predicate Expecting(s: State) { s.loop == AtWait || s.loop == Waiting }

  predicate IsEntered(s: State, t: Thread) { t in s.callbacks && s.callbacks[t].Entered? }

  /** The obligation to wake the writer is in exactly one place while the writer expects it,
      and nowhere otherwise: in gRPC, in one callback that has not raised the flag yet, or in
      the flag. */
  ghost predicate OneToken(s: State) {
    var sg := s.event.event.sg;
    && (s.inFlight == {} || s.inFlight == {s.writes})
    && (forall t, u :: IsEntered(s, t) && IsEntered(s, u) ==> t == u)
    && (s.inFlight != {} ==> Expecting(s) && !sg && forall t :: !IsEntered(s, t))
    && (sg ==> Expecting(s) && forall t :: !IsEntered(s, t))
    && (forall t :: IsEntered(s, t) ==> Expecting(s))
    && (Expecting(s) ==> s.inFlight != {} || sg || exists t :: IsEntered(s, t))
  }

  /** The token belongs to the write the writer is waiting for. */
  ghost predicate TokenIsCurrent(s: State) {
    && (forall t :: IsEntered(s, t) ==> s.callbacks[t].write == s.writes)
    && (s.event.event.sg ==> s.raisedBy == s.writes)
  }

  /** Where each thread is in the signal follows from where it is in the client. */
  ghost predicate PlacesAgree(s: State) {
    && WRITER in s.event.place
    && (s.loop == Waiting <==> s.event.place[WRITER] in {S.Blocked, S.Woken})
    && (s.loop != Waiting <==> s.event.place[WRITER] == S.Outside)
    && WRITER !in s.callbacks
    && (forall t <- s.callbacks :: t in s.event.place)
    && (forall t <- s.event.place :: t != WRITER ==>
         s.event.place[t] == if t in s.callbacks && s.callbacks[t].Raised? then S.OwesOne else S.Outside)
    && s.event.latches == 0
  }

  ghost predicate InOrder(s: State) {
    && s.accepted == s.written + (if s.loop == Writing then [s.current] else []) + s.queue
    && |s.queue| <= QUEUE_LIMIT
    && (Expecting(s) ==> s.written != [] && s.current == s.lent == s.written[|s.written| - 1])
    && s.writes == |s.written|
    && s.closes == if s.loop == Done then 1 else 0
  }

  ghost predicate Inv(s: State) {
    S.Inv(s.event) && PlacesAgree(s) && OneToken(s) && TokenIsCurrent(s) && InOrder(s)
  }

  // One lemma per group of steps and part of the invariant.

  lemma WriterKeepsPlaces(s: State, w: WriterStep)
    requires Inv(s) && Enabled(s, Writer(w))
    ensures PlacesAgree(Apply(s, Writer(w)))
  {
  }

  lemma CallbackKeepsPlaces(s: State, g: CallbackStep)
    requires Inv(s) && Enabled(s, Grpc(g))
    ensures PlacesAgree(Apply(s, Grpc(g)))
  {
    if SignalStep(s, Grpc(g)) == [] { QuietCallbackKeepsPlaces(s, g); } else { NotifierKeepsPlaces(s, g); }
  }

  lemma QuietCallbackKeepsPlaces(s: State, g: CallbackStep)
    requires Inv(s) && Enabled(s, Grpc(g)) && SignalStep(s, Grpc(g)) == []
    ensures PlacesAgree(Apply(s, Grpc(g)))
  {
    assert Apply(s, Grpc(g)).event == s.event;
  }

  lemma NotifierKeepsPlaces(s: State, g: CallbackStep)
    requires Inv(s) && Enabled(s, Grpc(g)) && SignalStep(s, Grpc(g)) != []
    ensures PlacesAgree(Apply(s, Grpc(g)))
  {
  }

  lemma StepKeepsPlaces(s: State, a: Step)
    requires Inv(s) && Enabled(s, a)
    ensures S.Inv(NextEvent(s, a)) && PlacesAgree(Apply(s, a))
  {
    if SignalStep(s, a) != [] { S.StepKeepsInv(s.event, SignalStep(s, a)[0]); }
    match a
    case Caller(_) =>
    case Writer(w) => WriterKeepsPlaces(s, w);
    case Grpc(g) => CallbackKeepsPlaces(s, g);
  }

  /** The writer puts a token in flight, or uses it up when it leaves the wait. */
  lemma WriterKeepsTokens(s: State, w: WriterStep)
    requires Inv(s) && Enabled(s, Writer(w))
    ensures OneToken(Apply(s, Writer(w))) && TokenIsCurrent(Apply(s, Writer(w)))
  {
    var s' := Apply(s, Writer(w));
    assert s'.callbacks == s.callbacks;
    assert forall t :: IsEntered(s', t) == IsEntered(s, t);
  }

  /** A completion moves the token into a callback, which moves it into the flag. */
  lemma CallbackKeepsTokens(s: State, g: CallbackStep)
    requires Inv(s) && Enabled(s, Grpc(g))
    ensures OneToken(Apply(s, Grpc(g))) && TokenIsCurrent(Apply(s, Grpc(g)))
  {
    var s' := Apply(s, Grpc(g));
    assert s'.loop == s.loop && s'.writes == s.writes;
    forall t ensures IsEntered(s', t)
                <==> if g.Complete? && g.t == t then true else IsEntered(s, t) && !(g.Raise? && g.t == t)
    {
    }
    if g.Complete? { assert IsEntered(s', g.t); }
    if g.Raise? { assert IsEntered(s, g.t); }
  }

  lemma WriterKeepsOrder(s: State, w: WriterStep)
    requires Inv(s) && Enabled(s, Writer(w))
    ensures InOrder(Apply(s, Writer(w)))
  {
    if w.Pop? && s.queue != [] {
      var q, rest := s.queue[0], s.queue[1..];
      assert s.queue == [q] + rest;
      assert s.written + [] + ([q] + rest) == s.written + [q] + rest;
    } else if w.StartWrite? {
      assert s.written + [s.current] + [] + s.queue == s.written + [s.current] + s.queue;
    }
  }

  lemma CallerKeepsOrder(s: State, c: CallerStep)
    requires Inv(s) && Enabled(s, Caller(c))
    ensures InOrder(Apply(s, Caller(c)))
  {
    if c.Push? {
      var mid := if s.loop == Writing then [s.current] else [];
      assert s.written + mid + (s.queue + [c.p]) == (s.written + mid + s.queue) + [c.p];
    }
  }

  lemma CallbackKeepsOrder(s: State, g: CallbackStep)
    requires InOrder(s) && CallbackGuard(s, g)
    ensures InOrder(Apply(s, Grpc(g)))
  {
  }

  lemma CallerKeepsTokens(s: State, c: CallerStep)
    requires Inv(s) && Enabled(s, Caller(c))
    ensures OneToken(Apply(s, Caller(c))) && TokenIsCurrent(Apply(s, Caller(c)))
  {
    var s' := Apply(s, Caller(c));
    assert s'.callbacks == s.callbacks;
    assert forall t :: IsEntered(s', t) == IsEntered(s, t);
  }

  lemma StepKeepsTokens(s: State, a: Step)
    requires Inv(s) && Enabled(s, a)
    ensures OneToken(Apply(s, a)) && TokenIsCurrent(Apply(s, a))
  {
    match a
    case Caller(c) => CallerKeepsTokens(s, c);
    case Writer(w) => WriterKeepsTokens(s, w);
    case Grpc(g) => CallbackKeepsTokens(s, g);
  }

  lemma StepKeepsOrder(s: State, a: Step)
    requires Inv(s) && Enabled(s, a)
    ensures InOrder(Apply(s, a))
  {
    match a
    case Caller(c) => CallerKeepsOrder(s, c);
    case Writer(w) => WriterKeepsOrder(s, w);
    case Grpc(g) => CallbackKeepsOrder(s, g);
  }

  lemma StepKeepsInv(s: State, a: Step)
    requires Inv(s) && Enabled(s, a)
    ensures Inv(Apply(s, a))
  {
    StepKeepsPlaces(s, a);
    StepKeepsTokens(s, a);
    StepKeepsOrder(s, a);
  }

  lemma {:induction false} RunKeepsInv(states: seq<State>, steps: seq<Step>, k: nat)
    requires Run(states, steps) && k < |states|
    ensures Inv(states[k])
  {
    if k > 0 {
      RunKeepsInv(states, steps, k - 1);
      StepKeepsInv(states[k - 1], steps[k - 1]);
    }
  }

  // ---------- Main results ----------

  /** At most one write is in flight, `request_` is what gRPC was given, a raised flag is the
      completion of the write being waited for, and the stream is half-closed at most once. */
  lemma StreamSafety(states: seq<State>, steps: seq<Step>, k: nat)
    requires Run(states, steps) && k < |states|
    ensures var s := states[k];
      && |s.inFlight| <= 1
      && (s.inFlight != {} ==> s.inFlight == {s.writes} && Expecting(s) && s.current == s.lent)
      && (s.inFlight != {} ==> s.written != [] && s.current == s.written[|s.written| - 1])
      && (s.event.event.sg ==> s.inFlight == {} && Expecting(s) && s.raisedBy == s.writes)
      && s.closes <= 1
  {
    RunKeepsInv(states, steps, k);
  }

  /** Whichever write gRPC completes is the one the writer started last and waits for. */
  lemma CompletionIsAwaited(states: seq<State>, steps: seq<Step>, k: nat)
    requires Run(states, steps) && k < |steps| && steps[k].Grpc? && steps[k].g.Complete?
    ensures steps[k].g.write == states[k].writes == |states[k].written| && Expecting(states[k])
    ensures states[k].written != [] && states[k].lent == states[k].written[|states[k].written| - 1]
  {
    RunKeepsInv(states, steps, k);
  }

  /** No step of any thread changes `request_` or half-closes the stream while gRPC holds a
      write. */
  lemma LentBufferIsLeftAlone(states: seq<State>, steps: seq<Step>, k: nat)
    requires Run(states, steps) && k < |steps| && states[k].inFlight != {}
    ensures states[k + 1].current == states[k].current && states[k + 1].closes == states[k].closes
    ensures steps[k] != Writer(WritesDone) && steps[k] != Writer(StartWrite)
  {
    RunKeepsInv(states, steps, k);
  }

  /** The exit flag is set by a disconnect from anywhere or a failed write, and by nothing else. */
  lemma {:induction false} ExitIff(states: seq<State>, steps: seq<Step>, k: nat)
    requires Run(states, steps) && k < |states|
    ensures states[k].exit <==> exists i :: 0 <= i < k && Disconnects(states[i], steps[i])
  {
    if k > 0 {
      ExitIff(states, steps, k - 1);
      ExitStep(states[k - 1], steps[k - 1]);
    }
  }

  predicate Disconnects(s: State, a: Step) {
    a == Caller(Disconnect) || (a.Grpc? && a.g.Return? && a.g.t in s.callbacks && s.callbacks[a.g.t] == Called(false))
  }

  lemma ExitStep(s: State, a: Step)
    requires Enabled(s, a)
    ensures Apply(s, a).exit <==> s.exit || Disconnects(s, a)
  {
  }

  /** A request goes on to the queue iff the exit flag is clear when it tests it, and is accepted iff
      the queue is below its bound. */
  lemma RequestDecides(states: seq<State>, steps: seq<Step>, k: nat, p: Pkg)
    requires Run(states, steps) && k < |steps|
    ensures steps[k] == Caller(Ask(p)) ==>
      states[k + 1].entering == states[k].entering + if states[k].exit then multiset{} else multiset{p}
    ensures steps[k] == Caller(Push(p)) ==>
      states[k + 1].accepted == states[k].accepted + if |states[k].queue| < 1_000_000 then [p] else []
  {
  }

  /** The writer leaves its loop, and half-closes the stream, only after that. */
  lemma {:induction false} LeavesOnlyAfterExit(states: seq<State>, steps: seq<Step>, k: nat)
    requires Run(states, steps) && k < |states|
    ensures states[k].loop == Closing || states[k].loop == Done || states[k].closes > 0 ==> states[k].exit
  {
    if k > 0 {
      LeavesOnlyAfterExit(states, steps, k - 1);
      LeaveStep(states[k - 1], steps[k - 1]);
    }
  }

  predicate Left(s: State) { s.loop == Closing || s.loop == Done || s.closes > 0 }

  lemma LeaveStep(s: State, a: Step)
    requires Enabled(s, a) && (Left(s) ==> s.exit)
    ensures Left(Apply(s, a)) ==> Apply(s, a).exit
  {
  }

  /** Accepted packages are those written, then the one popped and not yet written, then
      those queued, in order. */
  lemma AcceptedInOrder(states: seq<State>, steps: seq<Step>, k: nat)
    requires Run(states, steps) && k < |states|
    ensures var s := states[k];
      && s.accepted == s.written + (if s.loop == Writing then [s.current] else []) + s.queue
      && |s.queue| <= QUEUE_LIMIT
  {
    RunKeepsInv(states, steps, k);
  }

  function Ahead(s: State): nat { if s.loop == Popping || s.loop == Writing then 1 else 0 }

  /** After disconnect at most one more package is written. */
  lemma {:induction false} AtMostOneWriteAfterExit(states: seq<State>, steps: seq<Step>, i: nat, j: nat)
    requires Run(states, steps) && i <= j < |states| && states[i].exit
    ensures states[j].exit && |states[j].written| + Ahead(states[j]) <= |states[i].written| + Ahead(states[i])
    decreases j
  {
    if j > i { AtMostOneWriteAfterExit(states, steps, i, j - 1); }
  }

  ghost predicate Enables(s: State, next: seq<Step>)
    decreases |next|
  {
    next == [] || (Enabled(s, next[0]) && Enables(Apply(s, next[0]), next[1..]))
  }

  ghost function Exec(s: State, next: seq<Step>): State
    requires Enables(s, next)
    decreases |next|
  {
    if next == [] then s else Exec(Apply(s, next[0]), next[1..])
  }

  lemma FreshThread(used: set<Thread>) returns (t: Thread)
    ensures forall u <- used :: u < t
  {
    if used == {} {
      t := 0;
    } else {
      var u :| u in used;
      var m := FreshThread(used - {u});
      t := if u < m then m else u + 1;
      assert forall v <- used :: v == u || v in used - {u};
    }
  }

  /** How far the token still has to travel before the writer can go on. */
  ghost function Distance(s: State): nat {
    if s.inFlight != {} then 3
    else if !s.event.event.sg then 2
    else if S.At(s.event, WRITER, S.Blocked) then 1
    else 0
  }

  /** The next step that brings the token closer to the writer. */
  lemma Advance(s: State) returns (a: Step)
    requires Inv(s) && Expecting(s)
    ensures Enabled(s, a)
    ensures if Distance(s) == 0 then Apply(s, a).loop == Clearing
            else Expecting(Apply(s, a)) && Distance(Apply(s, a)) < Distance(s)
  {
    if s.inFlight != {} {
      var t := FreshThread(s.event.place.Keys);
      a := Grpc(Complete(t, true, s.writes));
    } else if !s.event.event.sg {
      var t :| IsEntered(s, t);
      a := Grpc(Raise(t));
    } else if S.At(s.event, WRITER, S.Blocked) {
      var t :| S.At(s.event, t, S.OwesOne) || S.At(s.event, t, S.OwesAll) || S.At(s.event, t, S.Woken);
      a := Grpc(Notify(t, WRITER));
    } else {
      a := Writer(if s.loop == AtWait then CallWait else Recheck);
    }
  }

  /** The writer is never stuck: from every reachable state in which it waits for a
      completion, at most four steps of gRPC and of the writer itself release it. */
  lemma WriterCanGoOn(s: State) returns (next: seq<Step>)
    requires Inv(s) && Expecting(s)
    ensures Enables(s, next) && |next| <= Distance(s) + 1
    ensures Exec(s, next).loop == Clearing
    decreases Distance(s)
  {
    var a := Advance(s);
    next := [a];
    assert next[1..] == [];
    if Distance(s) > 0 {
      StepKeepsInv(s, a);
      var more := WriterCanGoOn(Apply(s, a));
      next := [a] + more;
      assert next[1..] == more;
    }
  }

  lemma WaitingWriterIsReleased(states: seq<State>, steps: seq<Step>, k: nat) returns (next: seq<Step>)
    requires Run(states, steps) && k < |states| && Expecting(states[k])
    ensures Enables(states[k], next) && |next| <= 4
    ensures Exec(states[k], next).loop == Clearing
  {
    RunKeepsInv(states, steps, k);
    next := WriterCanGoOn(states[k]);
  }

  lemma LengthFits(n: nat)
    requires n <= MAX_LENGTH
    ensures Narrow(n) == n
  {
  }

  /** The peer reads from a request, within the length limit, the caller's bytes and their number,
      and nothing else. */
  lemma PeerReadsRequest(buffer: seq<Byte>)
    requires |buffer| <= MAX_LENGTH
    ensures var r := M.Parse(M.Package, M.Serialize(M.Package, MakePackage(buffer)));
      && r.Some? && r.value.buffer == buffer && r.value.length == |buffer|
      && r.value.version == 0 && r.value.unknown == []
  {
    LengthFits(|buffer|);
    M.RoundTrip(M.Package, MakePackage(buffer));
  }
}
