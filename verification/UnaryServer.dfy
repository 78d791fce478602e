/** AsyncServiceImpl of server.h under RunAsync: unary calls answered by a thread of their own,
    with one consumer of the completion queue.  A call's thread may issue Finish, and its
    completion may arrive, before the consumer has stored FINISH in `status_`; a failed
    completion is dropped. */
module UnaryServer {
  import opened Counting
  import opened Messages
  import opened WireFormat
  import opened Completion
  import opened Wrappers

  datatype Status = Create | Process | Finish

  datatype Thread = NotStarted | Working | Replied

  /** `spawns` counts successors made, `replies` calls of Finish. */
  datatype Call = Call(status: Status, tag: TagAt, thread: Thread, spawns: nat, replies: nat)

  /** Where the consumer is. */
  datatype Place =
    | Starting
    | AtNext
    | Picked(self: Addr)
    | Made(child: Addr, parent: Option<Addr>)     // in the constructor, status_ is CREATE
    | Arming(child: Addr, parent: Option<Addr>)   // before RequestBaseTransmit
    | BeforeThread(self: Addr)                    // before InitThread
    | AfterThread(self: Addr)                     // before status_ = FINISH

  datatype State = State(
    live: map<Addr, Call>,
    freed: seq<Call>,
    outstanding: multiset<Addr>,
    events: multiset<(Addr, bool)>,
    place: Place)

  datatype Step =
    | Complete(a: Addr, ok: bool)
    | Reply(a: Addr)              // the call's thread calls Finish
    | First(addr: Addr)
    | Next(a: Addr, ok: bool)
    | Spawn(addr: Addr)           // PROCESS branch: new
    | SetProcess
    | Request
    | StartThread
    | SetFinish
    | Delete                      // FINISH branch

  predicate IsLive(s: State, a: Addr, status: Status) { a in s.live && s.live[a].status == status }

  predicate Enabled(s: State, b: Step) {
    match b
    case Complete(a, _) => a in s.outstanding
    case Reply(a) => a in s.live && s.live[a].thread == Working
    case First(addr) => s.place.Starting? && addr !in s.live
    case Next(a, ok) => s.place.AtNext? && (a, ok) in s.events
    case Spawn(addr) => s.place.Picked? && IsLive(s, s.place.self, Process) && addr !in s.live
    case SetProcess => s.place.Made? && s.place.child in s.live
    case Request => s.place.Arming? && s.place.child in s.live
    case StartThread => s.place.BeforeThread? && s.place.self in s.live
    case SetFinish => s.place.AfterThread? && s.place.self in s.live
    case Delete => s.place.Picked? && IsLive(s, s.place.self, Finish)
  }

  function Set(s: State, a: Addr, c: Call): State { s.(live := s.live[a := c]) }

  function SetTag(s: State, a: Addr, t: TagAt): State {
    if a in s.live then Set(s, a, s.live[a].(tag := t)) else s
  }

  const NEW := Call(Create, NoTag, NotStarted, 0, 0)

  function Apply(s: State, b: Step): State
    requires Enabled(s, b)
  {
    match b
    case Complete(a, ok) =>
      SetTag(s, a, Queued(ok)).(outstanding := s.outstanding - multiset{a}, events := s.events + multiset{(a, ok)})
    case Reply(a) =>
      Set(s, a, s.live[a].(thread := Replied, replies := s.live[a].replies + 1, tag := Runtime))
        .(outstanding := s.outstanding + multiset{a})
    case First(addr) => Set(s, addr, NEW).(place := Made(addr, None))
    case Next(a, ok) =>
      SetTag(s, a, if ok then NoTag else Lost)
        .(events := s.events - multiset{(a, ok)}, place := if ok then Picked(a) else AtNext)
    case Spawn(addr) =>
      var self := s.place.self;
      Set(Set(s, self, s.live[self].(spawns := s.live[self].spawns + 1)), addr, NEW).(place := Made(addr, Some(self)))
    case SetProcess =>
      var c := s.place.child;
      Set(s, c, s.live[c].(status := Process)).(place := Arming(c, s.place.parent))
    case Request =>
      var c := s.place.child;
      SetTag(s, c, Runtime).(outstanding := s.outstanding + multiset{c},
        place := if s.place.parent.Some? then BeforeThread(s.place.parent.value) else AtNext)
    case StartThread =>
      var a := s.place.self;
      Set(s, a, s.live[a].(thread := Working)).(place := AfterThread(a))
    case SetFinish =>
      var a := s.place.self;
      Set(s, a, s.live[a].(status := Finish)).(place := AtNext)
    case Delete =>
      var a := s.place.self;
      s.(live := s.live - {a}, freed := s.freed + [s.live[a]], place := AtNext)
  }

  predicate Init(s: State) {
    && s.live == map[] && s.freed == [] && s.outstanding == multiset{} && s.events == multiset{}
    && s.place == Starting
  }

  ghost predicate Run(states: seq<State>, steps: seq<Step>) {
    && |states| == |steps| + 1
    && Init(states[0])
    && forall i :: 0 <= i < |steps| ==> Enabled(states[i], steps[i]) && states[i + 1] == Apply(states[i], steps[i])
  }

  // ---------- Invariants ----------

  /** What the consumer is doing with an object. */
  datatype Role = Apart | Tagged | NewChild | ArmingChild | Parent | Threaded

  function RoleOf(place: Place, a: Addr): Role {
    match place
    case Starting => Apart
    case AtNext => Apart
    case Picked(b) => if a == b then Tagged else Apart
    case Made(c, parent) => if a == c then NewChild else if parent == Some(a) then Parent else Apart
    case Arming(c, parent) => if a == c then ArmingChild else if parent == Some(a) then Parent else Apart
    case BeforeThread(b) => if a == b then Parent else Apart
    case AfterThread(b) => if a == b then Threaded else Apart
  }

  /** A request nobody has acted on, and an answered call. */
  predicate Fresh(c: Call) { c.status == Process && c.thread == NotStarted && c.spawns == c.replies == 0 }

  predicate Answered(c: Call) { c.status == Finish && c.thread == Replied && c.spawns == c.replies == 1 }

  predicate ThreadFits(c: Call) {
    || (c.thread == Working && c.tag == NoTag && c.replies == 0)
    || (c.thread == Replied && Issued(c.tag) && c.replies == 1)
  }

  predicate StageFits(c: Call, role: Role) {
    match role
    case Apart =>
      || ((Fresh(c) || Answered(c)) && c.tag != NoTag)
      || (c.status == Finish && c.thread == Working && c.tag == NoTag && c.spawns == 1 && c.replies == 0)
    case Tagged => (Fresh(c) || Answered(c)) && c.tag == NoTag
    case NewChild => c == NEW
    case ArmingChild => c == NEW.(status := Process)
    case Parent => c == NEW.(status := Process, spawns := 1)
    case Threaded => c.status == Process && c.spawns == 1 && ThreadFits(c)
  }

  ghost predicate Stages(s: State) {
    && (forall a <- s.live :: StageFits(s.live[a], RoleOf(s.place, a)))
    && (forall a :: RoleOf(s.place, a) != Apart ==> a in s.live)
    && (s.place.Made? || s.place.Arming? ==> s.place.parent != Some(s.place.child))
    && (forall c <- s.freed :: Answered(c))
  }

  ghost predicate Tags(s: State) {
    && (forall a :: s.outstanding[a] == if a in s.live && s.live[a].tag == Runtime then 1 else 0)
    && (forall a, ok :: s.events[(a, ok)] == if a in s.live && s.live[a].tag == Queued(ok) then 1 else 0)
  }

  /** Objects that wait for a client, or whose request failed. */
  function Armed(s: State): set<Addr> { set a | a in s.live && Fresh(s.live[a]) && s.live[a].tag != NoTag }

  predicate Owes(s: State) {
    || s.place.Starting? || s.place.Made? || s.place.Arming?
    || (s.place.Picked? && IsLive(s, s.place.self, Process))
  }

  ghost predicate Arms(s: State) { |Armed(s)| + (if Owes(s) then 1 else 0) == 1 }

  ghost predicate Inv(s: State) { Stages(s) && Tags(s) && Arms(s) }

  // One lemma per step and part of the invariant.

  lemma CompleteKeepsStages(s: State, a: Addr, ok: bool)
    requires Stages(s) && Tags(s) && Enabled(s, Complete(a, ok))
    ensures Stages(Apply(s, Complete(a, ok)))
  {
  }

  lemma ReplyKeepsStages(s: State, a: Addr)
    requires Stages(s) && Tags(s) && Enabled(s, Reply(a))
    ensures Stages(Apply(s, Reply(a)))
  {
  }

  lemma FirstKeepsStages(s: State, addr: Addr)
    requires Stages(s) && Tags(s) && Enabled(s, First(addr))
    ensures Stages(Apply(s, First(addr)))
  {
  }

  lemma NextKeepsStages(s: State, a: Addr, ok: bool)
    requires Stages(s) && Tags(s) && Enabled(s, Next(a, ok))
    ensures Stages(Apply(s, Next(a, ok)))
  {
  }

  lemma SpawnKeepsStages(s: State, addr: Addr)
    requires Stages(s) && Tags(s) && Enabled(s, Spawn(addr))
    ensures Stages(Apply(s, Spawn(addr)))
  {
  }

  lemma SetProcessKeepsStages(s: State)
    requires Stages(s) && Tags(s) && Enabled(s, SetProcess)
    ensures Stages(Apply(s, SetProcess))
  {
  }

  lemma RequestKeepsStages(s: State)
    requires Stages(s) && Tags(s) && Enabled(s, Request)
    ensures Stages(Apply(s, Request))
  {
  }

  lemma StartThreadKeepsStages(s: State)
    requires Stages(s) && Tags(s) && Enabled(s, StartThread)
    ensures Stages(Apply(s, StartThread))
  {
  }

  lemma SetFinishKeepsStages(s: State)
    requires Stages(s) && Tags(s) && Enabled(s, SetFinish)
    ensures Stages(Apply(s, SetFinish))
  {
  }

  lemma DeleteKeepsStages(s: State)
    requires Stages(s) && Tags(s) && Enabled(s, Delete)
    ensures Stages(Apply(s, Delete))
  {
  }

  lemma CompleteKeepsTags(s: State, a: Addr, ok: bool)
    requires Stages(s) && Tags(s) && Enabled(s, Complete(a, ok))
    ensures Tags(Apply(s, Complete(a, ok)))
  {
  }

  lemma ReplyKeepsTags(s: State, a: Addr)
    requires Stages(s) && Tags(s) && Enabled(s, Reply(a))
    ensures Tags(Apply(s, Reply(a)))
  {
  }

  lemma FirstKeepsTags(s: State, addr: Addr)
    requires Stages(s) && Tags(s) && Enabled(s, First(addr))
    ensures Tags(Apply(s, First(addr)))
  {
  }

  lemma NextKeepsTags(s: State, a: Addr, ok: bool)
    requires Stages(s) && Tags(s) && Enabled(s, Next(a, ok))
    ensures Tags(Apply(s, Next(a, ok)))
  {
  }

  lemma SpawnKeepsTags(s: State, addr: Addr)
    requires Stages(s) && Tags(s) && Enabled(s, Spawn(addr))
    ensures Tags(Apply(s, Spawn(addr)))
  {
  }

  lemma SetProcessKeepsTags(s: State)
    requires Stages(s) && Tags(s) && Enabled(s, SetProcess)
    ensures Tags(Apply(s, SetProcess))
  {
  }

  lemma RequestKeepsTags(s: State)
    requires Stages(s) && Tags(s) && Enabled(s, Request)
    ensures Tags(Apply(s, Request))
  {
  }

  lemma StartThreadKeepsTags(s: State)
    requires Stages(s) && Tags(s) && Enabled(s, StartThread)
    ensures Tags(Apply(s, StartThread))
  {
  }

  lemma SetFinishKeepsTags(s: State)
    requires Stages(s) && Tags(s) && Enabled(s, SetFinish)
    ensures Tags(Apply(s, SetFinish))
  {
  }

  lemma DeleteKeepsTags(s: State)
    requires Stages(s) && Tags(s) && Enabled(s, Delete)
    ensures Tags(Apply(s, Delete))
  {
  }

  lemma StepKeepsTags(s: State, b: Step)
    requires Stages(s) && Tags(s) && Enabled(s, b)
    ensures Stages(Apply(s, b)) && Tags(Apply(s, b))
  {
    match b
    case Complete(a, ok) => CompleteKeepsStages(s, a, ok); CompleteKeepsTags(s, a, ok);
    case Reply(a) => ReplyKeepsStages(s, a); ReplyKeepsTags(s, a);
    case First(addr) => FirstKeepsStages(s, addr); FirstKeepsTags(s, addr);
    case Next(a, ok) => NextKeepsStages(s, a, ok); NextKeepsTags(s, a, ok);
    case Spawn(addr) => SpawnKeepsStages(s, addr); SpawnKeepsTags(s, addr);
    case SetProcess => SetProcessKeepsStages(s); SetProcessKeepsTags(s);
    case Request => RequestKeepsStages(s); RequestKeepsTags(s);
    case StartThread => StartThreadKeepsStages(s); StartThreadKeepsTags(s);
    case SetFinish => SetFinishKeepsStages(s); SetFinishKeepsTags(s);
    case Delete => DeleteKeepsStages(s); DeleteKeepsTags(s);
  }

  // The armed object is accepted by Next and re-armed by Request; nothing else matters.

  lemma NextKeepsArms(s: State, a: Addr, ok: bool)
    requires Inv(s) && Enabled(s, Next(a, ok))
    ensures Arms(Apply(s, Next(a, ok)))
  {
    assert Armed(Apply(s, Next(a, ok))) == if ok && IsLive(s, a, Process) then Armed(s) - {a} else Armed(s);
  }

  lemma RequestKeepsArms(s: State)
    requires Inv(s) && Enabled(s, Request)
    ensures Arms(Apply(s, Request))
  {
    assert Armed(Apply(s, Request)) == Armed(s) + {s.place.child};
  }

  lemma CompleteKeepsArms(s: State, a: Addr, ok: bool)
    requires Tags(s) && Arms(s) && Enabled(s, Complete(a, ok))
    ensures Arms(Apply(s, Complete(a, ok)))
  {
    assert Armed(Apply(s, Complete(a, ok))) == Armed(s);
  }

  lemma MakingKeepsArms(s: State, b: Step)
    requires Stages(s) && Arms(s) && Enabled(s, b) && (b.First? || b.Spawn?)
    ensures Arms(Apply(s, b))
  {
    assert Armed(Apply(s, b)) == Armed(s);
  }

  lemma ThreadKeepsArms(s: State, b: Step)
    requires Inv(s) && Enabled(s, b) && (b.SetProcess? || b.StartThread? || b.Reply?)
    ensures Arms(Apply(s, b))
  {
    assert Armed(Apply(s, b)) == Armed(s);
  }

  lemma LeavingKeepsArms(s: State, b: Step)
    requires Inv(s) && Enabled(s, b) && (b.SetFinish? || b.Delete?)
    ensures Arms(Apply(s, b))
  {
    assert Armed(Apply(s, b)) == Armed(s);
  }

  lemma StepKeepsArms(s: State, b: Step)
    requires Inv(s) && Enabled(s, b)
    ensures Arms(Apply(s, b))
  {
    match b
    case Next(a, ok) => NextKeepsArms(s, a, ok);
    case Request => RequestKeepsArms(s);
    case Complete(a, ok) => CompleteKeepsArms(s, a, ok);
    case First(_) => MakingKeepsArms(s, b);
    case Spawn(_) => MakingKeepsArms(s, b);
    case SetProcess => ThreadKeepsArms(s, b);
    case StartThread => ThreadKeepsArms(s, b);
    case Reply(_) => ThreadKeepsArms(s, b);
    case _ => LeavingKeepsArms(s, b);
  }

  lemma {:induction false} RunKeepsInv(states: seq<State>, steps: seq<Step>, k: nat)
    requires Run(states, steps) && k < |states|
    ensures Inv(states[k])
  {
    if k == 0 {
      assert Armed(states[0]) == {};
    } else {
      RunKeepsInv(states, steps, k - 1);
      StepKeepsTags(states[k - 1], steps[k - 1]);
      StepKeepsArms(states[k - 1], steps[k - 1]);
    }
  }

  // ---------- Main results ----------

  /** The consumer takes the completion of a reply only when `status_` is FINISH, although the
      replying thread is started before that is stored; otherwise the tag is a fresh request. */
  lemma FinishIsSeenFinished(states: seq<State>, steps: seq<Step>, k: nat)
    requires Run(states, steps) && k < |states| && states[k].place.Picked?
    ensures var s, a := states[k], states[k].place.self;
      && a in s.live
      && (s.live[a].thread != NotStarted <==> s.live[a].status == Finish)
      && s.live[a].replies == s.live[a].spawns == if s.live[a].status == Finish then 1 else 0
  {
    RunKeepsInv(states, steps, k);
    var s := states[k];
    assert StageFits(s.live[s.place.self], Tagged);
  }

  /** At most one operation or event per call, at most one successor and one reply; exactly one
      of each by the time the call is deleted. */
  lemma OneReplyPerCall(states: seq<State>, steps: seq<Step>, k: nat, a: Addr)
    requires Run(states, steps) && k < |states|
    ensures var s := states[k];
      && s.outstanding[a] + s.events[(a, true)] + s.events[(a, false)] <= (if a in s.live then 1 else 0)
      && (a in s.live ==> s.live[a].replies <= s.live[a].spawns <= 1)
      && forall c <- s.freed :: c.replies == c.spawns == 1
  {
    RunKeepsInv(states, steps, k);
    var s := states[k];
    if a in s.live { assert StageFits(s.live[a], RoleOf(s.place, a)); }
  }

  /** A thread that still has to reply belongs to a live call. */
  lemma WorkingCallsAreNotDeleted(states: seq<State>, steps: seq<Step>, k: nat)
    requires Run(states, steps) && k < |steps| && steps[k].Delete?
    ensures var c := states[k].live[states[k].place.self]; c.thread == Replied && c.tag == NoTag
  {
    RunKeepsInv(states, steps, k);
    var s := states[k];
    assert StageFits(s.live[s.place.self], Tagged);
  }

  // ---------- Failed completions ----------

  /** The request of the object that listens has failed. */
  predicate Deaf(s: State) { exists a <- Armed(s) :: s.live[a].tag == Lost }

  /** The consumer takes the failed completion of a request. */
  predicate DropsRequest(s: State, b: Step) { b.Next? && !b.ok && b.a in Armed(s) }

  /** Nobody will act on an object whose completion failed. */
  predicate Abandoned(s: State, a: Addr) {
    && a in s.live && s.live[a].tag == Lost && s.live[a].thread != Working && RoleOf(s.place, a) == Apart
    && a !in s.outstanding && (a, true) !in s.events && (a, false) !in s.events
  }

  lemma LostIsAbandoned(s: State, a: Addr)
    requires Stages(s) && Tags(s) && a in s.live && s.live[a].tag == Lost
    ensures Abandoned(s, a)
  {
    assert StageFits(s.live[a], RoleOf(s.place, a));
    assert s.outstanding[a] == 0 && s.events[(a, true)] == 0 && s.events[(a, false)] == 0;
  }

  predicate Issues(b: Step) { b.Complete? || b.Reply? || b.Request? }

  lemma IssuingLeavesAbandoned(s: State, b: Step, a: Addr)
    requires Abandoned(s, a) && Enabled(s, b) && Issues(b)
    ensures a in Apply(s, b).live && Apply(s, b).live[a] == s.live[a]
  {
  }

  lemma MakingLeavesAbandoned(s: State, b: Step, a: Addr)
    requires Abandoned(s, a) && Enabled(s, b) && (b.First? || b.Spawn?)
    ensures a in Apply(s, b).live && Apply(s, b).live[a] == s.live[a]
  {
  }

  lemma OthersLeaveAbandoned(s: State, b: Step, a: Addr)
    requires Abandoned(s, a) && Enabled(s, b) && !Issues(b) && !b.First? && !b.Spawn?
    ensures a in Apply(s, b).live && Apply(s, b).live[a] == s.live[a]
  {
  }

  lemma AbandonedIsLeft(s: State, b: Step, a: Addr)
    requires Abandoned(s, a) && Enabled(s, b)
    ensures a in Apply(s, b).live && Apply(s, b).live[a] == s.live[a]
  {
    if Issues(b) {
      IssuingLeavesAbandoned(s, b, a);
    } else if b.First? || b.Spawn? {
      MakingLeavesAbandoned(s, b, a);
    } else {
      OthersLeaveAbandoned(s, b, a);
    }
  }

  lemma LostIsLeft(s: State, b: Step, a: Addr)
    requires Stages(s) && Tags(s) && Enabled(s, b) && a in s.live && s.live[a].tag == Lost
    ensures a in Apply(s, b).live && Apply(s, b).live[a] == s.live[a]
  {
    LostIsAbandoned(s, a);
    AbandonedIsLeft(s, b, a);
  }

  predicate IsLost(s: State, a: Addr) { a in s.live && s.live[a].tag == Lost }

  lemma IssuingLosesNothing(s: State, b: Step, a: Addr)
    requires Enabled(s, b) && Issues(b) && !IsLost(s, a)
    ensures !IsLost(Apply(s, b), a)
  {
  }

  lemma MakingLosesNothing(s: State, b: Step, a: Addr)
    requires Enabled(s, b) && (b.First? || b.Spawn?) && !IsLost(s, a)
    ensures !IsLost(Apply(s, b), a)
  {
  }

  lemma OthersLoseNothing(s: State, b: Step, a: Addr)
    requires Enabled(s, b) && !Issues(b) && !b.First? && !b.Spawn? && !b.Next? && !IsLost(s, a)
    ensures !IsLost(Apply(s, b), a)
  {
  }

  lemma NextLosesItsTag(s: State, b: Step, a: Addr)
    requires Enabled(s, b) && b.Next? && IsLost(Apply(s, b), a) && !IsLost(s, a)
    ensures b == Next(a, false) && a in s.live && Apply(s, b).live[a] == s.live[a].(tag := Lost)
  {
  }

  lemma NewlyLost(s: State, b: Step, a: Addr)
    requires Enabled(s, b) && IsLost(Apply(s, b), a) && !IsLost(s, a)
    ensures b == Next(a, false) && a in s.live && Apply(s, b).live[a] == s.live[a].(tag := Lost)
  {
    if b.Next? {
      NextLosesItsTag(s, b, a);
    } else if Issues(b) {
      IssuingLosesNothing(s, b, a);
    } else if b.First? || b.Spawn? {
      MakingLosesNothing(s, b, a);
    } else {
      OthersLoseNothing(s, b, a);
    }
  }

  lemma StepGoesDeaf(s: State, b: Step)
    requires Stages(s) && Tags(s) && Enabled(s, b)
    ensures Deaf(Apply(s, b)) <==> Deaf(s) || DropsRequest(s, b)
  {
    var s' := Apply(s, b);
    if a :| a in Armed(s') && s'.live[a].tag == Lost {
      if a in s.live && s.live[a].tag == Lost {
        LostIsLeft(s, b, a);
        assert a in Armed(s);
      } else {
        NewlyLost(s, b, a);
        assert s.live[a].tag == Queued(false);
        assert a in Armed(s);
      }
    }
    if a :| a in Armed(s) && s.live[a].tag == Lost {
      LostIsLeft(s, b, a);
      assert a in Armed(s');
    }
    if DropsRequest(s, b) {
      assert s.live[b.a].tag == Queued(false);
      assert b.a in Armed(s') && s'.live[b.a].tag == Lost;
    }
  }

  lemma RunStepGoesDeaf(states: seq<State>, steps: seq<Step>, k: nat)
    requires Run(states, steps) && k < |steps|
    ensures Deaf(states[k + 1]) <==> Deaf(states[k]) || DropsRequest(states[k], steps[k])
  {
    RunKeepsInv(states, steps, k);
    StepGoesDeaf(states[k], steps[k]);
  }

  /** The server is deaf iff the consumer has dropped the failed completion of a request. */
  lemma {:induction false} DeafIff(states: seq<State>, steps: seq<Step>, k: nat)
    requires Run(states, steps) && k < |states|
    ensures Deaf(states[k]) <==> exists i :: 0 <= i < k && DropsRequest(states[i], steps[i])
  {
    if k > 0 {
      DeafIff(states, steps, k - 1);
      RunStepGoesDeaf(states, steps, k - 1);
    }
  }

  /** One failure is enough: wherever the request of the listening object is outstanding. */
  lemma OneFailureDeafens(states: seq<State>, steps: seq<Step>, k: nat, a: Addr)
    requires Run(states, steps) && k < |states| && states[k].place.AtNext?
    requires a in Armed(states[k]) && a in states[k].outstanding
    ensures Enabled(states[k], Complete(a, false))
    ensures var t := Apply(states[k], Complete(a, false));
      Enabled(t, Next(a, false)) && Deaf(Apply(t, Next(a, false)))
  {
    RunKeepsInv(states, steps, k);
    var s := states[k];
    var t := Apply(s, Complete(a, false));
    CompleteKeepsStages(s, a, false);
    CompleteKeepsTags(s, a, false);
    assert a in Armed(t);
    StepGoesDeaf(t, Next(a, false));
  }

  /** A deaf server stays deaf and makes no object to listen, so it accepts no client ever again. */
  lemma DeafForGood(states: seq<State>, steps: seq<Step>, i: nat, k: nat)
    requires Run(states, steps) && i <= k < |states| && Deaf(states[i])
    ensures Deaf(states[k])
    ensures k < |steps| ==> !steps[k].First? && !steps[k].Spawn?
  {
    DeafIff(states, steps, i);
    DeafIff(states, steps, k);
    RunKeepsInv(states, steps, k);
    if k < |steps| { DeafMakesNoObject(states[k], steps[k]); }
  }

  lemma DeafMakesNoObject(s: State, b: Step)
    requires Arms(s) && Enabled(s, b) && Deaf(s)
    ensures !b.First? && !b.Spawn?
  {
    assert Armed(s) != {} && !Owes(s);
  }

  lemma RunStepLeavesLost(states: seq<State>, steps: seq<Step>, k: nat, a: Addr)
    requires Run(states, steps) && k < |steps| && IsLost(states[k], a)
    ensures a in states[k + 1].live && states[k + 1].live[a] == states[k].live[a]
  {
    RunKeepsInv(states, steps, k);
    LostIsLeft(states[k], steps[k], a);
  }

  /** An object is leaked, unchanged, once any of its completions has failed. */
  lemma {:induction false} LostIsLeaked(states: seq<State>, steps: seq<Step>, i: nat, j: nat, a: Addr)
    requires Run(states, steps) && i <= j < |states| && a in states[i].live && states[i].live[a].tag == Lost
    ensures a in states[j].live && states[j].live[a] == states[i].live[a]
    decreases j
  {
    if j > i {
      LostIsLeaked(states, steps, i, j - 1, a);
      RunStepLeavesLost(states, steps, j - 1, a);
    }
  }

  /** Whenever the consumer waits for an event, one object listens: its request is outstanding or
      reported, unless it has failed. */
  lemma OneObjectListens(states: seq<State>, steps: seq<Step>, k: nat) returns (a: Addr)
    requires Run(states, steps) && k < |states| && states[k].place.AtNext?
    ensures Armed(states[k]) == {a}
    ensures var s := states[k];
      s.outstanding[a] + s.events[(a, true)] + s.events[(a, false)] == if Deaf(s) then 0 else 1
  {
    RunKeepsInv(states, steps, k);
    a :| a in Armed(states[k]);
    Singleton(Armed(states[k]), a);
    assert Deaf(states[k]) <==> states[k].live[a].tag == Lost;
  }

  // ---------- One call of Proceed ----------

  datatype Operation = RequestBaseTransmit | FinishReply

  class AsyncServiceImpl {
    var status: Status
    var request: Message
    var reply: Message
    const cq: CompletionQueue<AsyncServiceImpl, Operation>

    constructor (cq: CompletionQueue<AsyncServiceImpl, Operation>)
      modifies cq
      ensures this.cq == cq && status == Process
      ensures cq.issued == old(cq.issued) + [(this, RequestBaseTransmit)]
      decreases 1
    {
      this.cq := cq;
      status := Create;
      request, reply := EMPTY, EMPTY;
      new;
      var child, starts, deleted := Proceed();
    }

    /** The body of the call's own thread: `proc` answers the request, then the call finishes. */
    method Run(proc: seq<Byte> -> seq<Byte>)
      modifies this`reply, cq
      ensures reply == old(reply).(buffer := proc(request.buffer))
      ensures cq.issued == old(cq.issued) + [(this, FinishReply)]
    {
      reply := reply.(buffer := proc(request.buffer));
      cq.Issue(this, FinishReply);
    }

    /** `starts` says that the object starts its thread, before status is set; `deleted` that
        it frees itself. */
    method Proceed() returns (child: AsyncServiceImpl?, starts: bool, deleted: bool)
      modifies this, cq
      ensures old(status) == Create ==>
        child == null && status == Process && cq.issued == old(cq.issued) + [(this, RequestBaseTransmit)]
      ensures old(status) == Process ==>
        && child != null && fresh(child) && child.cq == cq && child.status == Process && status == Finish
        && cq.issued == old(cq.issued) + [(child, RequestBaseTransmit)]
      ensures old(status) == Finish ==> child == null && status == Finish && cq.issued == old(cq.issued)
      ensures (starts <==> old(status) == Process) && (deleted <==> old(status) == Finish)
      decreases if status == Process then 2 else 0
    {
      child, starts, deleted := null, false, false;
      match status
      case Create =>
        status := Process;
        cq.Issue(this, RequestBaseTransmit);
      case Process =>
        child := new AsyncServiceImpl(cq);
        starts := true;
        status := Finish;
      case Finish =>
        deleted := true;
    }
  }
}
