/** AsyncStreamTransmitImpl of server.h under RunAsync2: stream objects that alternate reads
    and writes, driven by the tags of a completion queue with one consumer.  Completions may
    arrive between any two accesses of that consumer; a failed one is dropped. */
module StreamServer {
  import opened Counting
  import opened Messages
  import opened WireFormat
  import opened Completion
  import opened Wrappers

  datatype Status = Create | InitRead | Read | Write | Finish

  /** `readOps` and `writeOps` count operations issued, `spawns` successors made. */
  datatype Stream = Stream(status: Status, tag: TagAt, readOps: nat, writeOps: nat, spawns: nat)

  /** Where the consumer is. */
  datatype Place =
    | Starting
    | AtNext
    | Picked(self: Addr)
    | Made(child: Addr, parent: Option<Addr>)     // in the constructor, status_ is CREATE
    | Arming(child: Addr, parent: Option<Addr>)   // before RequestStreamTransmit
    | BeforeRead(self: Addr)
    | AfterRead(self: Addr)                       // before status_ = WRITE
    | AfterWrite(self: Addr)                      // before status_ = READ

  datatype State = State(
    live: map<Addr, Stream>,
    outstanding: multiset<Addr>,
    events: multiset<(Addr, bool)>,
    place: Place)

  datatype Step =
    | Complete(a: Addr, ok: bool)
    | First(addr: Addr)
    | Next(a: Addr, ok: bool)
    | Spawn(addr: Addr)           // INIT_READ branch: new
    | FallThrough                 // READ branch entered from Next
    | SetInitRead
    | Request
    | IssueRead
    | SetWrite
    | IssueWrite                  // WRITE branch
    | SetRead
    | Delete                      // FINISH branch

  predicate IsLive(s: State, a: Addr, status: Status) { a in s.live && s.live[a].status == status }

  predicate Enabled(s: State, b: Step) {
    match b
    case Complete(a, _) => a in s.outstanding
    case First(addr) => s.place.Starting? && addr !in s.live
    case Next(a, ok) => s.place.AtNext? && (a, ok) in s.events
    case Spawn(addr) => s.place.Picked? && IsLive(s, s.place.self, InitRead) && addr !in s.live
    case FallThrough => s.place.Picked? && IsLive(s, s.place.self, Read)
    case SetInitRead => s.place.Made? && s.place.child in s.live
    case Request => s.place.Arming? && s.place.child in s.live
    case IssueRead => s.place.BeforeRead? && s.place.self in s.live
    case SetWrite => s.place.AfterRead? && s.place.self in s.live
    case IssueWrite => s.place.Picked? && IsLive(s, s.place.self, Write)
    case SetRead => s.place.AfterWrite? && s.place.self in s.live
    case Delete => s.place.Picked? && IsLive(s, s.place.self, Finish)
  }

  function Set(s: State, a: Addr, c: Stream): State { s.(live := s.live[a := c]) }

  function SetTag(s: State, a: Addr, t: TagAt): State {
    if a in s.live then Set(s, a, s.live[a].(tag := t)) else s
  }

  const NEW := Stream(Create, NoTag, 0, 0, 0)

  function Apply(s: State, b: Step): State
    requires Enabled(s, b)
  {
    match b
    case Complete(a, ok) =>
      SetTag(s, a, Queued(ok)).(outstanding := s.outstanding - multiset{a}, events := s.events + multiset{(a, ok)})
    case First(addr) => Set(s, addr, NEW).(place := Made(addr, None))
    case Next(a, ok) =>
      SetTag(s, a, if ok then NoTag else Lost)
        .(events := s.events - multiset{(a, ok)}, place := if ok then Picked(a) else AtNext)
    case Spawn(addr) =>
      var self := s.place.self;
      Set(Set(s, self, s.live[self].(spawns := s.live[self].spawns + 1)), addr, NEW).(place := Made(addr, Some(self)))
    case FallThrough => s.(place := BeforeRead(s.place.self))
    case SetInitRead =>
      var c := s.place.child;
      Set(s, c, s.live[c].(status := InitRead)).(place := Arming(c, s.place.parent))
    case Request =>
      var c := s.place.child;
      SetTag(s, c, Runtime).(outstanding := s.outstanding + multiset{c},
        place := if s.place.parent.Some? then BeforeRead(s.place.parent.value) else AtNext)
    case IssueRead =>
      var a := s.place.self;
      Set(s, a, s.live[a].(readOps := s.live[a].readOps + 1, tag := Runtime))
        .(outstanding := s.outstanding + multiset{a}, place := AfterRead(a))
    case SetWrite =>
      var a := s.place.self;
      Set(s, a, s.live[a].(status := Write)).(place := AtNext)
    case IssueWrite =>
      var a := s.place.self;
      Set(s, a, s.live[a].(writeOps := s.live[a].writeOps + 1, tag := Runtime))
        .(outstanding := s.outstanding + multiset{a}, place := AfterWrite(a))
    case SetRead =>
      var a := s.place.self;
      Set(s, a, s.live[a].(status := Read)).(place := AtNext)
    case Delete => s.(live := s.live - {s.place.self}, place := AtNext)
  }

  predicate Init(s: State) {
    s.live == map[] && s.outstanding == multiset{} && s.events == multiset{} && s.place == Starting
  }

  ghost predicate Run(states: seq<State>, steps: seq<Step>) {
    && |states| == |steps| + 1
    && Init(states[0])
    && forall i :: 0 <= i < |steps| ==> Enabled(states[i], steps[i]) && states[i + 1] == Apply(states[i], steps[i])
  }

  // ---------- Invariants ----------

  /** What the consumer is doing with an object. */
  datatype Role = Apart | Tagged | NewChild | ArmingChild | Parent | Reader | ReadDone | WriteDone

  function RoleOf(place: Place, a: Addr): Role {
    match place
    case Starting => Apart
    case AtNext => Apart
    case Picked(b) => if a == b then Tagged else Apart
    case Made(c, parent) => if a == c then NewChild else if parent == Some(a) then Parent else Apart
    case Arming(c, parent) => if a == c then ArmingChild else if parent == Some(a) then Parent else Apart
    case BeforeRead(b) => if a == b then Reader else Apart
    case AfterRead(b) => if a == b then ReadDone else Apart
    case AfterWrite(b) => if a == b then WriteDone else Apart
  }

  /** Between two turns: not accepted yet, or waiting for a read, or for a write. */
  predicate BetweenTurns(c: Stream) {
    || (c.status == InitRead && c.readOps == c.writeOps == 0 && c.spawns == 0)
    || (c.status == Write && c.readOps == c.writeOps + 1 && c.spawns == 1)
    || (c.status == Read && c.readOps == c.writeOps && c.spawns == 1)
  }

  predicate StageFits(c: Stream, role: Role) {
    match role
    case Apart => BetweenTurns(c) && c.tag != NoTag
    case Tagged => BetweenTurns(c) && c.tag == NoTag
    case NewChild => c == NEW
    case ArmingChild => c == NEW.(status := InitRead)
    case Parent => c.status == InitRead && c.tag == NoTag && c.readOps == c.writeOps == 0 && c.spawns == 1
    case Reader =>
      (c.status == InitRead || c.status == Read) && c.tag == NoTag && c.readOps == c.writeOps && c.spawns == 1
    case ReadDone =>
      Issued(c.tag) && c.status != Finish && c.readOps == c.writeOps + 1 && c.spawns == 1
    case WriteDone =>
      Issued(c.tag) && c.status != Finish && c.readOps == c.writeOps && c.spawns == 1
  }

  ghost predicate Stages(s: State) {
    && (forall a <- s.live :: StageFits(s.live[a], RoleOf(s.place, a)))
    && (forall a :: RoleOf(s.place, a) != Apart ==> a in s.live)
    && (s.place.Made? || s.place.Arming? ==> s.place.parent != Some(s.place.child))
  }

  ghost predicate Tags(s: State) {
    && (forall a :: s.outstanding[a] == if a in s.live && s.live[a].tag == Runtime then 1 else 0)
    && (forall a, ok :: s.events[(a, ok)] == if a in s.live && s.live[a].tag == Queued(ok) then 1 else 0)
  }

  /** Objects that wait for a client, or whose request failed. */
  function Armed(s: State): set<Addr> {
    set a | a in s.live && s.live[a].status == InitRead && s.live[a].spawns == 0 && s.live[a].tag != NoTag
  }

  predicate Owes(s: State) {
    || s.place.Starting? || s.place.Made? || s.place.Arming?
    || (s.place.Picked? && IsLive(s, s.place.self, InitRead))
  }

  ghost predicate Arms(s: State) { |Armed(s)| + (if Owes(s) then 1 else 0) == 1 }

  ghost predicate Inv(s: State) { Stages(s) && Tags(s) && Arms(s) }

  // One lemma per step and part of the invariant.

  lemma CompleteKeepsStages(s: State, a: Addr, ok: bool)
    requires Stages(s) && Tags(s) && Enabled(s, Complete(a, ok))
    ensures Stages(Apply(s, Complete(a, ok)))
  {
  }

  lemma NextKeepsStages(s: State, a: Addr, ok: bool)
    requires Stages(s) && Tags(s) && Enabled(s, Next(a, ok))
    ensures Stages(Apply(s, Next(a, ok)))
  {
  }

  lemma FirstKeepsStages(s: State, addr: Addr)
    requires Stages(s) && Tags(s) && Enabled(s, First(addr))
    ensures Stages(Apply(s, First(addr)))
  {
  }

  lemma SpawnKeepsStages(s: State, addr: Addr)
    requires Stages(s) && Tags(s) && Enabled(s, Spawn(addr))
    ensures Stages(Apply(s, Spawn(addr)))
  {
  }

  lemma FallThroughKeepsStages(s: State)
    requires Stages(s) && Tags(s) && Enabled(s, FallThrough)
    ensures Stages(Apply(s, FallThrough))
  {
  }

  lemma SetInitReadKeepsStages(s: State)
    requires Stages(s) && Tags(s) && Enabled(s, SetInitRead)
    ensures Stages(Apply(s, SetInitRead))
  {
  }

  lemma RequestKeepsStages(s: State)
    requires Stages(s) && Tags(s) && Enabled(s, Request)
    ensures Stages(Apply(s, Request))
  {
  }

  lemma IssueReadKeepsStages(s: State)
    requires Stages(s) && Tags(s) && Enabled(s, IssueRead)
    ensures Stages(Apply(s, IssueRead))
  {
  }

  lemma SetWriteKeepsStages(s: State)
    requires Stages(s) && Tags(s) && Enabled(s, SetWrite)
    ensures Stages(Apply(s, SetWrite))
  {
  }

  lemma IssueWriteKeepsStages(s: State)
    requires Stages(s) && Tags(s) && Enabled(s, IssueWrite)
    ensures Stages(Apply(s, IssueWrite))
  {
  }

  lemma SetReadKeepsStages(s: State)
    requires Stages(s) && Tags(s) && Enabled(s, SetRead)
    ensures Stages(Apply(s, SetRead))
  {
  }

  lemma CompleteKeepsTags(s: State, a: Addr, ok: bool)
    requires Stages(s) && Tags(s) && Enabled(s, Complete(a, ok))
    ensures Tags(Apply(s, Complete(a, ok)))
  {
  }

  lemma NextKeepsTags(s: State, a: Addr, ok: bool)
    requires Stages(s) && Tags(s) && Enabled(s, Next(a, ok))
    ensures Tags(Apply(s, Next(a, ok)))
  {
  }

  lemma FirstKeepsTags(s: State, addr: Addr)
    requires Stages(s) && Tags(s) && Enabled(s, First(addr))
    ensures Tags(Apply(s, First(addr)))
  {
  }

  lemma SpawnKeepsTags(s: State, addr: Addr)
    requires Stages(s) && Tags(s) && Enabled(s, Spawn(addr))
    ensures Tags(Apply(s, Spawn(addr)))
  {
  }

  lemma FallThroughKeepsTags(s: State)
    requires Stages(s) && Tags(s) && Enabled(s, FallThrough)
    ensures Tags(Apply(s, FallThrough))
  {
  }

  lemma SetInitReadKeepsTags(s: State)
    requires Stages(s) && Tags(s) && Enabled(s, SetInitRead)
    ensures Tags(Apply(s, SetInitRead))
  {
  }

  lemma RequestKeepsTags(s: State)
    requires Stages(s) && Tags(s) && Enabled(s, Request)
    ensures Tags(Apply(s, Request))
  {
  }

  lemma IssueReadKeepsTags(s: State)
    requires Stages(s) && Tags(s) && Enabled(s, IssueRead)
    ensures Tags(Apply(s, IssueRead))
  {
  }

  lemma SetWriteKeepsTags(s: State)
    requires Stages(s) && Tags(s) && Enabled(s, SetWrite)
    ensures Tags(Apply(s, SetWrite))
  {
  }

  lemma IssueWriteKeepsTags(s: State)
    requires Stages(s) && Tags(s) && Enabled(s, IssueWrite)
    ensures Tags(Apply(s, IssueWrite))
  {
  }

  lemma SetReadKeepsTags(s: State)
    requires Stages(s) && Tags(s) && Enabled(s, SetRead)
    ensures Tags(Apply(s, SetRead))
  {
  }

  /** FINISH is never stored. */
  lemma NeverFinished(s: State, a: Addr)
    requires Stages(s) && a in s.live
    ensures s.live[a].status != Finish
  {
    assert StageFits(s.live[a], RoleOf(s.place, a));
  }

  lemma DeleteNeverHappens(s: State)
    requires Stages(s)
    ensures !Enabled(s, Delete)
  {
    if s.place.Picked? && s.place.self in s.live { NeverFinished(s, s.place.self); }
  }

  lemma StepKeepsTags(s: State, b: Step)
    requires Stages(s) && Tags(s) && Enabled(s, b)
    ensures Stages(Apply(s, b)) && Tags(Apply(s, b))
  {
    DeleteNeverHappens(s);
    match b
    case Complete(a, ok) => CompleteKeepsStages(s, a, ok); CompleteKeepsTags(s, a, ok);
    case Next(a, ok) => NextKeepsStages(s, a, ok); NextKeepsTags(s, a, ok);
    case First(addr) => FirstKeepsStages(s, addr); FirstKeepsTags(s, addr);
    case Spawn(addr) => SpawnKeepsStages(s, addr); SpawnKeepsTags(s, addr);
    case FallThrough => FallThroughKeepsStages(s); FallThroughKeepsTags(s);
    case SetInitRead => SetInitReadKeepsStages(s); SetInitReadKeepsTags(s);
    case Request => RequestKeepsStages(s); RequestKeepsTags(s);
    case IssueRead => IssueReadKeepsStages(s); IssueReadKeepsTags(s);
    case SetWrite => SetWriteKeepsStages(s); SetWriteKeepsTags(s);
    case IssueWrite => IssueWriteKeepsStages(s); IssueWriteKeepsTags(s);
    case SetRead => SetReadKeepsStages(s); SetReadKeepsTags(s);
  }

  // The armed object is accepted by Next and re-armed by Request; nothing else matters.

  lemma NextKeepsArms(s: State, a: Addr, ok: bool)
    requires Inv(s) && Enabled(s, Next(a, ok))
    ensures Arms(Apply(s, Next(a, ok)))
  {
    var s' := Apply(s, Next(a, ok));
    assert Armed(s') == if ok && IsLive(s, a, InitRead) then Armed(s) - {a} else Armed(s);
  }

  lemma RequestKeepsArms(s: State)
    requires Inv(s) && Enabled(s, Request)
    ensures Arms(Apply(s, Request))
  {
    assert Armed(Apply(s, Request)) == Armed(s) + {s.place.child};
  }

  lemma CompleteKeepsArms(s: State, a: Addr, ok: bool)
    requires Tags(s) && Arms(s) && Enabled(s, Complete(a, ok))
    ensures Arms(Apply(s, Complete(a, ok)))
  {
    assert Armed(Apply(s, Complete(a, ok))) == Armed(s);
  }

  lemma MakingKeepsArms(s: State, b: Step)
    requires Stages(s) && Arms(s) && Enabled(s, b) && (b.First? || b.Spawn?)
    ensures Arms(Apply(s, b))
  {
    assert Armed(Apply(s, b)) == Armed(s);
  }

  lemma TurnKeepsArms(s: State, b: Step)
    requires Inv(s) && Enabled(s, b) && (b.SetInitRead? || b.IssueRead? || b.IssueWrite?)
    ensures Arms(Apply(s, b))
  {
    assert Armed(Apply(s, b)) == Armed(s);
  }

  lemma MarkKeepsArms(s: State, b: Step)
    requires Inv(s) && Enabled(s, b) && (b.FallThrough? || b.SetWrite? || b.SetRead?)
    ensures Arms(Apply(s, b))
  {
    assert Armed(Apply(s, b)) == Armed(s);
  }

  lemma StepKeepsArms(s: State, b: Step)
    requires Inv(s) && Enabled(s, b)
    ensures Arms(Apply(s, b))
  {
    DeleteNeverHappens(s);
    match b
    case Next(a, ok) => NextKeepsArms(s, a, ok);
    case Request => RequestKeepsArms(s);
    case Complete(a, ok) => CompleteKeepsArms(s, a, ok);
    case First(_) => MakingKeepsArms(s, b);
    case Spawn(_) => MakingKeepsArms(s, b);
    case SetInitRead => TurnKeepsArms(s, b);
    case IssueRead => TurnKeepsArms(s, b);
    case IssueWrite => TurnKeepsArms(s, b);
    case FallThrough => MarkKeepsArms(s, b);
    case SetWrite => MarkKeepsArms(s, b);
    case SetRead => MarkKeepsArms(s, b);
  }

  lemma {:induction false} RunKeepsInv(states: seq<State>, steps: seq<Step>, k: nat)
    requires Run(states, steps) && k < |states|
    ensures Inv(states[k])
  {
    if k == 0 {
      assert Armed(states[0]) == {};
    } else {
      RunKeepsInv(states, steps, k - 1);
      StepKeepsTags(states[k - 1], steps[k - 1]);
      StepKeepsArms(states[k - 1], steps[k - 1]);
    }
  }

  // ---------- Main results ----------

  /** A stream has at most one operation outstanding or reported, reads and writes alternate
      starting with a read, and a stream that was read from has spawned one successor. */
  lemma Alternation(states: seq<State>, steps: seq<Step>, k: nat, a: Addr)
    requires Run(states, steps) && k < |states| && a in states[k].live
    ensures var s, c := states[k], states[k].live[a];
      && s.outstanding[a] + s.events[(a, true)] + s.events[(a, false)] <= 1
      && c.writeOps <= c.readOps <= c.writeOps + 1
      && c.spawns <= 1 && (c.readOps > 0 ==> c.spawns == 1)
  {
    RunKeepsInv(states, steps, k);
    var s := states[k];
    assert StageFits(s.live[a], RoleOf(s.place, a));
  }

  /** No operation or event ever names an address without an object, and the consumer only
      dereferences live objects. */
  lemma TagsAreLive(states: seq<State>, steps: seq<Step>, k: nat, a: Addr)
    requires Run(states, steps) && k < |states|
    requires var s := states[k];
      a in s.outstanding || (exists ok :: (a, ok) in s.events) || RoleOf(s.place, a) != Apart
    ensures a in states[k].live
  {
    RunKeepsInv(states, steps, k);
  }

  /** FINISH is stored nowhere, so its branch is never taken ... */
  lemma FinishIsNeverStored(states: seq<State>, steps: seq<Step>, k: nat)
    requires Run(states, steps) && k < |states|
    ensures forall a <- states[k].live :: states[k].live[a].status != Finish
    ensures k < |steps| ==> steps[k] != Delete
  {
    RunKeepsInv(states, steps, k);
    forall a | a in states[k].live ensures states[k].live[a].status != Finish { NeverFinished(states[k], a); }
    DeleteNeverHappens(states[k]);
  }

  /** ... and no stream object is ever freed. */
  lemma {:induction false} NothingIsFreed(states: seq<State>, steps: seq<Step>, i: nat, j: nat, a: Addr)
    requires Run(states, steps) && i <= j < |states| && a in states[i].live
    ensures a in states[j].live
    decreases j
  {
    if j > i {
      NothingIsFreed(states, steps, i, j - 1, a);
      FinishIsNeverStored(states, steps, j - 1);
      StepFreesNothing(states[j - 1], steps[j - 1], a);
    }
  }

  lemma StepFreesNothing(s: State, b: Step, a: Addr)
    requires Enabled(s, b) && b != Delete && a in s.live
    ensures a in Apply(s, b).live
  {
  }

  // ---------- Failed completions ----------

  /** The request of the object that listens has failed. */
  predicate Deaf(s: State) { exists a <- Armed(s) :: s.live[a].tag == Lost }

  /** The consumer takes the failed completion of a request. */
  predicate DropsRequest(s: State, b: Step) { b.Next? && !b.ok && b.a in Armed(s) }

  /** Nobody will act on an object whose completion failed. */
  predicate Abandoned(s: State, a: Addr) {
    && a in s.live && s.live[a].tag == Lost && RoleOf(s.place, a) == Apart
    && a !in s.outstanding && (a, true) !in s.events && (a, false) !in s.events
  }

  lemma LostIsAbandoned(s: State, a: Addr)
    requires Stages(s) && Tags(s) && a in s.live && s.live[a].tag == Lost
    ensures Abandoned(s, a)
  {
    assert StageFits(s.live[a], RoleOf(s.place, a));
    assert s.outstanding[a] == 0 && s.events[(a, true)] == 0 && s.events[(a, false)] == 0;
  }

  predicate Issues(b: Step) { b.Complete? || b.Request? || b.IssueRead? || b.IssueWrite? }

  lemma IssuingLeavesAbandoned(s: State, b: Step, a: Addr)
    requires Abandoned(s, a) && Enabled(s, b) && Issues(b)
    ensures a in Apply(s, b).live && Apply(s, b).live[a] == s.live[a]
  {
  }

  lemma MakingLeavesAbandoned(s: State, b: Step, a: Addr)
    requires Abandoned(s, a) && Enabled(s, b) && (b.First? || b.Spawn?)
    ensures a in Apply(s, b).live && Apply(s, b).live[a] == s.live[a]
  {
  }

  lemma OthersLeaveAbandoned(s: State, b: Step, a: Addr)
    requires Abandoned(s, a) && Enabled(s, b) && !Issues(b) && !b.First? && !b.Spawn?
    ensures a in Apply(s, b).live && Apply(s, b).live[a] == s.live[a]
  {
  }

  lemma AbandonedIsLeft(s: State, b: Step, a: Addr)
    requires Abandoned(s, a) && Enabled(s, b)
    ensures a in Apply(s, b).live && Apply(s, b).live[a] == s.live[a]
  {
    if Issues(b) {
      IssuingLeavesAbandoned(s, b, a);
    } else if b.First? || b.Spawn? {
      MakingLeavesAbandoned(s, b, a);
    } else {
      OthersLeaveAbandoned(s, b, a);
    }
  }

  lemma LostIsLeft(s: State, b: Step, a: Addr)
    requires Stages(s) && Tags(s) && Enabled(s, b) && a in s.live && s.live[a].tag == Lost
    ensures a in Apply(s, b).live && Apply(s, b).live[a] == s.live[a]
  {
    LostIsAbandoned(s, a);
    AbandonedIsLeft(s, b, a);
  }

  predicate IsLost(s: State, a: Addr) { a in s.live && s.live[a].tag == Lost }

  lemma IssuingLosesNothing(s: State, b: Step, a: Addr)
    requires Enabled(s, b) && Issues(b) && !IsLost(s, a)
    ensures !IsLost(Apply(s, b), a)
  {
  }

  lemma MakingLosesNothing(s: State, b: Step, a: Addr)
    requires Enabled(s, b) && (b.First? || b.Spawn?) && !IsLost(s, a)
    ensures !IsLost(Apply(s, b), a)
  {
  }

  lemma OthersLoseNothing(s: State, b: Step, a: Addr)
    requires Enabled(s, b) && !Issues(b) && !b.First? && !b.Spawn? && !b.Next? && !IsLost(s, a)
    ensures !IsLost(Apply(s, b), a)
  {
  }

  lemma NextLosesItsTag(s: State, b: Step, a: Addr)
    requires Enabled(s, b) && b.Next? && IsLost(Apply(s, b), a) && !IsLost(s, a)
    ensures b == Next(a, false) && a in s.live && Apply(s, b).live[a] == s.live[a].(tag := Lost)
  {
  }

  lemma NewlyLost(s: State, b: Step, a: Addr)
    requires Enabled(s, b) && IsLost(Apply(s, b), a) && !IsLost(s, a)
    ensures b == Next(a, false) && a in s.live && Apply(s, b).live[a] == s.live[a].(tag := Lost)
  {
    if b.Next? {
      NextLosesItsTag(s, b, a);
    } else if Issues(b) {
      IssuingLosesNothing(s, b, a);
    } else if b.First? || b.Spawn? {
      MakingLosesNothing(s, b, a);
    } else {
      OthersLoseNothing(s, b, a);
    }
  }

  lemma StepGoesDeaf(s: State, b: Step)
    requires Stages(s) && Tags(s) && Enabled(s, b)
    ensures Deaf(Apply(s, b)) <==> Deaf(s) || DropsRequest(s, b)
  {
    var s' := Apply(s, b);
    if a :| a in Armed(s') && s'.live[a].tag == Lost {
      if a in s.live && s.live[a].tag == Lost {
        LostIsLeft(s, b, a);
        assert a in Armed(s);
      } else {
        NewlyLost(s, b, a);
        assert s.live[a].tag == Queued(false);
        assert a in Armed(s);
      }
    }
    if a :| a in Armed(s) && s.live[a].tag == Lost {
      LostIsLeft(s, b, a);
      assert a in Armed(s');
    }
    if DropsRequest(s, b) {
      assert s.live[b.a].tag == Queued(false);
      assert b.a in Armed(s') && s'.live[b.a].tag == Lost;
    }
  }

  lemma RunStepGoesDeaf(states: seq<State>, steps: seq<Step>, k: nat)
    requires Run(states, steps) && k < |steps|
    ensures Deaf(states[k + 1]) <==> Deaf(states[k]) || DropsRequest(states[k], steps[k])
  {
    RunKeepsInv(states, steps, k);
    StepGoesDeaf(states[k], steps[k]);
  }

  /** The server is deaf iff the consumer has dropped the failed completion of a request. */
  lemma {:induction false} DeafIff(states: seq<State>, steps: seq<Step>, k: nat)
    requires Run(states, steps) && k < |states|
    ensures Deaf(states[k]) <==> exists i :: 0 <= i < k && DropsRequest(states[i], steps[i])
  {
    if k > 0 {
      DeafIff(states, steps, k - 1);
      RunStepGoesDeaf(states, steps, k - 1);
    }
  }

  /** One failure is enough: wherever the request of the listening object is outstanding. */
  lemma OneFailureDeafens(states: seq<State>, steps: seq<Step>, k: nat, a: Addr)
    requires Run(states, steps) && k < |states| && states[k].place.AtNext?
    requires a in Armed(states[k]) && a in states[k].outstanding
    ensures Enabled(states[k], Complete(a, false))
    ensures var t := Apply(states[k], Complete(a, false));
      Enabled(t, Next(a, false)) && Deaf(Apply(t, Next(a, false)))
  {
    RunKeepsInv(states, steps, k);
    var s := states[k];
    var t := Apply(s, Complete(a, false));
    CompleteKeepsStages(s, a, false);
    CompleteKeepsTags(s, a, false);
    assert a in Armed(t);
    StepGoesDeaf(t, Next(a, false));
  }

  /** A deaf server stays deaf and makes no object to listen, so it accepts no client ever again. */
  lemma DeafForGood(states: seq<State>, steps: seq<Step>, i: nat, k: nat)
    requires Run(states, steps) && i <= k < |states| && Deaf(states[i])
    ensures Deaf(states[k])
    ensures k < |steps| ==> !steps[k].First? && !steps[k].Spawn?
  {
    DeafIff(states, steps, i);
    DeafIff(states, steps, k);
    RunKeepsInv(states, steps, k);
    if k < |steps| { DeafMakesNoObject(states[k], steps[k]); }
  }

  lemma DeafMakesNoObject(s: State, b: Step)
    requires Arms(s) && Enabled(s, b) && Deaf(s)
    ensures !b.First? && !b.Spawn?
  {
    assert Armed(s) != {} && !Owes(s);
  }

  lemma RunStepLeavesLost(states: seq<State>, steps: seq<Step>, k: nat, a: Addr)
    requires Run(states, steps) && k < |steps| && IsLost(states[k], a)
    ensures a in states[k + 1].live && states[k + 1].live[a] == states[k].live[a]
  {
    RunKeepsInv(states, steps, k);
    LostIsLeft(states[k], steps[k], a);
  }

  /** An object is leaked, unchanged, once any of its completions has failed. */
  lemma {:induction false} LostIsLeaked(states: seq<State>, steps: seq<Step>, i: nat, j: nat, a: Addr)
    requires Run(states, steps) && i <= j < |states| && a in states[i].live && states[i].live[a].tag == Lost
    ensures a in states[j].live && states[j].live[a] == states[i].live[a]
    decreases j
  {
    if j > i {
      LostIsLeaked(states, steps, i, j - 1, a);
      RunStepLeavesLost(states, steps, j - 1, a);
    }
  }

  /** Whenever the consumer waits for an event, one object listens: its request is outstanding or
      reported, unless it has failed. */
  lemma OneObjectListens(states: seq<State>, steps: seq<Step>, k: nat) returns (a: Addr)
    requires Run(states, steps) && k < |states| && states[k].place.AtNext?
    ensures Armed(states[k]) == {a}
    ensures var s := states[k];
      s.outstanding[a] + s.events[(a, true)] + s.events[(a, false)] == if Deaf(s) then 0 else 1
  {
    RunKeepsInv(states, steps, k);
    a :| a in Armed(states[k]);
    Singleton(Armed(states[k]), a);
    assert Deaf(states[k]) <==> states[k].live[a].tag == Lost;
  }

  // ---------- One call of Proceed ----------

  datatype Operation = RequestStreamTransmit | ReadRequest | WriteReply

  /** " ok then" */
  const OK_THEN: seq<Byte> := [32, 111, 107, 32, 116, 104, 101, 110]

  class AsyncStreamTransmitImpl {
    var status: Status
    var reply: Message
    const cq: CompletionQueue<AsyncStreamTransmitImpl, Operation>

    constructor (cq: CompletionQueue<AsyncStreamTransmitImpl, Operation>)
      modifies cq
      ensures this.cq == cq && status == InitRead
      ensures cq.issued == old(cq.issued) + [(this, RequestStreamTransmit)]
      decreases 1
    {
      this.cq := cq;
      status, reply := Create, EMPTY;
      new;
      var child, deleted := Proceed();
    }

    /** INIT_READ makes a successor and falls through to READ; FINISH deletes the object. */
    method Proceed() returns (child: AsyncStreamTransmitImpl?, deleted: bool)
      modifies this, cq
      ensures old(status) == Create ==>
        child == null && status == InitRead && cq.issued == old(cq.issued) + [(this, RequestStreamTransmit)]
      ensures old(status) == InitRead ==>
        && child != null && fresh(child) && child.cq == cq && child.status == InitRead && status == Write
        && cq.issued == old(cq.issued) + [(child, RequestStreamTransmit), (this, ReadRequest)]
      ensures old(status) == Read ==>
        child == null && status == Write && cq.issued == old(cq.issued) + [(this, ReadRequest)]
      ensures old(status) == Write ==>
        child == null && status == Read && cq.issued == old(cq.issued) + [(this, WriteReply)]
      ensures reply == if old(status) == Write then old(reply).(buffer := [32, 111, 107, 32, 116, 104, 101, 110])
                       else old(reply)
      ensures deleted <==> old(status) == Finish
      ensures deleted ==> child == null && status == Finish && cq.issued == old(cq.issued)
      decreases if status == InitRead then 2 else 0
    {
      child, deleted := null, false;
      if status == Create {
        status := InitRead;
        cq.Issue(this, RequestStreamTransmit);
      } else if status == Finish {
        deleted := true;
      } else if status == Write {
        reply := reply.(buffer := OK_THEN);
        cq.Issue(this, WriteReply);
        status := Read;
      } else {
        if status == InitRead { child := new AsyncStreamTransmitImpl(cq); }
        cq.Issue(this, ReadRequest);
        status := Write;
      }
    }
  }
}
