/** ServerImpl of server_async.cpp: self-spawning, self-deleting call objects driven by the
    tags of one completion queue, with any number of threads inside HandleRpcs.  A step is one
    access of a thread to shared state.  gRPC is assumed to complete every operation it was
    given once and with success; the order is its own. */
module CallServer {
  import opened Wrappers
  import Completion

  type Addr = Completion.Addr
  type Poller = nat

  datatype Status = Create | Process | Finish

  /** Who will act next on a call: gRPC, an event in the completion queue, or a poller.  This
      is bookkeeping of the model, tied to the actual state by `Tags` and `Hands` below. */
  datatype Owner = Runtime | Queued | Held(p: Poller, role: Role)

  /** What the holding poller is doing with the call. */
  datatype Role = Tag | NewChild | ArmingChild | Parent | Answered

  /** `serial` tells apart calls that reuse an address; `spawns` and `finishes` count the
      successors the call made and its calls of Finish. */
  datatype Call = Call(serial: nat, status: Status, owner: Owner, spawns: nat, finishes: nat)

  datatype Place =
    | Starting                                  // HandleRpcs, before its first new CallData
    | AtNext
    | Picked(self: Addr)                        // Next returned this tag
    | Made(child: Addr, parent: Option<Addr>)   // in the constructor, status_ is CREATE
    | Arming(child: Addr, parent: Option<Addr>) // before RequestSayHello
    | Replying(self: Addr)                      // reply filled, before status_ = FINISH
    | Finishing(self: Addr)                     // before responder_.Finish

  datatype State = State(
    live: map<Addr, Call>,
    freed: map<nat, Call>,         // deleted calls, by serial number
    homes: seq<Addr>,              // the address of each object made so far
    outstanding: multiset<Addr>,   // operations given to gRPC
    events: multiset<Addr>,        // tags in the completion queue
    pollers: map<Poller, Place>)

  datatype PollerStep =
    | First(addr: Addr)            // HandleRpcs: new CallData
    | Next(tag: Addr)
    | Spawn(addr: Addr)            // PROCESS branch: new CallData, at an address not in use
    | SetProcess
    | Request
    | SetFinish
    | CallFinish
    | Delete

  datatype Step = Complete(tag: Addr) | Poll(p: Poller, b: PollerStep)

  predicate IsLive(s: State, a: Addr, status: Status) { a in s.live && s.live[a].status == status }

  /** The branch of the code the poller has reached; it dereferences its tag. */
  predicate PollGuard(s: State, p: Poller, b: PollerStep) {
    && p in s.pollers
    && var place := s.pollers[p];
       match b
       case First(addr) => place.Starting? && addr !in s.live
       case Next(tag) => place.AtNext? && tag in s.events
       case Spawn(addr) => place.Picked? && IsLive(s, place.self, Process) && addr !in s.live
       case SetProcess => place.Made? && place.child in s.live
       case Request => place.Arming? && place.child in s.live
       case SetFinish => place.Replying? && place.self in s.live
       case CallFinish => place.Finishing? && place.self in s.live
       case Delete => place.Picked? && IsLive(s, place.self, Finish)
  }

  predicate Enabled(s: State, a: Step) {
    match a
    case Complete(tag) => tag in s.outstanding
    case Poll(p, b) => PollGuard(s, p, b)
  }

  function Go(s: State, p: Poller, place: Place): State { s.(pollers := s.pollers[p := place]) }

  function Set(s: State, a: Addr, c: Call): State { s.(live := s.live[a := c]) }

  function GiveTo(s: State, a: Addr, o: Owner): State {
    if a in s.live then Set(s, a, s.live[a].(owner := o)) else s
  }

  /** Construct a call object. */
  function Make(s: State, p: Poller, addr: Addr): State {
    Set(s, addr, Call(|s.homes|, Create, Held(p, NewChild), 0, 0)).(homes := s.homes + [addr])
  }

  function PollerUpdate(s: State, p: Poller, b: PollerStep): State
    requires PollGuard(s, p, b)
  {
    var place := s.pollers[p];
    match b
    case First(addr) => Go(Make(s, p, addr), p, Made(addr, None))
    case Next(tag) => Go(GiveTo(s, tag, Held(p, Tag)), p, Picked(tag)).(events := s.events - multiset{tag})
    case Spawn(addr) =>
      var c := s.live[place.self];
      var parent := c.(spawns := c.spawns + 1, owner := Held(p, Parent));
      Go(Make(Set(s, place.self, parent), p, addr), p, Made(addr, Some(place.self)))
    case SetProcess =>
      var c := s.live[place.child];
      Go(Set(s, place.child, c.(status := Process, owner := Held(p, ArmingChild))), p,
         Arming(place.child, place.parent))
    case Request =>
      Go(GiveTo(s, place.child, Runtime), p, if place.parent.Some? then Replying(place.parent.value) else AtNext)
        .(outstanding := s.outstanding + multiset{place.child})
    case SetFinish =>
      var c := s.live[place.self];
      Go(Set(s, place.self, c.(status := Finish, owner := Held(p, Answered))), p, Finishing(place.self))
    case CallFinish =>
      var c := s.live[place.self];
      Go(Set(s, place.self, c.(finishes := c.finishes + 1, owner := Runtime)), p, AtNext)
        .(outstanding := s.outstanding + multiset{place.self})
    case Delete =>
      var c := s.live[place.self];
      Go(s, p, AtNext).(live := s.live - {place.self}, freed := s.freed[c.serial := c])
  }

  function Apply(s: State, a: Step): State
    requires Enabled(s, a)
  {
    match a
    case Complete(tag) =>
      GiveTo(s, tag, Queued).(outstanding := s.outstanding - multiset{tag}, events := s.events + multiset{tag})
    case Poll(p, b) => PollerUpdate(s, p, b)
  }

  predicate Init(s: State) {
    && s.live == map[] && s.freed == map[] && s.homes == []
    && s.outstanding == s.events == multiset{}
    && forall p <- s.pollers :: s.pollers[p] == Starting
  }

  ghost predicate Run(states: seq<State>, steps: seq<Step>) {
    && |states| == |steps| + 1
    && Init(states[0])
    && forall i :: 0 <= i < |steps| ==> Enabled(states[i], steps[i]) && states[i + 1] == Apply(states[i], steps[i])
  }

  // ---------- Invariants ----------

  /** The operations and events are those the owners record. */
  ghost predicate Tags(s: State) {
    && (forall a :: s.outstanding[a] == if a in s.live && s.live[a].owner == Runtime then 1 else 0)
    && (forall a :: s.events[a] == if a in s.live && s.live[a].owner == Queued then 1 else 0)
  }

  predicate Stage(c: Call, status: Status, spawns: nat, finishes: nat) {
    c.status == status && c.spawns == spawns && c.finishes == finishes
  }

  /** An operation or event belongs to an untouched request, or to a finished call. */
  predicate Waiting(c: Call) { Stage(c, Process, 0, 0) || Stage(c, Finish, 1, 1) }

  predicate StageFits(c: Call) {
    if !c.owner.Held? then Waiting(c)
    else match c.owner.role
      case Tag => Waiting(c)
      case NewChild => Stage(c, Create, 0, 0)
      case ArmingChild => Stage(c, Process, 0, 0)
      case Parent => Stage(c, Process, 1, 0)
      case Answered => Stage(c, Finish, 1, 0)
  }

  ghost predicate Stages(s: State) {
    && (forall a <- s.live :: StageFits(s.live[a]))
    && (forall n <- s.freed :: Stage(s.freed[n], Finish, 1, 1))
  }

  predicate Mine(s: State, p: Poller, a: Addr, role: Role) { a in s.live && s.live[a].owner == Held(p, role) }

  /** What a poller's place says it holds. */
  predicate Holds(place: Place, a: Addr, role: Role) {
    match place
    case Starting => false
    case AtNext => false
    case Picked(b) => a == b && role == Tag
    case Made(c, parent) => (a == c && role == NewChild) || (parent == Some(a) && role == Parent)
    case Arming(c, parent) => (a == c && role == ArmingChild) || (parent == Some(a) && role == Parent)
    case Replying(b) => a == b && role == Parent
    case Finishing(b) => a == b && role == Answered
  }

  /** Pollers hold exactly the calls whose owner says so. */
  ghost predicate Hands(s: State) {
    && (forall a <- s.live :: s.live[a].owner.Held? ==>
         s.live[a].owner.p in s.pollers && Holds(s.pollers[s.live[a].owner.p], a, s.live[a].owner.role))
    && (forall p, a, role :: p in s.pollers && Holds(s.pollers[p], a, role) ==> Mine(s, p, a, role))
  }

  /** Every object ever made is either live at its own address, or was deleted. */
  ghost predicate Serials(s: State) {
    && (forall a <- s.live :: s.live[a].serial < |s.homes| && s.homes[s.live[a].serial] == a)
    && (forall a <- s.live :: s.live[a].serial !in s.freed)
    && (forall n <- s.freed :: n < |s.homes|)
    && (forall n: nat :: n < |s.homes| && n !in s.freed ==>
         s.homes[n] in s.live && s.live[s.homes[n]].serial == n)
  }

  /** Calls waiting for a client. */
  function Armed(s: State): set<Addr> {
    set a | a in s.live && s.live[a].status == Process && !s.live[a].owner.Held?
  }

  predicate Owes(s: State, place: Place) {
    || place.Starting? || place.Made? || place.Arming?
    || (place.Picked? && IsLive(s, place.self, Process))
  }

  /** Pollers that have taken a request, or started, and not armed its successor yet. */
  function Rearming(s: State): set<Poller> { set p | p in s.pollers && Owes(s, s.pollers[p]) }

  ghost predicate Arms(s: State) { |Armed(s)| + |Rearming(s)| == |s.pollers| }

  ghost predicate Inv(s: State) { Tags(s) && Stages(s) && Hands(s) && Serials(s) && Arms(s) }

  predicate ParentFits(s: State, p: Poller, parent: Option<Addr>) {
    parent.Some? ==> Mine(s, p, parent.value, Parent)
  }

  /** A poller holds what its place says, in the role its place says. */
  predicate PlaceFits(s: State, p: Poller) {
    && p in s.pollers
    && match s.pollers[p]
       case Starting => true
       case AtNext => true
       case Picked(a) => Mine(s, p, a, Tag)
       case Made(c, parent) => Mine(s, p, c, NewChild) && ParentFits(s, p, parent)
       case Arming(c, parent) => Mine(s, p, c, ArmingChild) && ParentFits(s, p, parent)
       case Replying(a) => Mine(s, p, a, Parent)
       case Finishing(a) => Mine(s, p, a, Answered)
  }

  lemma HandsFit(s: State, p: Poller)
    requires Hands(s) && p in s.pollers
    ensures PlaceFits(s, p)
  {
    var place := s.pollers[p];
    assert forall a, role :: Holds(place, a, role) ==> Mine(s, p, a, role);
    match place
    case Starting =>
    case AtNext =>
    case Picked(a) => assert Holds(place, a, Tag);
    case Made(c, parent) =>
      assert Holds(place, c, NewChild);
      if parent.Some? { assert Holds(place, parent.value, Parent); }
    case Arming(c, parent) =>
      assert Holds(place, c, ArmingChild);
      if parent.Some? { assert Holds(place, parent.value, Parent); }
    case Replying(a) => assert Holds(place, a, Parent);
    case Finishing(a) => assert Holds(place, a, Answered);
  }

  // One lemma per step and part of the invariant.

  lemma FirstKeepsTags(s: State, p: Poller, addr: Addr)
    requires Tags(s) && Stages(s) && PlaceFits(s, p) && PollGuard(s, p, First(addr))
    ensures Tags(PollerUpdate(s, p, First(addr))) && Stages(PollerUpdate(s, p, First(addr)))
  {
  }

  lemma NextKeepsTags(s: State, p: Poller, tag: Addr)
    requires Tags(s) && Stages(s) && PlaceFits(s, p) && PollGuard(s, p, Next(tag))
    ensures Tags(PollerUpdate(s, p, Next(tag))) && Stages(PollerUpdate(s, p, Next(tag)))
  {
  }

  lemma SpawnKeepsTags(s: State, p: Poller, addr: Addr)
    requires Tags(s) && Stages(s) && PlaceFits(s, p) && PollGuard(s, p, Spawn(addr))
    ensures Tags(PollerUpdate(s, p, Spawn(addr)))
  {
  }

  lemma SpawnKeepsStages(s: State, p: Poller, addr: Addr)
    requires Stages(s) && PlaceFits(s, p) && PollGuard(s, p, Spawn(addr))
    ensures Stages(PollerUpdate(s, p, Spawn(addr)))
  {
  }

  lemma SetProcessKeepsTags(s: State, p: Poller)
    requires Tags(s) && Stages(s) && PlaceFits(s, p) && PollGuard(s, p, SetProcess)
    ensures Tags(PollerUpdate(s, p, SetProcess)) && Stages(PollerUpdate(s, p, SetProcess))
  {
  }

  lemma RequestKeepsTags(s: State, p: Poller)
    requires Tags(s) && Stages(s) && PlaceFits(s, p) && PollGuard(s, p, Request)
    ensures Tags(PollerUpdate(s, p, Request)) && Stages(PollerUpdate(s, p, Request))
  {
  }

  lemma SetFinishKeepsTags(s: State, p: Poller)
    requires Tags(s) && Stages(s) && PlaceFits(s, p) && PollGuard(s, p, SetFinish)
    ensures Tags(PollerUpdate(s, p, SetFinish)) && Stages(PollerUpdate(s, p, SetFinish))
  {
  }

  lemma CallFinishKeepsTags(s: State, p: Poller)
    requires Tags(s) && Stages(s) && PlaceFits(s, p) && PollGuard(s, p, CallFinish)
    ensures Tags(PollerUpdate(s, p, CallFinish)) && Stages(PollerUpdate(s, p, CallFinish))
  {
  }

  lemma DeleteKeepsTags(s: State, p: Poller)
    requires Tags(s) && Stages(s) && PlaceFits(s, p) && PollGuard(s, p, Delete)
    ensures Tags(PollerUpdate(s, p, Delete)) && Stages(PollerUpdate(s, p, Delete))
  {
  }

  lemma FirstKeepsHands(s: State, p: Poller, addr: Addr)
    requires Tags(s) && Hands(s) && PlaceFits(s, p) && PollGuard(s, p, First(addr))
    ensures Hands(PollerUpdate(s, p, First(addr)))
  {
  }

  lemma NextKeepsHands(s: State, p: Poller, tag: Addr)
    requires Tags(s) && Hands(s) && PlaceFits(s, p) && PollGuard(s, p, Next(tag))
    ensures Hands(PollerUpdate(s, p, Next(tag)))
  {
  }

  lemma SpawnKeepsHands(s: State, p: Poller, addr: Addr)
    requires Tags(s) && Hands(s) && PlaceFits(s, p) && PollGuard(s, p, Spawn(addr))
    ensures Hands(PollerUpdate(s, p, Spawn(addr)))
  {
  }

  lemma SetProcessKeepsHands(s: State, p: Poller)
    requires Tags(s) && Hands(s) && PlaceFits(s, p) && PollGuard(s, p, SetProcess)
    ensures Hands(PollerUpdate(s, p, SetProcess))
  {
  }

  lemma RequestKeepsHands(s: State, p: Poller)
    requires Tags(s) && Hands(s) && PlaceFits(s, p) && PollGuard(s, p, Request)
    ensures Hands(PollerUpdate(s, p, Request))
  {
  }

  lemma SetFinishKeepsHands(s: State, p: Poller)
    requires Tags(s) && Hands(s) && PlaceFits(s, p) && PollGuard(s, p, SetFinish)
    ensures Hands(PollerUpdate(s, p, SetFinish))
  {
  }

  lemma CallFinishKeepsHands(s: State, p: Poller)
    requires Tags(s) && Hands(s) && PlaceFits(s, p) && PollGuard(s, p, CallFinish)
    ensures Hands(PollerUpdate(s, p, CallFinish))
  {
  }

  lemma DeleteKeepsHands(s: State, p: Poller)
    requires Tags(s) && Hands(s) && PlaceFits(s, p) && PollGuard(s, p, Delete)
    ensures Hands(PollerUpdate(s, p, Delete))
  {
  }

  lemma MakingKeepsSerials(s: State, p: Poller, b: PollerStep)
    requires Serials(s) && PollGuard(s, p, b) && (b.First? || b.Spawn?)
    ensures Serials(PollerUpdate(s, p, b))
  {
  }

  lemma DeleteKeepsSerials(s: State, p: Poller)
    requires Serials(s) && PollGuard(s, p, Delete)
    ensures Serials(PollerUpdate(s, p, Delete))
  {
  }

  lemma OtherKeepsSerials(s: State, p: Poller, b: PollerStep)
    requires Serials(s) && PollGuard(s, p, b) && !b.First? && !b.Spawn? && !b.Delete?
    ensures Serials(PollerUpdate(s, p, b))
  {
    var s' := PollerUpdate(s, p, b);
    assert forall a <- s.live :: a in s'.live && s'.live[a].serial == s.live[a].serial;
    SameSerials(s, s');
  }

  lemma SameSerials(s: State, s': State)
    requires Serials(s) && s'.homes == s.homes && s'.freed == s.freed && s'.live.Keys == s.live.Keys
    requires forall a <- s.live :: s'.live[a].serial == s.live[a].serial
    ensures Serials(s')
  {
  }

  lemma CompleteKeepsTags(s: State, tag: Addr)
    requires Tags(s) && Stages(s) && Enabled(s, Complete(tag))
    ensures Tags(Apply(s, Complete(tag))) && Stages(Apply(s, Complete(tag)))
  {
  }

  lemma CompleteKeepsHands(s: State, tag: Addr)
    requires Tags(s) && Hands(s) && Enabled(s, Complete(tag))
    ensures Hands(Apply(s, Complete(tag)))
  {
  }

  /** A step of `p` leaves the calls of other pollers alone, so whether they owe a successor
      does not change. */
  lemma OthersOweTheSame(s: State, s': State, p: Poller, place: Place)
    requires Hands(s) && p in s.pollers && s'.pollers == s.pollers[p := place]
    requires forall a <- s.live :: s.live[a].owner.Held? && s.live[a].owner.p != p ==>
               a in s'.live && s'.live[a] == s.live[a]
    ensures Rearming(s') == if Owes(s', place) then Rearming(s) + {p} else Rearming(s) - {p}
  {
    forall q | q in s.pollers && q != p ensures Owes(s', s.pollers[q]) == Owes(s, s.pollers[q]) {
      HandsFit(s, q);
    }
  }

  lemma NextDisarms(s: State, p: Poller, tag: Addr)
    requires Tags(s) && PollGuard(s, p, Next(tag))
    ensures Armed(PollerUpdate(s, p, Next(tag))) == Armed(s) - {tag}
    ensures tag in Armed(s) <==> IsLive(s, tag, Process)
  {
  }

  lemma NextKeepsArms(s: State, p: Poller, tag: Addr)
    requires Hands(s) && Tags(s) && PollGuard(s, p, Next(tag)) && Arms(s)
    ensures Arms(PollerUpdate(s, p, Next(tag)))
  {
    var s' := PollerUpdate(s, p, Next(tag));
    NextDisarms(s, p, tag);
    OthersOweTheSame(s, s', p, Picked(tag));
    assert p !in Rearming(s);
  }

  lemma RequestArmsChild(s: State, p: Poller)
    requires Stages(s) && PlaceFits(s, p) && PollGuard(s, p, Request)
    ensures Armed(PollerUpdate(s, p, Request)) == Armed(s) + {s.pollers[p].child}
    ensures s.pollers[p].child !in Armed(s)
  {
  }

  lemma RequestKeepsArms(s: State, p: Poller)
    requires Hands(s) && Stages(s) && PlaceFits(s, p) && PollGuard(s, p, Request) && Arms(s)
    ensures Arms(PollerUpdate(s, p, Request))
  {
    var s' := PollerUpdate(s, p, Request);
    RequestArmsChild(s, p);
    OthersOweTheSame(s, s', p, s'.pollers[p]);
    assert p in Rearming(s);
  }

  lemma SameArms(s: State, s': State, p: Poller, place: Place)
    requires Hands(s) && Arms(s) && p in s.pollers && s'.pollers == s.pollers[p := place]
    requires forall a <- s.live :: s.live[a].owner.Held? && s.live[a].owner.p != p ==>
               a in s'.live && s'.live[a] == s.live[a]
    requires Owes(s, s.pollers[p]) == Owes(s', place) && Armed(s') == Armed(s)
    ensures Arms(s')
  {
    OthersOweTheSame(s, s', p, place);
    assert Rearming(s') == Rearming(s);
  }

  lemma MakingKeepsArms(s: State, p: Poller, b: PollerStep)
    requires Hands(s) && PlaceFits(s, p) && PollGuard(s, p, b) && Arms(s) && (b.First? || b.Spawn?)
    ensures Arms(PollerUpdate(s, p, b))
  {
    var s' := PollerUpdate(s, p, b);
    assert Armed(s') == Armed(s);
    SameArms(s, s', p, s'.pollers[p]);
  }

  lemma SetKeepsArms(s: State, p: Poller, b: PollerStep)
    requires Hands(s) && PlaceFits(s, p) && PollGuard(s, p, b) && Arms(s) && (b.SetProcess? || b.SetFinish?)
    ensures Arms(PollerUpdate(s, p, b))
  {
    var s' := PollerUpdate(s, p, b);
    assert Armed(s') == Armed(s);
    SameArms(s, s', p, s'.pollers[p]);
  }

  lemma LeavingKeepsArms(s: State, p: Poller, b: PollerStep)
    requires Hands(s) && Stages(s) && PlaceFits(s, p) && PollGuard(s, p, b) && Arms(s) && (b.CallFinish? || b.Delete?)
    ensures Arms(PollerUpdate(s, p, b))
  {
    var s' := PollerUpdate(s, p, b);
    assert Armed(s') == Armed(s);
    SameArms(s, s', p, s'.pollers[p]);
  }

  lemma PollKeepsInv(s: State, p: Poller, b: PollerStep)
    requires Inv(s) && PollGuard(s, p, b)
    ensures Inv(PollerUpdate(s, p, b))
  {
    HandsFit(s, p);
    match b
    case First(x) =>
      FirstKeepsTags(s, p, x); FirstKeepsHands(s, p, x); MakingKeepsSerials(s, p, b); MakingKeepsArms(s, p, b);
    case Next(x) =>
      NextKeepsTags(s, p, x); NextKeepsHands(s, p, x); OtherKeepsSerials(s, p, b); NextKeepsArms(s, p, x);
    case Spawn(x) =>
      SpawnKeepsTags(s, p, x); SpawnKeepsStages(s, p, x); SpawnKeepsHands(s, p, x);
      MakingKeepsSerials(s, p, b); MakingKeepsArms(s, p, b);
    case SetProcess =>
      SetProcessKeepsTags(s, p); SetProcessKeepsHands(s, p); OtherKeepsSerials(s, p, b); SetKeepsArms(s, p, b);
    case Request =>
      RequestKeepsTags(s, p); RequestKeepsHands(s, p); OtherKeepsSerials(s, p, b); RequestKeepsArms(s, p);
    case SetFinish =>
      SetFinishKeepsTags(s, p); SetFinishKeepsHands(s, p); OtherKeepsSerials(s, p, b); SetKeepsArms(s, p, b);
    case CallFinish =>
      CallFinishKeepsTags(s, p); CallFinishKeepsHands(s, p); OtherKeepsSerials(s, p, b); LeavingKeepsArms(s, p, b);
    case Delete =>
      DeleteKeepsTags(s, p); DeleteKeepsHands(s, p); DeleteKeepsSerials(s, p); LeavingKeepsArms(s, p, b);
  }

  lemma CompleteKeepsArms(s: State, tag: Addr)
    requires Tags(s) && Hands(s) && Arms(s) && Enabled(s, Complete(tag))
    ensures Arms(Apply(s, Complete(tag)))
  {
    var s' := Apply(s, Complete(tag));
    assert Armed(s') == Armed(s);
    forall q | q in s.pollers ensures Owes(s', s.pollers[q]) == Owes(s, s.pollers[q]) { HandsFit(s, q); }
    assert Rearming(s') == Rearming(s);
  }

  lemma {:induction false} RunKeepsInv(states: seq<State>, steps: seq<Step>, k: nat)
    requires Run(states, steps) && k < |states|
    ensures Inv(states[k])
  {
    if k == 0 {
      InitInv(states[0]);
    } else {
      RunKeepsInv(states, steps, k - 1);
      StepKeepsInv(states[k - 1], steps[k - 1]);
    }
  }

  lemma CompleteKeepsSerials(s: State, tag: Addr)
    requires Serials(s) && Enabled(s, Complete(tag))
    ensures Serials(Apply(s, Complete(tag)))
  {
    SameSerials(s, Apply(s, Complete(tag)));
  }

  lemma CompleteKeepsInv(s: State, tag: Addr)
    requires Inv(s) && Enabled(s, Complete(tag))
    ensures Inv(Apply(s, Complete(tag)))
  {
    CompleteKeepsTags(s, tag);
    CompleteKeepsHands(s, tag);
    CompleteKeepsArms(s, tag);
    CompleteKeepsSerials(s, tag);
  }

  lemma StepKeepsInv(s: State, a: Step)
    requires Inv(s) && Enabled(s, a)
    ensures Inv(Apply(s, a))
  {
    match a
    case Complete(tag) => CompleteKeepsInv(s, tag);
    case Poll(p, b) => PollKeepsInv(s, p, b);
  }

  lemma InitInv(s: State)
    requires Init(s)
    ensures Inv(s)
  {
    assert Rearming(s) == s.pollers.Keys && Armed(s) == {};
  }

  // ---------- Main results ----------

  predicate Mentions(place: Place, a: Addr) {
    || Holds(place, a, Tag) || Holds(place, a, NewChild) || Holds(place, a, ArmingChild)
    || Holds(place, a, Parent) || Holds(place, a, Answered)
  }

  function Holders(s: State, a: Addr): set<Poller> { set p | p in s.pollers && Mentions(s.pollers[p], a) }

  /** Every live object has exactly one of: an operation at gRPC, an event in the queue, a
      poller that can reach it.  A freed or unused address has none. */
  lemma ExactlyOneOwner(states: seq<State>, steps: seq<Step>, k: nat, a: Addr)
    requires Run(states, steps) && k < |states|
    ensures var s := states[k];
      s.outstanding[a] + s.events[a] + |Holders(s, a)| == if a in s.live then 1 else 0
  {
    RunKeepsInv(states, steps, k);
    var s := states[k];
    forall p | p in s.pollers && Mentions(s.pollers[p], a)
      ensures a in s.live && s.live[a].owner.Held? && s.live[a].owner.p == p
    {
      HandsFit(s, p);
    }
    if a in s.live && s.live[a].owner.Held? {
      var p := s.live[a].owner.p;
      assert Holds(s.pollers[p], a, s.live[a].owner.role);
      assert Holders(s, a) == {p};
    } else {
      assert Holders(s, a) == {};
    }
  }

  /** An event is taken only for a live object whose status is PROCESS or FINISH, so the
      assertion of the last branch holds and CREATE is never re-entered. */
  lemma EventsNameLiveCalls(states: seq<State>, steps: seq<Step>, k: nat, p: Poller)
    requires Run(states, steps) && k < |states|
    requires p in states[k].pollers && states[k].pollers[p].Picked?
    ensures var a := states[k].pollers[p].self;
      IsLive(states[k], a, Process) || IsLive(states[k], a, Finish)
  {
    RunKeepsInv(states, steps, k);
    HandsFit(states[k], p);
  }

  /** The object made n-th is either live or deleted.  Deleted calls had spawned one successor
      and called Finish once; a live call has done each at most once, Finish last. */
  lemma OneFinishPerCall(states: seq<State>, steps: seq<Step>, k: nat, n: nat)
    requires Run(states, steps) && k < |states| && n < |states[k].homes|
    ensures var s := states[k];
      && (n in s.freed ==> Stage(s.freed[n], Finish, 1, 1))
      && (n !in s.freed ==> s.homes[n] in s.live && s.live[s.homes[n]].serial == n)
      && (n !in s.freed ==> var c := s.live[s.homes[n]];
            c.finishes <= c.spawns <= 1 && (c.finishes == 1 ==> c.status == Finish))
  {
    RunKeepsInv(states, steps, k);
    var s := states[k];
    if n !in s.freed { assert StageFits(s.live[s.homes[n]]); }
  }

  /** Armed calls and pollers that owe one add up to the number of pollers, so whenever all of
      them wait in Next, as many calls wait for clients as HandleRpcs started. */
  lemma ArmsAreConserved(states: seq<State>, steps: seq<Step>, k: nat)
    requires Run(states, steps) && k < |states|
    ensures |Armed(states[k])| + |Rearming(states[k])| == |states[k].pollers|
    ensures (forall p <- states[k].pollers :: states[k].pollers[p] == AtNext) ==>
              |Armed(states[k])| == |states[k].pollers|
  {
    RunKeepsInv(states, steps, k);
    if forall p <- states[k].pollers :: states[k].pollers[p] == AtNext {
      assert Rearming(states[k]) == {};
    }
  }

  // ---------- One call of Proceed ----------

  datatype Operation = RequestSayHello | FinishReply

  class CallData {
    var status: Status
    var name: string      // of the request
    var reply: string     // the message of the reply
    const cq: Completion.CompletionQueue<CallData, Operation>

    constructor (cq: Completion.CompletionQueue<CallData, Operation>)
      modifies cq
      ensures this.cq == cq && status == Process
      ensures cq.issued == old(cq.issued) + [(this, RequestSayHello)]
      decreases 1
    {
      this.cq := cq;
      status, name, reply := Create, "", "";
      new;
      var child, deleted := Proceed();
    }

    /** `child` is the object made, if any; `deleted` says that the object frees itself. */
    method Proceed() returns (child: CallData?, deleted: bool)
      modifies this, cq
      ensures old(status) == Create ==>
        child == null && status == Process && cq.issued == old(cq.issued) + [(this, RequestSayHello)]
      ensures old(status) == Process ==>
        && child != null && fresh(child) && child.cq == cq && child.status == Process && status == Finish
        && cq.issued == old(cq.issued) + [(child, RequestSayHello), (this, FinishReply)]
      ensures old(status) == Finish ==> child == null && status == Finish && cq.issued == old(cq.issued)
      ensures deleted <==> old(status) == Finish
      ensures reply == if old(status) == Process then "Hello " + name else old(reply)
      ensures name == old(name)
      decreases if status == Process then 2 else 0
    {
      child, deleted := null, false;
      if status == Create {
        status := Process;
        cq.Issue(this, RequestSayHello);
      } else if status == Process {
        child := new CallData(cq);
        reply := "Hello " + name;
        status := Finish;
        cq.Issue(this, FinishReply);
      } else {
        deleted := true;
      }
    }

    /** The object is the one at address a. */
    ghost predicate Shows(s: State, a: Addr)
      reads this
    {
      a in s.live && s.live[a].status == status
    }

    /** One turn of a poller's loop with this tag: what Proceed does to the object, to the one it
        makes and to gRPC is what the poller's steps do, taken without interruption. */
    method Handle(ghost s: State, ghost p: Poller, ghost self: Addr, ghost addr: Addr)
      returns (child: CallData?, deleted: bool, ghost t: State)
      requires p in s.pollers && s.pollers[p] == Picked(self) && Shows(s, self) && status != Create
      requires addr !in s.live
      modifies this, cq
      ensures Alone(s, p, if old(status) == Process then ServeSteps(addr) else [Delete], t)
      ensures t.pollers == s.pollers[p := AtNext]
      ensures deleted <==> old(status) == Finish
      ensures deleted ==>
        && child == null && t.live == s.live - {self}
        && cq.issued == old(cq.issued) && t.outstanding == s.outstanding
      ensures !deleted ==>
        && child != null && fresh(child) && child.Shows(t, addr) && Shows(t, self)
        && cq.issued == old(cq.issued) + [(child, RequestSayHello), (this, FinishReply)]
        && t.outstanding == s.outstanding + multiset{addr} + multiset{self}
    {
      if status == Process {
        t := ServedAlone(s, p, self, addr);
      } else {
        t := PollerUpdate(s, p, Delete);
        assert [Delete][1..] == [];
      }
      child, deleted := Proceed();
    }
  }

  /** The steps of a poller that handles a request without interruption. */
  function ServeSteps(addr: Addr): seq<PollerStep> { [Spawn(addr), SetProcess, Request] + FINISH_STEPS }

  const FINISH_STEPS := [SetFinish, CallFinish]

  /** A poller taking these steps alone. */
  ghost predicate Alone(s: State, p: Poller, steps: seq<PollerStep>, t: State)
    decreases |steps|
  {
    if steps == [] then s == t else PollGuard(s, p, steps[0]) && Alone(PollerUpdate(s, p, steps[0]), p, steps[1..], t)
  }

  lemma AloneStep(s: State, p: Poller, b: PollerStep, rest: seq<PollerStep>, t: State)
    requires PollGuard(s, p, b) && Alone(PollerUpdate(s, p, b), p, rest, t)
    ensures Alone(s, p, [b] + rest, t)
  {
    assert ([b] + rest)[1..] == rest;
  }

  /** From the reply on. */
  lemma FinishedAlone(s: State, p: Poller, self: Addr) returns (t: State)
    requires p in s.pollers && s.pollers[p] == Replying(self) && self in s.live
    ensures Alone(s, p, FINISH_STEPS, t)
    ensures var c := s.live[self];
      t.live == s.live[self := c.(status := Finish, owner := Runtime, finishes := c.finishes + 1)]
    ensures t.outstanding == s.outstanding + multiset{self} && t.pollers == s.pollers[p := AtNext]
  {
    var s1 := PollerUpdate(s, p, SetFinish);
    t := PollerUpdate(s1, p, CallFinish);
    AloneStep(s1, p, CallFinish, [], t);
    AloneStep(s, p, SetFinish, [CallFinish], t);
  }

  /** The steps amount to one call of Proceed. */
  lemma ServedAlone(s: State, p: Poller, self: Addr, addr: Addr) returns (t: State)
    requires p in s.pollers && s.pollers[p] == Picked(self) && IsLive(s, self, Process) && addr !in s.live
    ensures Alone(s, p, ServeSteps(addr), t)
    ensures t.live.Keys == s.live.Keys + {addr}
    ensures t.live[addr] == Call(|s.homes|, Process, Runtime, 0, 0)
    ensures var c := s.live[self]; t.live[self] == Call(c.serial, Finish, Runtime, c.spawns + 1, c.finishes + 1)
    ensures t.outstanding == s.outstanding + multiset{addr, self} && t.pollers == s.pollers[p := AtNext]
  {
    var s1 := PollerUpdate(s, p, Spawn(addr));
    var s2 := PollerUpdate(s1, p, SetProcess);
    var s3 := PollerUpdate(s2, p, Request);
    t := FinishedAlone(s3, p, self);
    AloneStep(s2, p, Request, FINISH_STEPS, t);
    AloneStep(s1, p, SetProcess, [Request] + FINISH_STEPS, t);
    AloneStep(s, p, Spawn(addr), [SetProcess] + ([Request] + FINISH_STEPS), t);
    assert ServeSteps(addr) == [Spawn(addr)] + ([SetProcess] + ([Request] + FINISH_STEPS));
  }
}
