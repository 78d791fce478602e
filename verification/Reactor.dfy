/** The server side of the streaming connection: the reactor that gRPC calls back
    (client_stream_reactor.cpp) and the service whose sweeper frees finished reactors
    (service.h). */
module Reactor {
  import opened Wrappers
  import opened Messages

  datatype Status = Created | Connected | Finished | Done

  function Rank(s: Status): nat {
    match s
    case Created => 0
    case Connected => 1
    case Finished => 2
    case Done => 3
  }

  /** `finishes` and `started` count the calls of Finish and StartRead. */
  datatype Conn = Conn(status: Status, finishes: nat, started: nat, request: Message)

  const NEW := Conn(Created, 0, 1, EMPTY)

  /** What can be called on a reactor. */
  datatype Callback = ReadDone(ok: bool) | Disconnect | OnDone

  function Disconnected(c: Conn): Conn {
    if c.status == Done || c.status == Finished then c
    else c.(status := Finished, finishes := c.finishes + 1)
  }

  function React(c: Conn, cb: Callback): Conn {
    match cb
    case ReadDone(ok) => if ok then c.(request := EMPTY, started := c.started + 1) else Disconnected(c)
    case Disconnect => Disconnected(c)
    case OnDone => c.(status := Done)
  }

  /** client_stream_reactor.  Each method is one critical section, or touches only what its
      caller owns. */
  class ClientStreamReactor {
    var status: Status
    var request: Message
    ghost var finishes: nat
    ghost var started: nat

    ghost function Value(): Conn
      reads this
    {
      Conn(status, finishes, started, request)
    }

    /** The source leaves the status unset: `unset` is whatever the memory holds. */
    constructor (unset: Status)
      ensures Value() == NEW.(status := unset)
    {
      status, finishes, started, request := unset, 0, 1, EMPTY;
    }

    method OnReadDone(ok: bool)
      modifies this
      ensures Value() == React(old(Value()), ReadDone(ok))
      ensures ok ==>
        && request.version == 0 && request.length == 0 && request.buffer == [] && request.unknown == []
        && started == old(started) + 1 && status == old(status) && finishes == old(finishes)
      ensures !ok && old(status) != Finished && old(status) != Done ==>
        status == Finished && finishes == old(finishes) + 1
      ensures !ok ==> started == old(started) && request == old(request)
    {
      if ok {
        request := EMPTY;
        started := started + 1;
      } else {
        DisconnectNow();
      }
    }

    method DisconnectNow()
      modifies this
      ensures Value() == React(old(Value()), Disconnect)
      ensures if old(status) == Finished || old(status) == Done then status == old(status) && finishes == old(finishes)
              else status == Finished && finishes == old(finishes) + 1
    {
      if status != Done && status != Finished {
        status := Finished;
        finishes := finishes + 1;
      }
    }

    method SetDone()
      modifies this
      ensures Value() == React(old(Value()), OnDone)
      ensures status == Done && finishes == old(finishes)
    {
      status := Done;
    }
  }

  /** base_service: the registered reactors. */
  class Service {
    var connections: set<ClientStreamReactor>

    constructor ()
      ensures connections == {}
    {
      connections := {};
    }

    method AddConnect(c: ClientStreamReactor)
      modifies this
      ensures connections == old(connections) + {c}
    {
      connections := connections + {c};
    }

    /** One pass of clean(), in any order: the reactors that are done are freed and dropped,
        each once; the others stay. */
    method Sweep() returns (freed: seq<ClientStreamReactor>)
      modifies this
      ensures connections == set c | c in old(connections) && c.status != Done
      ensures forall c :: c in freed <==> c in old(connections) && c.status == Done
      ensures forall i, j :: 0 <= i < j < |freed| ==> freed[i] != freed[j]
    {
      freed := [];
      ghost var all := connections;
      var todo := connections;
      while todo != {}
        invariant todo <= all
        invariant forall c :: c in connections <==> c in all && (c in todo || c.status != Done)
        invariant forall c :: c in freed <==> c in all && c !in todo && c.status == Done
        invariant forall i, j :: 0 <= i < j < |freed| ==> freed[i] != freed[j]
        decreases |todo|
      {
        var c :| c in todo;
        if c.status == Done {
          assert c !in freed;
          freed := freed + [c];
          connections := connections - {c};
        }
        todo := todo - {c};
      }
    }
  }

  // ---------- One reactor, any callbacks ----------

  function ReactAll(c: Conn, cbs: seq<Callback>): Conn
    decreases |cbs|
  {
    if cbs == [] then c else ReactAll(React(c, cbs[0]), cbs[1..])
  }

  /** A callback that disconnects. */
  predicate Closes(cb: Callback) { cb == Disconnect || cb == ReadDone(false) }

  /** Some disconnecting callback comes before any OnDone. */
  ghost predicate ClosedBeforeDone(cbs: seq<Callback>) {
    exists i :: 0 <= i < |cbs| && Closes(cbs[i]) && forall j :: 0 <= j < i ==> cbs[j] != OnDone
  }

  /** The status never goes back. */
  lemma {:induction false} RankNeverFalls(c: Conn, cbs: seq<Callback>)
    ensures Rank(c.status) <= Rank(ReactAll(c, cbs).status)
    decreases |cbs|
  {
    if cbs != [] { RankNeverFalls(React(c, cbs[0]), cbs[1..]); }
  }

  lemma {:induction false} FinishesStay(c: Conn, cbs: seq<Callback>)
    requires c.status == Finished || c.status == Done
    ensures ReactAll(c, cbs).finishes == c.finishes
    decreases |cbs|
  {
    if cbs != [] { FinishesStay(React(c, cbs[0]), cbs[1..]); }
  }

  /** Whatever calls come in whatever order, Finish is called at most once, and exactly when a
      disconnect or failed read precedes every OnDone; never, though, by a reactor whose unset
      status happened to be finished or done. */
  lemma {:induction false} FinishedAtMostOnce(c: Conn, cbs: seq<Callback>)
    requires c.finishes == 0
    ensures ReactAll(c, cbs).finishes == if Rank(c.status) < 2 && ClosedBeforeDone(cbs) then 1 else 0
    decreases |cbs|
  {
    if Rank(c.status) >= 2 {
      FinishesStay(c, cbs);
    } else if cbs != [] {
      var next, rest := React(c, cbs[0]), cbs[1..];
      if Closes(cbs[0]) || cbs[0] == OnDone {
        FinishesStay(next, rest);
      } else {
        FinishedAtMostOnce(next, rest);
        if i :| 0 <= i < |rest| && Closes(rest[i]) && forall j :: 0 <= j < i ==> rest[j] != OnDone {
          assert Closes(cbs[i + 1]) && forall j :: 0 < j < i + 1 ==> cbs[j] == rest[j - 1];
        }
        if i :| 0 <= i < |cbs| && Closes(cbs[i]) && forall j :: 0 <= j < i ==> cbs[j] != OnDone {
          assert Closes(rest[i - 1]) && forall j :: 0 <= j < i - 1 ==> rest[j] == cbs[j + 1];
        }
      }
    }
  }

  // ---------- The service ----------

  /** A reactor and what gRPC holds of it: a read in progress into `request`, a read result not
      yet reported, the number of reads that ended, and whether OnDone was delivered.  `unset` is
      the status it was made with. */
  datatype Call = Call(conn: Conn, reading: bool, result: Option<bool>, ended: nat, over: bool, unset: Status)

  /** A pass of the sweeper: what it has yet to visit; `due` is what was done at its start. */
  datatype Pass = Pass(todo: set<nat>, due: set<nat>)

  datatype State = State(
    calls: map<nat, Call>,
    pending: set<nat>,        // made, before add_connect
    registered: set<nat>,
    freed: seq<nat>,
    pass: Option<Pass>)

  datatype Step =
    | Accept(id: nat, unset: Status)                 // a new reactor, which starts reading
    | Register(id: nat)                              // add_connect
    | ReadEnds(id: nat, got: Option<Message>)        // gRPC: a message, or the end of the stream
    | ReportRead(id: nat)                            // gRPC calls OnReadDone
    | Close(id: nat)                                 // disconnect from another thread
    | ReportDone(id: nat)                            // gRPC calls OnDone
    | StartPass
    | Visit(id: nat)
    | EndPass

  /** gRPC calls OnDone once, after Finish and when no read is left; nobody else calls a reactor
      that is not registered. */
  predicate Enabled(s: State, b: Step) {
    match b
    case Accept(id, _) => id !in s.calls
    case Register(id) => id in s.pending && s.pass == None
    case ReadEnds(id, _) => id in s.calls && s.calls[id].reading
    case ReportRead(id) => id in s.calls && s.calls[id].result.Some?
    case Close(id) => id in s.registered && id in s.calls
    case ReportDone(id) =>
      && id in s.calls && s.calls[id].conn.finishes > 0
      && !s.calls[id].reading && s.calls[id].result == None && !s.calls[id].over
    case StartPass => s.pass == None
    case Visit(id) => s.pass.Some? && id in s.pass.value.todo && id in s.calls
    case EndPass => s.pass.Some? && s.pass.value.todo == {}
  }

  predicate IsDone(s: State, id: nat) { id in s.calls && s.calls[id].conn.status == Done }

  function Update(c: Call, b: Step): Call {
    match b
    case ReadEnds(_, got) =>
      var e := c.(reading := false, ended := c.ended + 1, result := Some(got.Some?));
      if got.Some? then e.(conn := c.conn.(request := got.value)) else e
    case ReportRead(_) =>
      var ok := c.result.Some? && c.result.value;
      c.(conn := React(c.conn, ReadDone(ok)), result := None, reading := ok)
    case Close(_) => c.(conn := React(c.conn, Disconnect))
    case ReportDone(_) => c.(conn := React(c.conn, OnDone), over := true)
    case _ => c
  }

  function Apply(s: State, b: Step): State
    requires Enabled(s, b)
  {
    match b
    case Accept(id, unset) =>
      s.(calls := s.calls[id := Call(NEW.(status := unset), true, None, 0, false, unset)], pending := s.pending + {id})
    case Register(id) => s.(pending := s.pending - {id}, registered := s.registered + {id})
    case StartPass => s.(pass := Some(Pass(s.registered, set id | id in s.registered && IsDone(s, id))))
    case Visit(id) =>
      var t := s.(pass := Some(s.pass.value.(todo := s.pass.value.todo - {id})));
      if IsDone(s, id) then t.(registered := s.registered - {id}, freed := s.freed + [id]) else t
    case EndPass => s.(pass := None)
    case ReadEnds(id, _) => s.(calls := s.calls[id := Update(s.calls[id], b)])
    case ReportRead(id) => s.(calls := s.calls[id := Update(s.calls[id], b)])
    case Close(id) => s.(calls := s.calls[id := Update(s.calls[id], b)])
    case ReportDone(id) => s.(calls := s.calls[id := Update(s.calls[id], b)])
  }

  predicate Init(s: State) { s == State(map[], {}, {}, [], None) }

  // ---------- Invariant ----------

  predicate GoodCall(c: Call) {
    && c.conn.finishes == (if Rank(c.conn.status) >= 2 && Rank(c.unset) < 2 then 1 else 0)
    && (c.conn.status == Done <==> c.over || c.unset == Done)
    && (c.unset == Finished ==> c.conn.status == Finished)
    && (c.over ==> !c.reading && c.result == None)
    && (c.reading ==> c.result == None && c.conn.request == EMPTY)
    && (c.result == None && !c.reading ==> Rank(c.conn.status) >= 2)
    && c.conn.started == c.ended + if c.reading then 1 else 0
  }

  ghost predicate Distinct(xs: seq<nat>) { forall i, j :: 0 <= i < j < |xs| ==> xs[i] != xs[j] }

  /** Every reactor ever made is waiting to be registered, registered, or freed, in one place. */
  ghost predicate Partition(s: State) {
    && (forall id :: id in s.calls <==> id in s.pending || id in s.registered || id in s.freed)
    && s.pending !! s.registered
    && (forall id <- s.freed :: id !in s.pending && id !in s.registered && IsDone(s, id))
    && Distinct(s.freed)
  }

  predicate GoodPass(s: State) {
    s.pass.Some? ==>
      && s.pass.value.todo <= s.registered
      && s.pass.value.due * s.registered <= s.pass.value.todo
      && forall id <- s.pass.value.due :: IsDone(s, id)
  }

  ghost predicate Inv(s: State) {
    && (forall id <- s.calls :: GoodCall(s.calls[id]))
    && Partition(s)
    && GoodPass(s)
  }

  /** The steps that change one reactor. */
  predicate IsUpdate(b: Step) { b.ReadEnds? || b.ReportRead? || b.Close? || b.ReportDone? }

  lemma UpdateKeepsGood(s: State, b: Step)
    requires IsUpdate(b) && Enabled(s, b) && GoodCall(s.calls[b.id])
    ensures GoodCall(Update(s.calls[b.id], b))
    ensures Rank(s.calls[b.id].conn.status) <= Rank(Update(s.calls[b.id], b).conn.status)
  {
  }

  lemma StepKeepsPartition(s: State, b: Step)
    requires Partition(s) && GoodPass(s) && Enabled(s, b)
    requires IsUpdate(b) ==> Rank(s.calls[b.id].conn.status) <= Rank(Update(s.calls[b.id], b).conn.status)
    ensures Partition(Apply(s, b))
  {
  }

  lemma StepKeepsPass(s: State, b: Step)
    requires Partition(s) && GoodPass(s) && Enabled(s, b)
    requires IsUpdate(b) ==> Rank(s.calls[b.id].conn.status) <= Rank(Update(s.calls[b.id], b).conn.status)
    ensures GoodPass(Apply(s, b))
  {
  }

  lemma StepKeepsInv(s: State, b: Step)
    requires Inv(s) && Enabled(s, b)
    ensures Inv(Apply(s, b))
  {
    if IsUpdate(b) { UpdateKeepsGood(s, b); }
    StepKeepsPartition(s, b);
    StepKeepsPass(s, b);
  }

  ghost predicate Run(states: seq<State>, steps: seq<Step>) {
    && |states| == |steps| + 1
    && Init(states[0])
    && forall i :: 0 <= i < |steps| ==> Enabled(states[i], steps[i]) && states[i + 1] == Apply(states[i], steps[i])
  }

  /** The invariant holds throughout every run. */
  lemma {:induction false} RunKeepsInv(states: seq<State>, steps: seq<Step>, k: nat)
    requires Run(states, steps) && k < |states|
    ensures Inv(states[k])
  {
    if k > 0 {
      RunKeepsInv(states, steps, k - 1);
      StepKeepsInv(states[k - 1], steps[k - 1]);
    }
  }

  lemma StepAdvances(s: State, b: Step, id: nat)
    requires Inv(s) && Enabled(s, b) && id in s.calls
    ensures id in Apply(s, b).calls
    ensures Rank(s.calls[id].conn.status) <= Rank(Apply(s, b).calls[id].conn.status)
  {
    if IsUpdate(b) { UpdateKeepsGood(s, b); }
  }

  /** In every run a reactor's status only moves forward. */
  lemma {:induction false} StatusOnlyAdvances(states: seq<State>, steps: seq<Step>, i: nat, j: nat, id: nat)
    requires Run(states, steps) && i <= j < |states| && id in states[i].calls
    ensures id in states[j].calls
    ensures Rank(states[i].calls[id].conn.status) <= Rank(states[j].calls[id].conn.status)
  {
    if i < j {
      StatusOnlyAdvances(states, steps, i, j - 1, id);
      RunKeepsInv(states, steps, j - 1);
      StepAdvances(states[j - 1], steps[j - 1], id);
    }
  }

  /** The reactor whose methods a step calls, or that gRPC writes to. */
  function Touched(b: Step): Option<nat> { if IsUpdate(b) then Some(b.id) else None }

  /** No step of any run frees a reactor twice, or calls or writes one that is freed, unless its
      unset status happened to be done; one whose unset status was finished is never freed.  Finish is called at most
      once; reads started are those ended and the one in progress, so there are never two; and
      the request is empty while gRPC reads into it. */
  lemma RunSafety(states: seq<State>, steps: seq<Step>, k: nat, id: nat)
    requires Run(states, steps) && k < |steps| && id in states[k].calls
    ensures id in states[k].freed ==> steps[k] != Visit(id)
    ensures id in states[k].freed && states[k].calls[id].unset != Done ==> Touched(steps[k]) != Some(id)
    ensures states[k].calls[id].unset == Finished ==> id !in states[k].freed
    ensures Distinct(states[k].freed)
    ensures states[k].calls[id].conn.finishes <= 1
    ensures var c := states[k].calls[id]; c.conn.started == c.ended + if c.reading then 1 else 0
    ensures states[k].calls[id].reading ==> states[k].calls[id].conn.request == EMPTY
  {
    RunKeepsInv(states, steps, k);
  }

  /** A pass that ends has freed every reactor that was done when it began; and it has dropped
      only reactors that are done. */
  lemma PassFreesWhatWasDone(states: seq<State>, steps: seq<Step>, i: nat, j: nat, id: nat)
    requires Run(states, steps) && i < j < |steps|
    requires steps[i] == StartPass && steps[j] == EndPass && forall k :: i < k < j ==> steps[k] != EndPass
    requires id in states[i].registered
    ensures IsDone(states[i], id) ==> id in states[j].freed
    ensures !IsDone(states[j], id) ==> id in states[j].registered
  {
    PassGoesOn(states, steps, i, j);
    RunKeepsInv(states, steps, i);
    RunKeepsInv(states, steps, j);
    StatusOnlyAdvances(states, steps, i, j, id);
    PendingShrinks(states, steps, i, j, id);
    var p := states[j].pass.value;
    assert id in p.due * states[j].registered <==> IsDone(states[i], id) && id in states[j].registered;
  }

  lemma {:induction false} PassGoesOn(states: seq<State>, steps: seq<Step>, i: nat, j: nat)
    requires Run(states, steps) && i < j < |states| && steps[i] == StartPass
    requires forall k :: i < k < j ==> steps[k] != EndPass
    ensures states[j].pass.Some?
    ensures states[j].pass.value.due == set id | id in states[i].registered && IsDone(states[i], id)
  {
    if i < j - 1 { PassGoesOn(states, steps, i, j - 1); }
  }

  lemma {:induction false} PendingShrinks(states: seq<State>, steps: seq<Step>, i: nat, j: nat, id: nat)
    requires Run(states, steps) && i <= j < |states| && id in states[i].registered
    ensures id !in states[j].pending
  {
    RunKeepsInv(states, steps, i);
    if i < j {
      PendingShrinks(states, steps, i, j - 1, id);
      StatusOnlyAdvances(states, steps, i, j - 1, id);
    }
  }

  /** A reactor whose unset status happened to be done is freed by the next pass, while gRPC reads
      into it. */
  lemma UnsetDoneIsFreedInUse() returns (states: seq<State>, steps: seq<Step>)
    ensures Run(states, steps)
    ensures var s := states[|steps|];
      s.freed == [7] && 7 in s.calls && s.calls[7].reading && Enabled(s, ReadEnds(7, None))
  {
    var s0 := State(map[], {}, {}, [], None);
    var s1 := Apply(s0, Accept(7, Done));
    var s2 := Apply(s1, Register(7));
    var s3 := Apply(s2, StartPass);
    var s4 := Apply(s3, Visit(7));
    states, steps := [s0, s1, s2, s3, s4], [Accept(7, Done), Register(7), StartPass, Visit(7)];
  }

  // ---------- Release ----------

  /** Steps that gRPC still owes a reactor once its stream ends. */
  function Owed(c: Call): nat {
    if c.conn.status == Done then 0
    else if c.reading then 3
    else if c.result == None then 1
    else if c.result.value then 4
    else 2
  }

  function NextOwed(c: Call, id: nat): Step {
    if c.reading then ReadEnds(id, None) else if c.result.Some? then ReportRead(id) else ReportDone(id)
  }

  ghost predicate RunFrom(s: State, steps: seq<Step>, t: State)
    decreases |steps|
  {
    if steps == [] then s == t else Enabled(s, steps[0]) && RunFrom(Apply(s, steps[0]), steps[1..], t)
  }

  lemma OwedUpdate(c: Call, id: nat)
    requires GoodCall(c) && Owed(c) > 0 && c.unset != Finished
    ensures Owed(Update(c, NextOwed(c, id))) == Owed(c) - 1
  {
  }

  lemma OwedStep(s: State, id: nat)
    requires Inv(s) && id in s.calls && Owed(s.calls[id]) > 0 && s.calls[id].unset != Finished
    ensures var b := NextOwed(s.calls[id], id);
      && Enabled(s, b)
      && Owed(Apply(s, b).calls[id]) == Owed(s.calls[id]) - 1
      && Apply(s, b) == s.(calls := Apply(s, b).calls)
      && id in Apply(s, b).calls && Apply(s, b).calls[id].unset == s.calls[id].unset
  {
    OwedUpdate(s.calls[id], id);
  }

  /** From any reachable state, a registered reactor, unless its unset status was finished, is
      freed once its client closes the stream: at most four gRPC steps and two of the sweeper, if
      it is between passes. */
  lemma {:induction false} ClosedStreamIsFreed(s: State, id: nat) returns (steps: seq<Step>, t: State)
    requires Inv(s) && id in s.registered && s.pass == None && s.calls[id].unset != Finished
    ensures RunFrom(s, steps, t) && |steps| == Owed(s.calls[id]) + 2 <= 6 && id in t.freed
    decreases Owed(s.calls[id])
  {
    if s.calls[id].conn.status == Done {
      var u := Apply(s, StartPass);
      t := Apply(u, Visit(id));
      steps := [StartPass, Visit(id)];
      assert steps[1..] == [Visit(id)] && steps[1..][1..] == [];
      assert RunFrom(u, steps[1..], t);
    } else {
      OwedStep(s, id);
      var b := NextOwed(s.calls[id], id);
      StepKeepsInv(s, b);
      var more;
      more, t := ClosedStreamIsFreed(Apply(s, b), id);
      steps := [b] + more;
      assert steps[1..] == more;
    }
  }
}
