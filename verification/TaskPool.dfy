/** std::threadpool of Common/ThreadPool.hpp: a fixed set of workers drains an unbounded task
    queue, also after shutdown was requested.

    The class holds the code of each locked section; the machine below it lets the
    constructor, callers, the destructor and any number of workers run those sections in any
    order.  Testing the wait predicate and going to sleep are separate steps, since the
    destructor clears `_run` and notifies without taking the lock. */
module TaskPool {
  import opened Counting
  import L = Ledger

  type Task = L.Task

  const MAX_THREADS: nat := 16

  /** The members shared by all threads; `pool` is the number of threads created. */
  datatype Core = Core(initSize: nat, pool: nat, run: bool, tasks: seq<Task>, idle: int)

  datatype Verdict = Sleep | Exit | Take

  /** The wait predicate and the exit test, evaluated under the lock. */
  function Decide(c: Core): Verdict {
    if c.run && c.tasks == [] then Sleep
    else if c.tasks == [] then Exit
    else Take
  }

  function TakeTask(c: Core): Core
    requires c.tasks != []
  {
    c.(idle := c.idle - 1, tasks := c.tasks[1..])
  }

  predicate Retires(c: Core) { c.idle > 0 && c.pool > c.initSize }

  /** How many of `size` more threads the limit admits. */
  function Room(pool: nat, size: nat): nat {
    if pool >= MAX_THREADS then 0 else if size < MAX_THREADS - pool then size else MAX_THREADS - pool
  }

  class Pool {
    const initSize: nat
    var pool: nat
    var run: bool
    var tasks: seq<Task>
    var idle: int

    function Value(): Core
      reads this
    {
      Core(initSize, pool, run, tasks, idle)
    }

    constructor (size: nat)
      ensures initSize == size && run && tasks == []
      ensures pool == idle == if size < 16 then size else 16
    {
      initSize, pool, run, tasks, idle := size, 0, true, [], 0;
      new;
      var ok := AddThread(size);
    }

    /** Threads are made up to the limit, each counted idle; a stopped pool refuses. */
    method AddThread(size: nat) returns (ok: bool)
      modifies this
      ensures ok == old(run)
      ensures var made := if ok then Room(old(pool), size) else 0;
        Value() == old(Value()).(pool := old(pool) + made, idle := old(idle) + made)
      ensures ok && old(pool) < 16 ==> pool == if old(pool) + size < 16 then old(pool) + size else 16
    {
      ok := run;
      if !run { return; }
      var left := size;
      while pool < MAX_THREADS && left > 0
        invariant 0 <= left <= size && pool == old(pool) + (size - left) && idle == old(idle) + (size - left)
        invariant pool <= MAX_THREADS || left == size
        invariant run == old(run) && tasks == old(tasks)
      {
        pool, idle, left := pool + 1, idle + 1, left - 1;
      }
    }

    /** commit: the locked block. */
    method PushSection(task: Task)
      modifies this
      ensures Value() == old(Value()).(tasks := old(tasks) + [task])
    {
      tasks := tasks + [task];
    }

    /** The worker's locked block: sleep, leave, or take the oldest task. */
    method TakeSection() returns (v: Verdict, task: Task)
      modifies this
      ensures v == Decide(old(Value()))
      ensures v == Sleep <==> old(run) && old(tasks) == []
      ensures v == Exit <==> !old(run) && old(tasks) == []
      ensures v == Take ==> run == old(run) && pool == old(pool) && idle == old(idle) - 1
      ensures v != Take ==> Value() == old(Value())
      ensures v == Take ==> old(tasks) == [task] + tasks && Value() == TakeTask(old(Value()))
    {
      task := 0;
      if run && tasks == [] { return Sleep, task; }
      if !run && tasks == [] { return Exit, task; }
      idle := idle - 1;
      task, tasks := tasks[0], tasks[1..];
      v := Take;
    }

    /** The test that lets a worker retire after a task. */
    method RetireTest() returns (retire: bool)
      ensures retire == Retires(Value())
      ensures retire <==> idle > 0 && pool > initSize
      ensures pool <= initSize ==> !retire
    {
      retire := idle > 0 && pool > initSize;
    }

    method RecountSection()
      modifies this
      ensures Value() == old(Value()).(idle := old(idle) + 1)
    {
      idle := idle + 1;
    }

    /** A worker's turn after a task: unless the pool has outgrown its initial size it stays, and
        counts itself idle. */
    method AfterTask() returns (retires: bool)
      modifies this
      ensures retires ==> old(pool) > initSize && old(idle) > 0 && Value() == old(Value())
      ensures !retires ==> Value() == old(Value()).(idle := old(idle) + 1)
      ensures old(pool) <= initSize ==> !retires
    {
      retires := RetireTest();
      if !retires { RecountSection(); }
    }
  }

  // ---------- Threads ----------

  type Worker = L.Worker

  datatype Place =
    | Ready            // wants the lock for the wait predicate
    | Deciding         // holds the lock, found the predicate false, not asleep yet
    | Asleep
    | Running          // runs the task it took
    | Finished         // before the retire test
    | Recounting       // before re-incrementing the idle count
    | Exited
    | Retired

  datatype State = State(
    core: Core,
    counted: nat,               // idle increments made by the constructor
    workers: map<Worker, Place>,
    entering: multiset<Task>,   // commits past the _run test, before the push
    owed: nat,                  // commits past the push, before notify_one
    notified: bool,             // the destructor's notify_all has happened
    committed: seq<Task>,
    ledger: L.Account,          // started, running and finished tasks
    stranded: nat)              // pushes made when every worker had left

  datatype WorkerStep = Lock | FallAsleep | Spurious | Finish | RetireOrNot | Recount

  datatype CallerStep =
    | Ask(x: Task)                 // commit: the _run test
    | Push(x: Task)
    | NotifyOne(w: Worker)

  /** The constructor and the destructor. */
  datatype OwnerStep =
    | MakeThread                   // addThread: emplace_back
    | CountThread                  // addThread: the locked increment
    | ClearRun                     // destructor: _run = false
    | NotifyAll                    // destructor: _task_cv.notify_all

  datatype Step = Own(o: OwnerStep) | Call(c: CallerStep) | Work(w: Worker, a: WorkerStep)

  function Limit(c: Core): nat { if c.initSize < MAX_THREADS then c.initSize else MAX_THREADS }

  predicate Constructed(s: State) { s.core.pool == s.counted == Limit(s.core) }

  predicate At(s: State, w: Worker, p: Place) { w in s.workers && s.workers[w] == p }

  ghost predicate LockFree(s: State) { forall w :: !At(s, w, Deciding) }

  predicate AllLeft(s: State) {
    Constructed(s) && forall w <- s.workers :: s.workers[w] == Exited || s.workers[w] == Retired
  }

  ghost predicate WorkerGuard(s: State, w: Worker, a: WorkerStep) {
    && w in s.workers
    && match a
       case Lock => s.workers[w] == Ready && LockFree(s)
       case FallAsleep => s.workers[w] == Deciding
       case Spurious => s.workers[w] == Asleep
       case Finish => s.workers[w] == Running && w in s.ledger.running
       case RetireOrNot => s.workers[w] == Finished
       case Recount => s.workers[w] == Recounting && LockFree(s)
  }

  ghost predicate Enabled(s: State, a: Step) {
    match a
    case Own(MakeThread) => s.core.pool < Limit(s.core) && s.counted == s.core.pool
    case Own(CountThread) => s.counted < s.core.pool && LockFree(s)
    case Own(ClearRun) => Constructed(s) && s.core.run
    case Own(NotifyAll) => !s.core.run && !s.notified
    case Call(Ask(_)) => Constructed(s)
    case Call(Push(x)) => x in s.entering && LockFree(s)
    case Call(NotifyOne(w)) => s.owed > 0 && ((exists u :: At(s, u, Asleep)) ==> At(s, w, Asleep))
    case Work(w, b) => WorkerGuard(s, w, b)
  }

  function Move(s: State, w: Worker, p: Place): State { s.(workers := s.workers[w := p]) }

  predicate Takes(s: State, a: WorkerStep) { a == Lock && Decide(s.core) == Take }

  function NextPlace(s: State, a: WorkerStep): Place {
    match a
    case Lock =>
      var v := Decide(s.core);
      if v == Sleep then Deciding else if v == Exit then Exited else Running
    case FallAsleep => Asleep
    case Spurious => Ready
    case Finish => Finished
    case RetireOrNot => if Retires(s.core) then Retired else Recounting
    case Recount => Ready
  }

  function NextCore(s: State, a: WorkerStep): Core {
    if Takes(s, a) then TakeTask(s.core)
    else if a == Recount then s.core.(idle := s.core.idle + 1)
    else s.core
  }

  function NextLedger(s: State, w: Worker, a: WorkerStep): L.Account
    requires a == Finish ==> w in s.ledger.running
  {
    if Takes(s, a) then L.Start(s.ledger, w, s.core.tasks[0])
    else if a == Finish then L.Finish(s.ledger, w)
    else s.ledger
  }

  function WorkerUpdate(s: State, w: Worker, a: WorkerStep): State
    requires w in s.workers && (a == Finish ==> w in s.ledger.running)
  {
    Move(s, w, NextPlace(s, a)).(core := NextCore(s, a), ledger := NextLedger(s, w, a))
  }

  function WakeAll(m: map<Worker, Place>): map<Worker, Place> {
    map w | w in m :: if m[w] == Asleep then Ready else m[w]
  }

  function OwnerUpdate(s: State, o: OwnerStep): State {
    match o
    case MakeThread => Move(s, s.core.pool, Ready).(core := s.core.(pool := s.core.pool + 1))
    case CountThread => s.(counted := s.counted + 1, core := s.core.(idle := s.core.idle + 1))
    case ClearRun => s.(core := s.core.(run := false))
    case NotifyAll => s.(notified := true, workers := WakeAll(s.workers))
  }

  function CallerUpdate(s: State, c: CallerStep): State {
    match c
    case Ask(x) => if s.core.run then s.(entering := s.entering + multiset{x}) else s
    case Push(x) =>
      s.(entering := s.entering - multiset{x}, owed := s.owed + 1,
         core := s.core.(tasks := s.core.tasks + [x]), committed := s.committed + [x],
         stranded := if AllLeft(s) then s.stranded + 1 else s.stranded)
    case NotifyOne(w) =>
      var t := s.(owed := if s.owed > 0 then s.owed - 1 else 0);
      if At(s, w, Asleep) then Move(t, w, Ready) else t
  }

  function Apply(s: State, a: Step): State
    requires a.Work? ==> a.w in s.workers && (a.a == Finish ==> a.w in s.ledger.running)
  {
    match a
    case Own(o) => OwnerUpdate(s, o)
    case Call(c) => CallerUpdate(s, c)
    case Work(w, b) => WorkerUpdate(s, w, b)
  }

  ghost predicate Init(s: State) {
    && s.core == Core(s.core.initSize, 0, true, [], 0) && s.counted == 0 && s.workers == map[]
    && s.entering == multiset{} && s.owed == 0 && !s.notified
    && s.committed == [] && s.ledger == L.EMPTY && s.stranded == 0
  }

  ghost predicate Run(states: seq<State>, steps: seq<Step>) {
    && |states| == |steps| + 1
    && Init(states[0])
    && forall i :: 0 <= i < |steps| ==> Enabled(states[i], steps[i]) && states[i + 1] == Apply(states[i], steps[i])
  }

  // ---------- Invariants ----------

  predicate IsBusy(p: Place) { p == Running || p == Finished || p == Recounting }

  /** Workers between taking a task and counting themselves idle again. */
  function Busy(m: map<Worker, Place>): set<Worker> { set w | w in m && IsBusy(m[w]) }

  ghost predicate PoolShape(s: State) {
    && s.core.pool <= Limit(s.core)
    && s.counted <= s.core.pool <= s.counted + 1
    && (forall w: Worker :: w in s.workers <==> w < s.core.pool)
    && (!s.core.run || s.entering != multiset{} || s.committed != [] ==> Constructed(s))
  }

  ghost predicate Idleness(s: State) {
    && s.core.idle == s.counted - |Busy(s.workers)|
    && forall w <- s.workers :: s.workers[w] != Retired
  }

  ghost predicate Fifo(s: State) { s.committed == s.ledger.started + s.core.tasks }

  /** Each started task is run once, by the worker whose place says so. */
  ghost predicate EachOnce(s: State) {
    L.EachOnce(s.ledger) && forall w :: w in s.ledger.running <==> At(s, w, Running)
  }

  /** A worker leaves only after shutdown, with nothing queued; what is queued once all have
      left was pushed after that. */
  ghost predicate Draining(s: State) {
    && (forall w <- s.workers :: s.workers[w] == Exited ==> !s.core.run)
    && (if AllLeft(s) then |s.core.tasks| == s.stranded else s.stranded == 0)
  }

  ghost predicate Inv(s: State) {
    PoolShape(s) && Idleness(s) && Fifo(s) && EachOnce(s) && Draining(s)
  }

  lemma BusyMove(m: map<Worker, Place>, w: Worker, p: Place)
    ensures Busy(m[w := p]) == if IsBusy(p) then Busy(m) + {w} else Busy(m) - {w}
  {
  }

  lemma WorkKeepsShape(s: State, w: Worker, b: WorkerStep)
    requires Inv(s) && WorkerGuard(s, w, b)
    ensures PoolShape(WorkerUpdate(s, w, b))
  {
    var s' := WorkerUpdate(s, w, b);
    assert s'.core.pool == s.core.pool && s'.core.run == s.core.run && s'.core.initSize == s.core.initSize;
    assert s'.workers.Keys == s.workers.Keys && s'.counted == s.counted;
  }

  lemma OwnerKeepsShape(s: State, o: OwnerStep)
    requires Inv(s) && Enabled(s, Own(o))
    ensures PoolShape(OwnerUpdate(s, o))
  {
  }

  lemma CallerKeepsShape(s: State, c: CallerStep)
    requires Inv(s) && Enabled(s, Call(c))
    ensures PoolShape(CallerUpdate(s, c))
  {
  }

  /** A locked section that takes a task makes its worker busy. */
  lemma LockKeepsIdleness(s: State, w: Worker)
    requires Inv(s) && WorkerGuard(s, w, Lock)
    ensures Idleness(WorkerUpdate(s, w, Lock))
  {
    var s' := WorkerUpdate(s, w, Lock);
    if Decide(s.core) == Take {
      assert s'.workers == s.workers[w := Running] && s'.core.idle == s.core.idle - 1;
      BusyMove(s.workers, w, Running);
      assert w !in Busy(s.workers);
    } else {
      MoveKeepsIdleness(s, s', w);
    }
  }

  lemma RecountKeepsIdleness(s: State, w: Worker)
    requires Inv(s) && WorkerGuard(s, w, Recount)
    ensures Idleness(WorkerUpdate(s, w, Recount))
  {
    BusyMove(s.workers, w, Ready);
    assert w in Busy(s.workers);
  }

  /** The other steps leave the idle count and the busy workers alone; in particular no
      worker retires, since the pool never outgrows its initial size. */
  lemma WorkKeepsIdleness(s: State, w: Worker, b: WorkerStep)
    requires Inv(s) && WorkerGuard(s, w, b)
    ensures Idleness(WorkerUpdate(s, w, b))
  {
    match b
    case Lock => LockKeepsIdleness(s, w);
    case Recount => RecountKeepsIdleness(s, w);
    case _ =>
      assert !Retires(s.core);
      MoveKeepsIdleness(s, WorkerUpdate(s, w, b), w);
  }

  lemma MoveKeepsIdleness(s: State, s': State, w: Worker)
    requires Idleness(s) && w in s.workers && w in s'.workers && s'.workers == s.workers[w := s'.workers[w]]
    requires s'.core == s.core && s'.counted == s.counted
    requires IsBusy(s'.workers[w]) == IsBusy(s.workers[w]) && s'.workers[w] != Retired
    ensures Idleness(s')
  {
    BusyMove(s.workers, w, s'.workers[w]);
    assert Busy(s'.workers) == Busy(s.workers);
  }

  lemma WakeAllBusy(m: map<Worker, Place>)
    ensures Busy(WakeAll(m)) == Busy(m)
  {
  }

  lemma OwnerKeepsIdleness(s: State, o: OwnerStep)
    requires Inv(s) && Enabled(s, Own(o))
    ensures Idleness(OwnerUpdate(s, o))
  {
    match o
    case MakeThread =>
      BusyMove(s.workers, s.core.pool, Ready);
      assert s.core.pool !in s.workers;
      assert Busy(s.workers[s.core.pool := Ready]) == Busy(s.workers);
    case NotifyAll => WakeAllBusy(s.workers);
    case _ =>
  }

  lemma CallerKeepsIdleness(s: State, c: CallerStep)
    requires Inv(s) && Enabled(s, Call(c))
    ensures Idleness(CallerUpdate(s, c))
  {
    if c.NotifyOne? && At(s, c.w, Asleep) { BusyMove(s.workers, c.w, Ready); }
  }

  lemma StepKeepsFifo(s: State, a: Step)
    requires Inv(s) && Enabled(s, a)
    ensures Fifo(Apply(s, a))
  {
    match a
    case Work(w, Lock) =>
      if s.core.tasks != [] {
        var x, rest := s.core.tasks[0], s.core.tasks[1..];
        assert s.core.tasks == [x] + rest;
        assert s.ledger.started + ([x] + rest) == (s.ledger.started + [x]) + rest;
      }
    case Call(Push(x)) =>
      assert s.ledger.started + (s.core.tasks + [x]) == (s.ledger.started + s.core.tasks) + [x];
    case _ =>
  }

  lemma WorkKeepsEachOnce(s: State, w: Worker, b: WorkerStep)
    requires Inv(s) && WorkerGuard(s, w, b)
    ensures EachOnce(WorkerUpdate(s, w, b))
  {
    var s' := WorkerUpdate(s, w, b);
    assert s'.workers == s.workers[w := s'.workers[w]];
    if b == Finish {
      L.FinishKeepsEachOnce(s.ledger, w);
    } else if Takes(s, b) {
      assert !At(s, w, Running);
      L.StartKeepsEachOnce(s.ledger, w, s.core.tasks[0]);
    } else {
      assert s'.ledger == s.ledger && s.workers[w] != Running && s'.workers[w] != Running;
    }
  }

  /** Nobody but the workers starts or finishes tasks. */
  lemma OwnerKeepsEachOnce(s: State, o: OwnerStep)
    requires EachOnce(s) && Enabled(s, Own(o)) && (o.MakeThread? ==> s.core.pool !in s.workers)
    ensures EachOnce(OwnerUpdate(s, o))
  {
    assert OwnerUpdate(s, o).ledger == s.ledger;
  }

  lemma CallerKeepsEachOnce(s: State, c: CallerStep)
    requires EachOnce(s)
    ensures EachOnce(CallerUpdate(s, c))
  {
    assert CallerUpdate(s, c).ledger == s.ledger;
  }

  lemma WorkKeepsDraining(s: State, w: Worker, b: WorkerStep)
    requires Inv(s) && WorkerGuard(s, w, b)
    ensures Draining(WorkerUpdate(s, w, b))
  {
    var s' := WorkerUpdate(s, w, b);
    assert !AllLeft(s) && s'.stranded == 0;
    assert w in s'.workers && s'.workers[w] == NextPlace(s, b) != Retired;
  }

  lemma OwnerKeepsDraining(s: State, o: OwnerStep)
    requires Inv(s) && Enabled(s, Own(o))
    ensures Draining(OwnerUpdate(s, o))
  {
    var s' := OwnerUpdate(s, o);
    if !Constructed(s) { assert s.core.run && s.core.tasks == []; }
    if o == NotifyAll {
      assert forall w <- s.workers ::
          s'.workers[w] == if At(s, w, Asleep) then Ready else s.workers[w];
    }
  }

  lemma CallerKeepsDraining(s: State, c: CallerStep)
    requires Inv(s) && Enabled(s, Call(c))
    ensures Draining(CallerUpdate(s, c))
  {
    if c.NotifyOne? && At(s, c.w, Asleep) { assert CallerUpdate(s, c).workers[c.w] == Ready; }
  }

  lemma StepKeepsInv(s: State, a: Step)
    requires Inv(s) && Enabled(s, a)
    ensures Inv(Apply(s, a))
  {
    StepKeepsFifo(s, a);
    match a
    case Own(o) =>
      OwnerKeepsShape(s, o); OwnerKeepsIdleness(s, o); OwnerKeepsEachOnce(s, o); OwnerKeepsDraining(s, o);
    case Call(c) =>
      CallerKeepsShape(s, c); CallerKeepsIdleness(s, c); CallerKeepsEachOnce(s, c); CallerKeepsDraining(s, c);
    case Work(w, b) =>
      WorkKeepsShape(s, w, b); WorkKeepsIdleness(s, w, b); WorkKeepsEachOnce(s, w, b); WorkKeepsDraining(s, w, b);
  }

  lemma {:induction false} RunKeepsInv(states: seq<State>, steps: seq<Step>, k: nat)
    requires Run(states, steps) && k < |states|
    ensures Inv(states[k])
  {
    if k > 0 {
      RunKeepsInv(states, steps, k - 1);
      StepKeepsInv(states[k - 1], steps[k - 1]);
    }
  }

  // ---------- Main results ----------

  /** Tasks start in the order in which they were committed. */
  lemma StartedThenQueued(states: seq<State>, steps: seq<Step>, k: nat)
    requires Run(states, steps) && k < |states|
    ensures states[k].committed == states[k].ledger.started + states[k].core.tasks
  {
    RunKeepsInv(states, steps, k);
  }

  /** The idle count is the pool size minus the workers between taking a task and counting
      themselves again, so it stays within the pool size; no worker ever retires. */
  lemma IdleAccounting(states: seq<State>, steps: seq<Step>, k: nat)
    requires Run(states, steps) && k < |states| && Constructed(states[k])
    ensures states[k].core.idle == states[k].core.pool - |Busy(states[k].workers)|
    ensures states[k].core.pool == if states[k].core.initSize < 16 then states[k].core.initSize else 16
    ensures 0 <= states[k].core.idle <= states[k].core.pool
    ensures forall w <- states[k].workers :: states[k].workers[w] != Retired
  {
    RunKeepsInv(states, steps, k);
    var s := states[k];
    SizeOfRange(s.core.pool, s.workers.Keys);
    SubsetSize(Busy(s.workers), s.workers.Keys);
  }

  /** What a worker does when it has the lock: it leaves iff the pool is stopped and nothing is
      queued, sleeps iff it is running and nothing is queued, and otherwise takes the oldest task. */
  lemma LockDecides(states: seq<State>, steps: seq<Step>, k: nat, w: Worker)
    requires Run(states, steps) && k < |steps| && steps[k] == Work(w, Lock)
    ensures var s, t := states[k], states[k + 1];
      && w in t.workers
      && (t.workers[w] == Exited <==> !s.core.run && s.core.tasks == [])
      && (t.workers[w] == Deciding <==> s.core.run && s.core.tasks == [])
      && (s.core.tasks != [] ==> t.workers[w] == Running && t.ledger.started == s.ledger.started + [s.core.tasks[0]])
  {
  }

  /** A commit goes on iff the pool is running when it tests; its push adds the task at the end. */
  lemma CommitDecides(states: seq<State>, steps: seq<Step>, k: nat, x: Task)
    requires Run(states, steps) && k < |steps|
    ensures steps[k] == Call(Ask(x)) ==>
      states[k + 1].entering == states[k].entering + if states[k].core.run then multiset{x} else multiset{}
    ensures steps[k] == Call(Push(x)) ==>
      && states[k + 1].core.tasks == states[k].core.tasks + [x]
      && states[k + 1].committed == states[k].committed + [x] && states[k + 1].owed == states[k].owed + 1
  {
  }

  /** The pool is stopped by its destructor, and by nothing else. */
  lemma {:induction false} StoppedIff(states: seq<State>, steps: seq<Step>, k: nat)
    requires Run(states, steps) && k < |states|
    ensures !states[k].core.run <==> Own(ClearRun) in steps[..k]
  {
    if k > 0 {
      StoppedIff(states, steps, k - 1);
      assert steps[..k] == steps[..k - 1] + [steps[k - 1]];
    }
  }

  /** The retire test fails in every reachable state: no worker finds more threads than the pool
      was made for. */
  lemma NobodyRetires(states: seq<State>, steps: seq<Step>, k: nat)
    requires Run(states, steps) && k < |states|
    ensures states[k].core.pool <= states[k].core.initSize && !Retires(states[k].core)
    ensures forall w :: !At(states[k], w, Retired)
  {
    RunKeepsInv(states, steps, k);
  }

  /** Every committed task has been run to the end, once. */
  ghost predicate AllDone(s: State) {
    s.ledger.started == s.committed && forall i: nat :: i in s.ledger.done <==> i < |s.committed|
  }

  /** Once all workers have left, every committed task has run exactly when no task was pushed
      after the last of them left; otherwise precisely those tasks are still queued. */
  lemma DrainedAtExit(states: seq<State>, steps: seq<Step>, k: nat)
    requires Run(states, steps) && k < |states| && AllLeft(states[k])
    ensures AllDone(states[k]) <==> states[k].stranded == 0
    ensures |states[k].core.tasks| == states[k].stranded
  {
    RunKeepsInv(states, steps, k);
    var s := states[k];
    assert s.ledger.running == map[];
    L.QuietMeansDone(s.ledger);
    assert s.core.tasks == [] ==> s.committed == s.ledger.started;
  }

  lemma {:induction false} NoPushAfterShutdown(states: seq<State>, steps: seq<Step>, i: nat, j: nat)
    requires Run(states, steps) && i <= j < |states|
    requires !states[i].core.run && states[i].entering == multiset{}
    ensures !states[j].core.run && states[j].entering == multiset{}
    ensures states[j].stranded == states[i].stranded
    decreases j
  {
    if j > i {
      NoPushAfterShutdown(states, steps, i, j - 1);
      ShutStep(states[j - 1], steps[j - 1]);
    }
  }

  lemma ShutStep(s: State, a: Step)
    requires Enabled(s, a) && !s.core.run && s.entering == multiset{}
    ensures var s' := Apply(s, a);
      !s'.core.run && s'.entering == multiset{} && s'.stranded == s.stranded
  {
  }

  /** The destructor's guarantee: with at least one thread, and no commit under way when
      `_run` is cleared, all committed tasks have run once the workers have left. */
  lemma CleanShutdown(states: seq<State>, steps: seq<Step>, i: nat, j: nat)
    requires Run(states, steps) && i < j < |states|
    requires steps[i] == Own(ClearRun) && states[i].entering == multiset{} && states[i].core.pool > 0
    requires AllLeft(states[j])
    ensures AllDone(states[j])
  {
    RunKeepsInv(states, steps, i);
    assert 0 in states[i].workers;
    NoPushAfterShutdown(states, steps, i + 1, j);
    DrainedAtExit(states, steps, j);
  }

  lemma Extend(states: seq<State>, steps: seq<Step>, a: Step, next: State)
    returns (states': seq<State>, steps': seq<Step>)
    requires Run(states, steps) && Enabled(states[|steps|], a) && next == Apply(states[|steps|], a)
    ensures Run(states', steps') && states'[|steps'|] == next
    ensures states <= states' && steps <= steps'
  {
    states', steps' := states + [next], steps + [a];
  }

  /** A pool of one thread, fully constructed. */
  function One(run: bool, place: Place): State {
    State(Core(1, 1, run, [], 1), 1, map[0 := place], multiset{}, 0, false, [], L.EMPTY, 0)
  }

  lemma BuildOne() returns (states: seq<State>, steps: seq<Step>)
    ensures Run(states, steps) && states[|steps|] == One(true, Ready)
  {
    var s0 := State(Core(1, 0, true, [], 0), 0, map[], multiset{}, 0, false, [], L.EMPTY, 0);
    states, steps := [s0], [];
    var s1 := s0.(core := Core(1, 1, true, [], 0), workers := map[0 := Ready]);
    states, steps := Extend(states, steps, Own(MakeThread), s1);
    states, steps := Extend(states, steps, Own(CountThread), One(true, Ready));
  }

  /** A commit that tested `_run` before the destructor cleared it can push after the workers
      have left: its task is never run. */
  lemma LateCommitIsLost() returns (states: seq<State>, steps: seq<Step>)
    ensures Run(states, steps)
    ensures var s := states[|steps|];
      AllLeft(s) && s.core.pool == 1 && s.committed == [7] && s.ledger.started == []
  {
    states, steps := BuildOne();
    var s1 := One(true, Ready).(entering := multiset{7});
    states, steps := Extend(states, steps, Call(Ask(7)), s1);
    var s2 := One(false, Ready).(entering := multiset{7});
    states, steps := Extend(states, steps, Own(ClearRun), s2);
    var s3 := One(false, Exited).(entering := multiset{7});
    states, steps := Extend(states, steps, Work(0, Lock), s3);
    var s4 := Apply(s3, Call(Push(7)));
    states, steps := Extend(states, steps, Call(Push(7)), s4);
  }

  // ---------- Waking up for shutdown ----------

  predicate Dozing(s: State, w: Worker) { At(s, w, Asleep) || At(s, w, Deciding) }

  /** After shutdown, a worker that is neither asleep nor about to be. */
  predicate UpForGood(s: State, w: Worker) { !s.core.run && !Dozing(s, w) }

  lemma StaysUp(s: State, a: Step, s': State, w: Worker)
    requires Enabled(s, a) && s' == Apply(s, a) && UpForGood(s, w)
    ensures UpForGood(s', w)
  {
  }

  lemma RunStepStaysUp(states: seq<State>, steps: seq<Step>, k: nat, w: Worker)
    requires Run(states, steps) && k < |steps| && UpForGood(states[k], w)
    ensures UpForGood(states[k + 1], w)
  {
    StaysUp(states[k], steps[k], states[k + 1], w);
  }

  lemma {:induction false} StaysUpForGood(states: seq<State>, steps: seq<Step>, i: nat, j: nat, w: Worker)
    requires Run(states, steps) && i <= j < |states| && UpForGood(states[i], w)
    ensures UpForGood(states[j], w)
    decreases j
  {
    if j > i {
      StaysUpForGood(states, steps, i, j - 1, w);
      RunStepStaysUp(states, steps, j - 1, w);
    }
  }

  lemma BroadcastWakes(s: State, s': State, w: Worker)
    requires Enabled(s, Own(NotifyAll)) && s' == Apply(s, Own(NotifyAll)) && !At(s, w, Deciding)
    ensures UpForGood(s', w)
  {
  }

  /** After the destructor's broadcast a worker can only be asleep, or about to be, if it was
      between testing the predicate and going to sleep when the broadcast went out. */
  lemma OnlyDecidersMissTheBroadcast(states: seq<State>, steps: seq<Step>, i: nat, j: nat, w: Worker)
    requires Run(states, steps) && i < j < |states| && steps[i] == Own(NotifyAll)
    requires Dozing(states[j], w)
    ensures At(states[i], w, Deciding)
  {
    if !At(states[i], w, Deciding) {
      BroadcastWakes(states[i], states[i + 1], w);
      StaysUpForGood(states, steps, i + 1, j, w);
    }
  }

  /** A run that goes on from another one. */
  ghost predicate Continues(states: seq<State>, steps: seq<Step>, more: seq<State>, next: seq<Step>) {
    Run(more, next) && states <= more && steps <= next
  }

  /** The broadcast can miss a worker, which then falls asleep, iff it is deciding. */
  lemma MissesTheBroadcast(states: seq<State>, steps: seq<Step>, w: Worker)
    requires Run(states, steps) && steps != [] && steps[|steps| - 1] == Own(NotifyAll)
    ensures (exists more, next :: Continues(states, steps, more, next) && At(more[|next|], w, Asleep))
       <==> At(states[|steps| - 1], w, Deciding)
  {
    var i := |steps| - 1;
    if At(states[i], w, Deciding) {
      assert states[i + 1] == Apply(states[i], steps[i]);
      var s := states[i + 1];
      assert At(s, w, Deciding);
      var more, next := Extend(states, steps, Work(w, FallAsleep), WorkerUpdate(s, w, FallAsleep));
      assert Continues(states, steps, more, next) && At(more[|next|], w, Asleep);
    }
    if more: seq<State>, next: seq<Step> :| Continues(states, steps, more, next) && At(more[|next|], w, Asleep) {
      assert |more| > i + 1 && more[i] == states[i] && next[i] == steps[i];
      OnlyDecidersMissTheBroadcast(more, next, i, |next|, w);
    }
  }

  lemma OnlySpuriousIsLeft(a: Step)
    requires Enabled(One(false, Asleep).(notified := true), a)
    ensures a == Work(0, Spurious)
         || (a.Call? && a.c.Ask? && CallerUpdate(One(false, Asleep), a.c) == One(false, Asleep))
  {
  }

  /** Such a worker exists: without a spurious wakeup the destructor then waits for ever,
      because nobody is left to notify. */
  lemma BroadcastCanBeMissed() returns (states: seq<State>, steps: seq<Step>)
    ensures Run(states, steps)
    ensures var s := states[|steps|];
      && Constructed(s) && s.notified && s.owed == 0 && s.entering == multiset{}
      && s.workers == map[0 := Asleep]
      && (forall a :: Enabled(s, a) ==> a == Work(0, Spurious) || (a.Call? && a.c.Ask? && Apply(s, a) == s))
  {
    states, steps := BuildOne();
    states, steps := Extend(states, steps, Work(0, Lock), One(true, Deciding));
    states, steps := Extend(states, steps, Own(ClearRun), One(false, Deciding));
    var s1 := One(false, Deciding).(notified := true);
    states, steps := Extend(states, steps, Own(NotifyAll), s1);
    var s2 := One(false, Asleep).(notified := true);
    states, steps := Extend(states, steps, Work(0, FallAsleep), s2);
    forall a | Enabled(s2, a)
      ensures a == Work(0, Spurious) || (a.Call? && a.c.Ask? && Apply(s2, a) == s2)
    {
      OnlySpuriousIsLeft(a);
    }
  }
}
