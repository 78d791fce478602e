/** ez::thread_pool: workers poll a bounded queue, and stop soon after a flag is set without
    draining it. */
module WorkerPool {
  import opened Counting
  import L = Ledger
  import Q = Queue

  type Task = L.Task
  type Worker = L.Worker

  /** The constructor throws for other thread counts. */
  predicate Constructible(threads: int) { 0 < threads < 1000 }

  datatype Place =
    | AtPop      // before queue_.pop_front
    | Napping    // the queue was empty
    | Running
    | AtTest     // before the exit_ test
    | Halted

  datatype State = State(
    max: nat,                   // queue capacity
    threads: nat,               // threads asked for
    exit: bool,
    queue: seq<Task>,
    spawned: nat,               // threads_.size()
    workers: map<Worker, Place>,
    posted: seq<Task>,          // in the order in which the queue lock was taken
    accepted: seq<Task>,
    rejected: multiset<Task>,   // tasks dropped because the queue was full
    ledger: L.Account)

  datatype WorkerStep = TryPop | WakeUp | Finish | TestExit

  datatype Step =
    | Spawn                     // constructor: emplace_back
    | Post(x: Task)             // post_work_task
    | Shutdown
    | Work(w: Worker, a: WorkerStep)

  predicate WorkerGuard(s: State, w: Worker, a: WorkerStep) {
    && w in s.workers
    && match a
       case TryPop => s.workers[w] == AtPop
       case WakeUp => s.workers[w] == Napping
       case Finish => s.workers[w] == Running && w in s.ledger.running
       case TestExit => s.workers[w] == AtTest
  }

  predicate Enabled(s: State, a: Step) {
    match a
    case Spawn => s.spawned < s.threads
    case Post(_) => s.spawned == s.threads
    case Shutdown => s.spawned == s.threads
    case Work(w, b) => WorkerGuard(s, w, b)
  }

  predicate Takes(s: State, a: WorkerStep) { a == TryPop && s.queue != [] }

  function NextPlace(s: State, a: WorkerStep): Place {
    match a
    case TryPop => if s.queue == [] then Napping else Running
    case WakeUp => AtTest
    case Finish => AtTest
    case TestExit => if s.exit then Halted else AtPop
  }

  function NextLedger(s: State, w: Worker, a: WorkerStep): L.Account
    requires a == Finish ==> w in s.ledger.running
  {
    if Takes(s, a) then L.Start(s.ledger, w, s.queue[0])
    else if a == Finish then L.Finish(s.ledger, w)
    else s.ledger
  }

  function Apply(s: State, a: Step): State
    requires a.Work? && a.a == Finish ==> a.w in s.ledger.running
  {
    match a
    case Spawn => s.(workers := s.workers[s.spawned := AtPop], spawned := s.spawned + 1)
    case Post(x) =>
      var p := s.(posted := s.posted + [x], queue := Q.Pushed(s.max, s.queue, x));
      if |s.queue| >= s.max then p.(rejected := s.rejected + multiset{x}) else p.(accepted := s.accepted + [x])
    case Shutdown => s.(exit := true)
    case Work(w, b) =>
      s.(workers := s.workers[w := NextPlace(s, b)],
         queue := if Takes(s, b) then s.queue[1..] else s.queue,
         ledger := NextLedger(s, w, b))
  }

  predicate Init(s: State) {
    && Constructible(s.threads) && !s.exit && s.queue == [] && s.spawned == 0 && s.workers == map[]
    && s.posted == s.accepted == [] && s.rejected == multiset{} && s.ledger == L.EMPTY
  }

  ghost predicate Run(states: seq<State>, steps: seq<Step>) {
    && |states| == |steps| + 1
    && Init(states[0])
    && forall i :: 0 <= i < |steps| ==> Enabled(states[i], steps[i]) && states[i + 1] == Apply(states[i], steps[i])
  }

  // ---------- The class ----------

  /** thread_pool.  Each method is one access to the shared data; it does to the object what the
      machine's step does to a state that the object shows. */
  class ThreadPool {
    const threads: nat
    const queue: Q.BoundedQueue<Task>
    var exit: bool

    ghost predicate Shows(s: State)
      reads this, queue
    {
      queue.maxSize == s.max && threads == s.threads && queue.items == s.queue && exit == s.exit
    }

    constructor (max: nat, threads: nat)
      requires Constructible(threads)
      ensures fresh(queue) && this.threads == threads
      ensures forall s :: Init(s) && s.max == max && s.threads == threads ==> Shows(s)
    {
      this.threads := threads;
      queue := new Q.BoundedQueue<Task>(max);
      exit := false;
    }

    method Stop(ghost s: State)
      requires Shows(s)
      modifies this`exit
      ensures Shows(Apply(s, Shutdown)) && exit
    {
      exit := true;
    }

    /** The result of push_back is ignored. */
    method PostWorkTask(x: Task, ghost s: State)
      requires Shows(s)
      modifies queue
      ensures Shows(Apply(s, Post(x)))
      ensures queue.items == if |old(queue.items)| < queue.maxSize then old(queue.items) + [x] else old(queue.items)
    {
      var ok := queue.PushBack(x);
    }

    /** The beginning of process_next_item: a task to run, or none. */
    method NextItem(w: Worker, ghost s: State) returns (got: bool, x: Task)
      requires Shows(s) && WorkerGuard(s, w, TryPop)
      modifies queue
      ensures Shows(Apply(s, Work(w, TryPop)))
      ensures got <==> old(queue.items) != []
      ensures if got then [x] + queue.items == old(queue.items) else queue.items == []
      ensures Apply(s, Work(w, TryPop)).workers[w] == if got then Running else Napping
    {
      got, x := queue.PopFront(0);
      assert got ==> s.queue[1..] == queue.items;
    }

    /** The condition of worker_loop after an item; process_next_item is always true. */
    method GoesOn(w: Worker, ghost s: State) returns (again: bool)
      requires Shows(s) && WorkerGuard(s, w, TestExit)
      ensures again <==> !exit
      ensures Shows(Apply(s, Work(w, TestExit)))
      ensures Apply(s, Work(w, TestExit)).workers[w] == if again then AtPop else Halted
    {
      again := !exit;
    }
  }

  /** The constructor: it throws unless the thread count is in range. */
  method Construct(max: nat, threads: nat) returns (pool: ThreadPool?)
    ensures pool == null <==> threads == 0 || threads >= 1000
    ensures pool != null ==> fresh(pool) && pool.threads == threads && !pool.exit && pool.queue.items == []
    ensures pool != null ==> pool.queue.maxSize == max
  {
    if threads <= 0 || threads >= 1000 { return null; }
    pool := new ThreadPool(max, threads);
    assert pool.Shows(State(max, threads, false, [], 0, map[], [], [], multiset{}, L.EMPTY));
  }

  // ---------- Invariants ----------

  ghost predicate Crew(s: State) {
    && s.spawned <= s.threads
    && (s.exit ==> s.spawned == s.threads)
    && (forall w: Worker :: w in s.workers <==> w < s.spawned)
  }

  ghost predicate Books(s: State) {
    && L.EachOnce(s.ledger)
    && (forall w :: w in s.ledger.running <==> w in s.workers && s.workers[w] == Running)
  }

  ghost predicate Flow(s: State) {
    && s.accepted == s.ledger.started + s.queue
    && multiset(s.posted) == multiset(s.accepted) + s.rejected
    && |s.queue| <= s.max
  }

  ghost predicate Inv(s: State) { Crew(s) && Books(s) && Flow(s) }

  lemma StepKeepsCrew(s: State, a: Step)
    requires Inv(s) && Enabled(s, a)
    ensures Crew(Apply(s, a))
  {
    if a.Work? { assert Apply(s, a).workers.Keys == s.workers.Keys; }
  }

  lemma WorkKeepsBooks(s: State, w: Worker, b: WorkerStep)
    requires Inv(s) && WorkerGuard(s, w, b)
    ensures Books(Apply(s, Work(w, b)))
  {
    if Takes(s, b) {
      assert w !in s.ledger.running;
      L.StartKeepsEachOnce(s.ledger, w, s.queue[0]);
    } else if b == Finish {
      L.FinishKeepsEachOnce(s.ledger, w);
    }
  }

  lemma StepKeepsBooks(s: State, a: Step)
    requires Inv(s) && Enabled(s, a)
    ensures Books(Apply(s, a))
  {
    if a.Work? { WorkKeepsBooks(s, a.w, a.a); } else { assert Apply(s, a).ledger == s.ledger; }
  }

  lemma PostKeepsFlow(s: State, x: Task)
    requires Flow(s)
    ensures Flow(Apply(s, Post(x)))
  {
    assert s.ledger.started + (s.queue + [x]) == (s.ledger.started + s.queue) + [x];
    assert multiset(s.posted + [x]) == multiset(s.posted) + multiset{x};
    assert multiset(s.accepted + [x]) == multiset(s.accepted) + multiset{x};
  }

  lemma WorkKeepsFlow(s: State, w: Worker, b: WorkerStep)
    requires Flow(s) && WorkerGuard(s, w, b)
    ensures Flow(Apply(s, Work(w, b)))
  {
    if Takes(s, b) {
      var x, rest := s.queue[0], s.queue[1..];
      assert s.queue == [x] + rest;
      assert s.ledger.started + ([x] + rest) == (s.ledger.started + [x]) + rest;
    }
  }

  lemma StepKeepsFlow(s: State, a: Step)
    requires Inv(s) && Enabled(s, a)
    ensures Flow(Apply(s, a))
  {
    match a
    case Work(w, b) => WorkKeepsFlow(s, w, b);
    case Post(x) => PostKeepsFlow(s, x);
    case _ =>
  }

  lemma StepKeepsInv(s: State, a: Step)
    requires Inv(s) && Enabled(s, a)
    ensures Inv(Apply(s, a))
  {
    StepKeepsCrew(s, a);
    StepKeepsBooks(s, a);
    StepKeepsFlow(s, a);
  }

  lemma {:induction false} RunKeepsInv(states: seq<State>, steps: seq<Step>, k: nat)
    requires Run(states, steps) && k < |states|
    ensures Inv(states[k])
  {
    if k > 0 {
      RunKeepsInv(states, steps, k - 1);
      StepKeepsInv(states[k - 1], steps[k - 1]);
    }
  }

  // ---------- Main results ----------

  /** Posted tasks split into rejected and accepted ones, each as often as it was posted; the
      accepted ones are the started ones, in order, followed by the queued ones; and each
      started task is being run by one worker or has returned. */
  lemma PostedIsPartitioned(states: seq<State>, steps: seq<Step>, k: nat)
    requires Run(states, steps) && k < |states|
    ensures var s := states[k];
      && multiset(s.posted) == multiset(s.accepted) + s.rejected
      && s.accepted == s.ledger.started + s.queue
      && L.EachOnce(s.ledger) && |s.queue| <= s.max
      && (forall w :: w in s.ledger.running <==> w in s.workers && s.workers[w] == Running)
  {
    RunKeepsInv(states, steps, k);
  }

  function Poppers(m: map<Worker, Place>): set<Worker> { set w | w in m && m[w] == AtPop }

  /** The number of tasks started, plus the workers that will still look for one. */
  function Budget(s: State): nat { |s.ledger.started| + |Poppers(s.workers)| }

  lemma PoppersMove(m: map<Worker, Place>, w: Worker, p: Place)
    ensures Poppers(m[w := p]) == if p == AtPop then Poppers(m) + {w} else Poppers(m) - {w}
  {
  }

  lemma StepKeepsBudget(s: State, a: Step)
    requires Inv(s) && Enabled(s, a) && s.exit
    ensures Apply(s, a).exit && Budget(Apply(s, a)) <= Budget(s)
  {
    if a.Work? {
      PoppersMove(s.workers, a.w, NextPlace(s, a.a));
      assert a.a == TryPop <==> a.w in Poppers(s.workers);
    }
  }

  lemma {:induction false} BudgetOnlyShrinks(states: seq<State>, steps: seq<Step>, i: nat, j: nat)
    requires Run(states, steps) && i <= j < |states| && states[i].exit
    ensures states[j].exit && Budget(states[j]) <= Budget(states[i])
    decreases j
  {
    if j > i {
      BudgetOnlyShrinks(states, steps, i, j - 1);
      RunKeepsInv(states, steps, j - 1);
      StepKeepsBudget(states[j - 1], steps[j - 1]);
    }
  }

  /** After shutdown at most one more task per worker starts, in the whole rest of the run. */
  lemma FewTasksAfterShutdown(states: seq<State>, steps: seq<Step>, i: nat, j: nat)
    requires Run(states, steps) && i <= j < |states| && states[i].exit
    ensures |states[j].ledger.started| <= |states[i].ledger.started| + states[i].threads
  {
    BudgetOnlyShrinks(states, steps, i, j);
    RunKeepsInv(states, steps, i);
    SizeOfRange(states[i].spawned, states[i].workers.Keys);
    SubsetSize(Poppers(states[i].workers), states[i].workers.Keys);
  }

  /** An upper bound on the steps a worker takes after shutdown. */
  function Rank(p: Place): nat {
    match p
    case AtPop => 3
    case Napping => 2
    case Running => 2
    case AtTest => 1
    case Halted => 0
  }

  function Ranks(s: State, n: nat): nat { TotalRank(s.workers, n, Rank) }

  /** Worker steps among the steps i..j of a run. */
  function WorkSteps(steps: seq<Step>, i: nat, j: nat): nat
    requires i <= j <= |steps|
    decreases j
  {
    if i == j then 0 else WorkSteps(steps, i, j - 1) + if steps[j - 1].Work? then 1 else 0
  }

  lemma StepUsesRank(s: State, a: Step)
    requires Inv(s) && Enabled(s, a) && s.exit
    ensures var s' := Apply(s, a);
      && s'.threads == s.threads
      && Ranks(s', s.threads) + (if a.Work? then 1 else 0) <= Ranks(s, s.threads)
  {
    if a.Work? {
      assert Rank(NextPlace(s, a.a)) < Rank(s.workers[a.w]);
      RankMove(s.workers, s.threads, Rank, a.w, NextPlace(s, a.a));
    }
  }

  lemma RunStepUsesRank(states: seq<State>, steps: seq<Step>, i: nat, k: nat, n: nat)
    requires Run(states, steps) && i <= k < |steps| && states[i].exit && states[k].threads == n
    ensures states[k + 1].threads == n
    ensures Ranks(states[k + 1], n) + (if steps[k].Work? then 1 else 0) <= Ranks(states[k], n)
  {
    BudgetOnlyShrinks(states, steps, i, k);
    RunKeepsInv(states, steps, k);
    StepUsesRank(states[k], steps[k]);
  }

  lemma {:induction false} WorkUsesRank(states: seq<State>, steps: seq<Step>, i: nat, j: nat)
    requires Run(states, steps) && i <= j < |states| && states[i].exit
    ensures var n := states[i].threads;
      && states[j].threads == n
      && WorkSteps(steps, i, j) + Ranks(states[j], n) <= Ranks(states[i], n)
    decreases j
  {
    if j > i {
      WorkUsesRank(states, steps, i, j - 1);
      RunStepUsesRank(states, steps, i, j - 1, states[i].threads);
    }
  }

  /** After shutdown the workers take at most three steps each in all. */
  lemma WorkersHalt(states: seq<State>, steps: seq<Step>, i: nat, j: nat)
    requires Run(states, steps) && i <= j < |states| && states[i].exit
    ensures WorkSteps(steps, i, j) <= 3 * states[i].threads
  {
    WorkUsesRank(states, steps, i, j);
    RankBound(states[i].workers, states[i].threads, Rank, 3);
  }

  /** No worker halts before shutdown. */
  lemma {:induction false} HaltsOnlyAfterShutdown(states: seq<State>, steps: seq<Step>, k: nat, w: Worker)
    requires Run(states, steps) && k < |states| && w in states[k].workers && states[k].workers[w] == Halted
    ensures states[k].exit
  {
    if k > 0 {
      RunKeepsInv(states, steps, k - 1);
      HaltStep(states[k - 1], steps[k - 1], w);
      if !HaltedAt(states[k], w) || HaltedAt(states[k - 1], w) { HaltsOnlyAfterShutdown(states, steps, k - 1, w); }
    }
  }

  predicate HaltedAt(s: State, w: Worker) { w in s.workers && s.workers[w] == Halted }

  lemma HaltStep(s: State, a: Step, w: Worker)
    requires Enabled(s, a) && HaltedAt(Apply(s, a), w)
    ensures HaltedAt(s, w) || s.exit
    ensures s.exit ==> Apply(s, a).exit
  {
  }

  /** The exit flag is set by shutdown, and by nothing else. */
  lemma {:induction false} ExitIff(states: seq<State>, steps: seq<Step>, k: nat)
    requires Run(states, steps) && k < |states|
    ensures states[k].exit <==> Shutdown in steps[..k]
  {
    if k > 0 {
      ExitIff(states, steps, k - 1);
      assert steps[..k] == steps[..k - 1] + [steps[k - 1]];
    }
  }

  /** A post is accepted, behind all others, iff the queue is below its bound; else it is rejected. */
  lemma PostIsAcceptedIff(states: seq<State>, steps: seq<Step>, k: nat, x: Task)
    requires Run(states, steps) && k < |steps| && steps[k] == Post(x)
    ensures var s, t := states[k], states[k + 1];
      && t.posted == s.posted + [x]
      && t.accepted == s.accepted + (if |s.queue| < s.max then [x] else [])
      && t.queue == s.queue + (if |s.queue| < s.max then [x] else [])
      && t.rejected == s.rejected + (if |s.queue| < s.max then multiset{} else multiset{x})
  {
  }

  ghost predicate Leads(s: State, next: seq<Step>, t: State)
    decreases |next|
  {
    if next == [] then s == t else Enabled(s, next[0]) && Leads(Apply(s, next[0]), next[1..], t)
  }

  function NextOf(p: Place): WorkerStep {
    match p
    case AtPop => TryPop
    case Napping => WakeUp
    case Running => Finish
    case _ => TestExit
  }

  /** How many of its own steps take a worker to the queue, when there is no shutdown. */
  function ToPop(p: Place): nat {
    match p
    case AtPop => 0
    case AtTest => 1
    case _ => 2
  }

  /** While the pool is not shut down, any worker starts the oldest task by at most three of its own
      steps. */
  lemma {:induction false} WorkerStartsOldest(s: State, w: Worker) returns (next: seq<Step>, t: State)
    requires Inv(s) && !s.exit && s.queue != [] && w in s.workers && s.workers[w] != Halted
    ensures Leads(s, next, t) && |next| <= ToPop(s.workers[w]) + 1 && forall a <- next :: a.Work? && a.w == w
    ensures t.ledger.started == s.ledger.started + [s.queue[0]] && t.queue == s.queue[1..]
    decreases ToPop(s.workers[w])
  {
    var a := Work(w, NextOf(s.workers[w]));
    var u := Apply(s, a);
    if s.workers[w] == AtPop {
      next, t := [a], u;
      assert next[1..] == [];
    } else {
      StepKeepsInv(s, a);
      var more;
      more, t := WorkerStartsOldest(u, w);
      next := [a] + more;
      assert next[1..] == more;
    }
  }

  lemma QueuedTaskCanStart(states: seq<State>, steps: seq<Step>, k: nat, w: Worker)
    returns (next: seq<Step>, t: State)
    requires Run(states, steps) && k < |states| && !states[k].exit && states[k].queue != []
    requires w in states[k].workers
    ensures Leads(states[k], next, t) && |next| <= 3 && forall a <- next :: a.Work? && a.w == w
    ensures t.ledger.started == states[k].ledger.started + [states[k].queue[0]]
  {
    RunKeepsInv(states, steps, k);
    if states[k].workers[w] == Halted { HaltsOnlyAfterShutdown(states, steps, k, w); }
    next, t := WorkerStartsOldest(states[k], w);
  }

  /** And a worker that has not halted always has a step to take, so it does halt. */
  lemma UnhaltedCanStep(states: seq<State>, steps: seq<Step>, k: nat, w: Worker) returns (a: WorkerStep)
    requires Run(states, steps) && k < |states|
    requires w in states[k].workers && states[k].workers[w] != Halted
    ensures Enabled(states[k], Work(w, a))
    ensures states[k].exit ==> Rank(NextPlace(states[k], a)) < Rank(states[k].workers[w])
    ensures !states[k].exit ==> NextPlace(states[k], a) != Halted
  {
    RunKeepsInv(states, steps, k);
    match states[k].workers[w]
    case AtPop => a := TryPop;
    case Napping => a := WakeUp;
    case Running => a := Finish;
    case AtTest => a := TestExit;
  }
}
