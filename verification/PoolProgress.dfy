/** What the workers of std::threadpool will do: a queued task is never forgotten, workers that
    were told to stop can leave, and what that means for a commit that is still under way. */
module PoolProgress {
  import opened Counting
  import opened TaskPool

  // ---------- Waking up for work ----------

  /** A worker that will come to the lock by itself. */
  predicate Up(s: State, w: Worker) {
    At(s, w, Ready) || At(s, w, Running) || At(s, w, Finished) || At(s, w, Recounting)
  }

  ghost predicate AnyAsleep(s: State) { exists w :: At(s, w, Asleep) }

  /** A queued task has somebody who will take it, unless nobody sleeps who could; and nobody is
      about to sleep on a queued task. */
  ghost predicate Heeded(s: State) {
    && (s.core.tasks != [] ==> s.owed > 0 || (exists w :: Up(s, w)) || !AnyAsleep(s))
    && (s.core.tasks != [] ==> LockFree(s))
  }

  lemma WorkKeepsHeeded(s: State, w: Worker, b: WorkerStep)
    requires Heeded(s) && WorkerGuard(s, w, b) && !Retires(s.core)
    ensures Heeded(WorkerUpdate(s, w, b))
  {
    var s' := WorkerUpdate(s, w, b);
    if s'.core.tasks != [] {
      assert !At(s, w, Deciding);
      assert Up(s', w);
      assert forall u :: At(s', u, Deciding) ==> At(s, u, Deciding);
    }
  }

  lemma OwnerKeepsHeeded(s: State, o: OwnerStep)
    requires Inv(s) && Heeded(s) && Enabled(s, Own(o))
    ensures Heeded(OwnerUpdate(s, o))
  {
    var s' := OwnerUpdate(s, o);
    if s.core.tasks != [] {
      assert forall u :: Up(s, u) ==> Up(s', u);
      assert forall u :: At(s', u, Deciding) ==> At(s, u, Deciding);
      assert forall u :: At(s', u, Asleep) ==> At(s, u, Asleep);
    }
  }

  lemma CallerKeepsHeeded(s: State, c: CallerStep)
    requires Heeded(s) && Enabled(s, Call(c))
    ensures Heeded(CallerUpdate(s, c))
  {
    var s' := CallerUpdate(s, c);
    assert forall u :: Up(s, u) ==> Up(s', u);
    assert forall u :: At(s', u, Deciding) ==> At(s, u, Deciding);
    assert forall u :: At(s', u, Asleep) ==> At(s, u, Asleep);
    if c.NotifyOne? {
      if At(s, c.w, Asleep) {
        assert Up(s', c.w);
      } else {
        assert s'.workers == s.workers && !AnyAsleep(s);
      }
    }
  }

  lemma {:induction false} RunKeepsHeeded(states: seq<State>, steps: seq<Step>, k: nat)
    requires Run(states, steps) && k < |states|
    ensures Heeded(states[k])
  {
    if k > 0 {
      RunKeepsHeeded(states, steps, k - 1);
      RunKeepsInv(states, steps, k - 1);
      match steps[k - 1]
      case Own(o) => OwnerKeepsHeeded(states[k - 1], o);
      case Call(c) => CallerKeepsHeeded(states[k - 1], c);
      case Work(w, b) => WorkKeepsHeeded(states[k - 1], w, b);
    }
  }

  ghost predicate Leads(s: State, next: seq<Step>, t: State)
    decreases |next|
  {
    if next == [] then s == t else Enabled(s, next[0]) && Leads(Apply(s, next[0]), next[1..], t)
  }

  /** A worker that is up reaches the lock and takes a task. */
  lemma UpWorkerTakes(s: State, w: Worker) returns (next: seq<Step>, t: State)
    requires Inv(s) && Heeded(s) && s.core.tasks != [] && Up(s, w)
    ensures Leads(s, next, t) && |next| <= Rank(s.workers[w]) && Spontaneous(next)
    ensures t.ledger.started == s.ledger.started + [s.core.tasks[0]]
    decreases Rank(s.workers[w])
  {
    var b := NextStep(s.workers[w]);
    var s' := WorkerUpdate(s, w, b);
    if b == Lock {
      next, t := [Work(w, b)], s';
      assert next[1..] == [];
    } else {
      assert !Retires(s.core);
      assert Enabled(s, Work(w, b));
      StepKeepsInv(s, Work(w, b));
      WorkKeepsHeeded(s, w, b);
      var more;
      more, t := UpWorkerTakes(s', w);
      next := [Work(w, b)] + more;
      assert next[1..] == more;
    }
  }

  /** Steps that need no spurious wakeup, no commit and no destructor. */
  predicate Spontaneous(next: seq<Step>) {
    forall a <- next :: (a.Work? && a.a != Spurious) || (a.Call? && a.c.NotifyOne?)
  }

  /** The step a worker takes next; a sleeping one wakes up. */
  function NextStep(p: Place): WorkerStep {
    match p
    case Deciding => FallAsleep
    case Asleep => Spurious
    case Running => Finish
    case Finished => RetireOrNot
    case Recounting => Recount
    case _ => Lock
  }

  /** The steps a worker needs to leave, when nothing is queued. */
  function Rank(p: Place): nat {
    match p
    case Ready => 1
    case Asleep => 2
    case Recounting => 2
    case Deciding => 3
    case Finished => 3
    case Running => 4
    case _ => 0
  }

  /** No commit is forgotten: from every reachable state with a task queued, unless all workers
      have left, the oldest task is started by at most four steps of calls and workers under
      way, none of them a spurious wakeup. */
  lemma QueuedTaskCanStart(states: seq<State>, steps: seq<Step>, k: nat) returns (next: seq<Step>, t: State)
    requires Run(states, steps) && k < |states|
    requires states[k].core.tasks != [] && !AllLeft(states[k])
    ensures Leads(states[k], next, t) && |next| <= 4 && Spontaneous(next)
    ensures t.ledger.started == states[k].ledger.started + [states[k].core.tasks[0]]
  {
    RunKeepsInv(states, steps, k);
    RunKeepsHeeded(states, steps, k);
    var s := states[k];
    if w :| Up(s, w) {
      next, t := UpWorkerTakes(s, w);
    } else {
      var w :| w in s.workers && s.workers[w] != Exited && s.workers[w] != Retired;
      assert !At(s, w, Deciding) && !Up(s, w);
      assert At(s, w, Asleep);
      var a := Call(NotifyOne(w));
      var s' := Apply(s, a);
      StepKeepsInv(s, a);
      CallerKeepsHeeded(s, NotifyOne(w));
      var more;
      more, t := UpWorkerTakes(s', w);
      next := [a] + more;
      assert next[1..] == more;
    }
  }

  // ---------- Shutdown without a guard ----------

  /** The work left: at most six steps for each queued task, and what each worker needs to leave. */
  function Remaining(s: State): nat { 6 * |s.core.tasks| + TotalRank(s.workers, s.core.pool, Rank) }

  lemma StepUsesRemaining(s: State, w: Worker, b: WorkerStep)
    requires Inv(s) && WorkerGuard(s, w, b) && b == NextStep(s.workers[w]) && !s.core.run
    requires s.workers[w] != Exited && s.workers[w] != Retired
    ensures Remaining(WorkerUpdate(s, w, b)) < Remaining(s)
  {
    RankMove(s.workers, s.core.pool, Rank, w, NextPlace(s, b));
  }

  /** Some worker that has not left can take its next step. */
  lemma SomeWorkerCanStep(s: State) returns (w: Worker)
    requires Inv(s) && Constructed(s) && !AllLeft(s)
    ensures w in s.workers && s.workers[w] != Exited && s.workers[w] != Retired
    ensures WorkerGuard(s, w, NextStep(s.workers[w]))
  {
    if u :| At(s, u, Deciding) {
      w := u;
    } else {
      w :| w in s.workers && s.workers[w] != Exited && s.workers[w] != Retired;
    }
  }

  /** After shutdown the workers can all leave before any commit under way goes on. */
  lemma {:induction false} WorkersCanLeave(states: seq<State>, steps: seq<Step>)
    returns (more: seq<State>, next: seq<Step>)
    requires Run(states, steps) && Constructed(states[|steps|]) && !states[|steps|].core.run
    ensures Continues(states, steps, more, next) && AllLeft(more[|next|]) && !more[|next|].core.run
    ensures more[|next|].entering == states[|steps|].entering
    decreases Remaining(states[|steps|])
  {
    var s := states[|steps|];
    if AllLeft(s) {
      more, next := states, steps;
    } else {
      RunKeepsInv(states, steps, |steps|);
      var w := SomeWorkerCanStep(s);
      var b := NextStep(s.workers[w]);
      StepUsesRemaining(s, w, b);
      var s' := WorkerUpdate(s, w, b);
      more, next := Extend(states, steps, Work(w, b), s');
      more, next := WorkersCanLeave(more, next);
    }
  }

  /** A commit under way at shutdown can be overtaken by the workers: its task is pushed when
      they have all left. */
  lemma CommitCanBeLost(states: seq<State>, steps: seq<Step>, x: Task)
    returns (more: seq<State>, next: seq<Step>)
    requires Run(states, steps) && Constructed(states[|steps|]) && !states[|steps|].core.run
    requires x in states[|steps|].entering
    ensures Continues(states, steps, more, next)
    ensures var t := more[|next|];
      AllLeft(t) && t.core.tasks != [] && t.core.tasks[|t.core.tasks| - 1] == x && !AllDone(t)
  {
    more, next := WorkersCanLeave(states, steps);
    var s := more[|next|];
    assert LockFree(s);
    more, next := Extend(more, next, Call(Push(x)), CallerUpdate(s, Push(x)));
    var t := more[|next|];
    assert AllLeft(t);
    DrainedAtExit(more, next, |next|);
  }

  /** Once all workers have left nothing starts any more. */
  lemma {:induction false} NothingStartsAfterwards(states: seq<State>, steps: seq<Step>, i: nat, j: nat)
    requires Run(states, steps) && i <= j < |states| && AllLeft(states[i])
    ensures AllLeft(states[j]) && states[j].ledger.started == states[i].ledger.started
    decreases j
  {
    if j > i {
      NothingStartsAfterwards(states, steps, i, j - 1);
      RunKeepsInv(states, steps, j - 1);
      LeftStep(states[j - 1], steps[j - 1]);
    }
  }

  lemma LeftStep(s: State, a: Step)
    requires Inv(s) && Enabled(s, a) && AllLeft(s)
    ensures AllLeft(Apply(s, a)) && Apply(s, a).ledger.started == s.ledger.started
  {
  }

  /** A pool of size 0 never starts a task. */
  lemma {:induction false} EmptyPoolStartsNothing(states: seq<State>, steps: seq<Step>, k: nat)
    requires Run(states, steps) && k < |states| && states[k].core.pool == 0
    ensures states[k].ledger.started == []
  {
    if k > 0 {
      RunKeepsInv(states, steps, k - 1);
      EmptyPoolStep(states[k - 1], steps[k - 1]);
      EmptyPoolStartsNothing(states, steps, k - 1);
    }
  }

  lemma EmptyPoolStep(s: State, a: Step)
    requires Inv(s) && Enabled(s, a) && Apply(s, a).core.pool == 0
    ensures s.core.pool == 0 && Apply(s, a).ledger.started == s.ledger.started
  {
  }

  /** Nothing that a pool of size 0 has queued at shutdown is ever run. */
  lemma EmptyPoolAtShutdown(states: seq<State>, steps: seq<Step>, i: nat, j: nat)
    requires Run(states, steps) && i <= j < |states| && Constructed(states[i]) && states[i].core.pool == 0
    requires !states[i].core.run && states[i].entering == multiset{}
    ensures AllLeft(states[j]) && (AllDone(states[j]) <==> states[i].committed == [])
  {
    RunKeepsInv(states, steps, i);
    EmptyPoolStartsNothing(states, steps, i);
    assert states[i].workers == map[];
    assert AllLeft(states[i]) && states[i].core.tasks == states[i].committed;
    NothingStartsAfterwards(states, steps, i, j);
    NoPushAfterShutdown(states, steps, i, j);
    DrainedAtExit(states, steps, j);
  }

  /** The destructor's guarantee is exact, for every pool: every way to go on from the moment
      `_run` is cleared ends, when the workers have left, with all committed tasks done iff at
      that moment no commit is under way, and there is a worker or nothing was committed. */
  lemma ShutdownIsCleanIff(states: seq<State>, steps: seq<Step>)
    requires Run(states, steps) && steps != [] && steps[|steps| - 1] == Own(ClearRun)
    ensures (forall more, next :: Continues(states, steps, more, next) && AllLeft(more[|next|]) ==>
               AllDone(more[|next|]))
       <==> var s := states[|steps|];
            s.entering == multiset{} && (s.core.pool > 0 || s.committed == [])
  {
    var i := |steps| - 1;
    assert states[i + 1] == Apply(states[i], steps[i]);
    var s := states[i + 1];
    if s.entering != multiset{} {
      var x :| x in s.entering;
      var more, next := CommitCanBeLost(states, steps, x);
    } else if s.core.pool == 0 {
      EmptyPoolAtShutdown(states, steps, i + 1, i + 1);
      assert Continues(states, steps, states, steps);
      forall more: seq<State>, next: seq<Step> | Continues(states, steps, more, next)
        ensures AllDone(more[|next|]) <==> s.committed == []
      {
        assert more[i + 1] == s;
        EmptyPoolAtShutdown(more, next, i + 1, |next|);
      }
    } else {
      forall more: seq<State>, next: seq<Step> | Continues(states, steps, more, next) && AllLeft(more[|next|])
        ensures AllDone(more[|next|])
      {
        assert more[i] == states[i] && next[i] == steps[i];
        CleanShutdown(more, next, i, |next|);
      }
    }
  }
}
