/** Which tasks of a pool have started, which worker took which of them, and which have
    returned.  Both thread pools keep this account of their workers. */
module Ledger {

  type Task = nat
  type Worker = nat

  /** `taker`, `running` and `done` name tasks by their position in `started`. */
  datatype Account = Account(started: seq<Task>, taker: seq<Worker>, running: map<Worker, nat>, done: set<nat>)

  const EMPTY := Account([], [], map[], {})

  function Start(l: Account, w: Worker, x: Task): Account {
    Account(l.started + [x], l.taker + [w], l.running[w := |l.started|], l.done)
  }

  function Finish(l: Account, w: Worker): Account
    requires w in l.running
  {
    Account(l.started, l.taker, l.running - {w}, l.done + {l.running[w]})
  }

  /** Every started task is either being run by the one worker that took it, or has
      returned. */
  ghost predicate EachOnce(l: Account) {
    && |l.taker| == |l.started|
    && (forall w <- l.running ::
         l.running[w] < |l.started| && l.taker[l.running[w]] == w && l.running[w] !in l.done)
    && (forall i <- l.done :: i < |l.started|)
    && (forall i: nat :: i < |l.started| ==>
         i in l.done || (l.taker[i] in l.running && l.running[l.taker[i]] == i))
  }

  lemma StartKeepsEachOnce(l: Account, w: Worker, x: Task)
    requires EachOnce(l) && w !in l.running
    ensures EachOnce(Start(l, w, x))
  {
  }

  lemma FinishKeepsEachOnce(l: Account, w: Worker)
    requires EachOnce(l) && w in l.running
    ensures EachOnce(Finish(l, w))
  {
  }

  /** All started tasks have returned exactly when no worker is running one. */
  lemma QuietMeansDone(l: Account)
    requires EachOnce(l)
    ensures l.running == map[] <==> forall i: nat :: i in l.done <==> i < |l.started|
  {
    if l.running != map[] {
      var w :| w in l.running;
      assert l.running[w] !in l.done;
    }
  }
}
