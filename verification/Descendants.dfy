/** KillAllDescendantProcess (OsApi_Win32.cpp): which processes of a snapshot are terminated. */
module Descendants {
  import opened Wrappers
  import opened Counting

  datatype Entry = Entry(pid: int, parent: int)

  type Parents = map<int, int>

  /** A later entry of a process id replaces an earlier one. */
  function ParentMap(snapshot: seq<Entry>): Parents {
    if snapshot == [] then map[]
    else
      var last := snapshot[|snapshot| - 1];
      ParentMap(snapshot[..|snapshot| - 1])[last.pid := last.parent]
  }

  lemma {:induction false} ParentMapKeepsLast(snapshot: seq<Entry>, i: nat)
    requires i < |snapshot|
    requires forall j :: i < j < |snapshot| ==> snapshot[j].pid != snapshot[i].pid
    ensures snapshot[i].pid in ParentMap(snapshot) && ParentMap(snapshot)[snapshot[i].pid] == snapshot[i].parent
  {
    var n := |snapshot| - 1;
    if i < n {
      assert snapshot[n].pid != snapshot[i].pid;
      ParentMapKeepsLast(snapshot[..n], i);
    }
  }

  lemma {:induction false} ParentMapKeys(snapshot: seq<Entry>)
    ensures forall p :: p in ParentMap(snapshot) <==> exists i :: 0 <= i < |snapshot| && snapshot[i].pid == p
  {
    if snapshot != [] {
      var n := |snapshot| - 1;
      ParentMapKeys(snapshot[..n]);
      forall p ensures p in ParentMap(snapshot) <==> exists i :: 0 <= i < |snapshot| && snapshot[i].pid == p {
        if p in ParentMap(snapshot) && p != snapshot[n].pid {
          assert p in ParentMap(snapshot[..n]);
          var i :| 0 <= i < n && snapshot[..n][i].pid == p;
          assert snapshot[i].pid == p;
        }
        if i :| 0 <= i < |snapshot| && snapshot[i].pid == p && i < n {
          assert snapshot[..n][i].pid == p;
        }
      }
    }
  }

  // ---------- Descent ----------

  /** The k-th ancestor, whatever its value, as long as the map knows the way. */
  function Ancestor(m: Parents, pid: int, k: nat): Option<int> {
    if k == 0 then Some(pid)
    else
      var a := Ancestor(m, pid, k - 1);
      if a.Some? && a.value in m then Some(m[a.value]) else None
  }

  /** Following k parents leads to the target, past processes with positive ids. */
  predicate Path(m: Parents, pid: int, target: int, k: nat) {
    && k >= 1
    && Ancestor(m, pid, k) == Some(target)
    && forall i :: 1 <= i < k ==> Ancestor(m, pid, i).Some? && Ancestor(m, pid, i).value > 0
  }

  ghost predicate Descends(m: Parents, pid: int, target: int) { exists k: nat :: Path(m, pid, target, k) }

  /** The ancestors of a parent are those of the child, one later. */
  lemma {:induction false} ParentsAncestor(m: Parents, pid: int, k: nat)
    requires pid in m
    ensures Ancestor(m, m[pid], k) == Ancestor(m, pid, k + 1)
  {
    assert Ancestor(m, pid, 1) == Some(m[pid]) by { assert Ancestor(m, pid, 0) == Some(pid); }
    if k > 0 { ParentsAncestor(m, pid, k - 1); }
  }

  /** A process descends from the target iff the target, or a descendant with a positive id, is
      its parent. */
  lemma DescendsByParent(m: Parents, pid: int, target: int)
    ensures Descends(m, pid, target)
       <==> pid in m && (m[pid] == target || (m[pid] > 0 && Descends(m, m[pid], target)))
  {
    assert Ancestor(m, pid, 0) == Some(pid);
    if k: nat :| Path(m, pid, target, k) {
      PathThroughParent(m, pid, target, k);
    }
    if pid in m {
      ParentsAncestor(m, pid, 0);
      if m[pid] == target { assert Path(m, pid, target, 1); }
      if m[pid] > 0 && Descends(m, m[pid], target) {
        var k: nat :| Path(m, m[pid], target, k);
        forall i: nat ensures Ancestor(m, m[pid], i) == Ancestor(m, pid, i + 1) { ParentsAncestor(m, pid, i); }
        assert forall i: nat :: 1 <= i <= k ==> Ancestor(m, pid, i) == Ancestor(m, m[pid], i - 1);
        assert Path(m, pid, target, k + 1);
      }
    }
  }

  lemma PathThroughParent(m: Parents, pid: int, target: int, k: nat)
    requires Path(m, pid, target, k)
    ensures pid in m
    ensures m[pid] == target || (m[pid] > 0 && Descends(m, m[pid], target))
  {
    assert Ancestor(m, pid, 0) == Some(pid) && Ancestor(m, pid, 1).Some?;
    ParentsAncestor(m, pid, 0);
    if k > 1 {
      forall i: nat ensures Ancestor(m, m[pid], i) == Ancestor(m, pid, i + 1) { ParentsAncestor(m, pid, i); }
      assert Path(m, m[pid], target, k - 1);
    }
  }

  /** Every set closed under "is a child of the target or of a positive member" contains all
      descendants: the walk selects no more than the transitive closure. */
  lemma {:induction false} DescendantsAreLeast(m: Parents, target: int, s: set<int>, pid: int, k: nat)
    requires Path(m, pid, target, k)
    requires forall p <- m :: m[p] == target || (m[p] > 0 && m[p] in s) ==> p in s
    ensures pid in s
    decreases k
  {
    PathThroughParent(m, pid, target, k);
    if m[pid] != target {
      ParentsAncestor(m, pid, 0);
      forall i: nat ensures Ancestor(m, m[pid], i) == Ancestor(m, pid, i + 1) { ParentsAncestor(m, pid, i); }
      DescendantsAreLeast(m, target, s, m[pid], k - 1);
    }
  }

  // ---------- When the walk ends ----------

  /** The walk has gone on for k parents: each is known, positive and not the target. */
  predicate Open(m: Parents, pid: int, target: int, k: nat) {
    forall i :: 1 <= i <= k ==>
      Ancestor(m, pid, i).Some? && Ancestor(m, pid, i).value > 0 && Ancestor(m, pid, i).value != target
  }

  /** The walk from this process ends. */
  ghost predicate Halts(m: Parents, pid: int, target: int) { exists k: nat :: !Open(m, pid, target, k) }

  ghost predicate Repeats(m: Parents, pid: int, k: nat) {
    exists i: nat, j: nat :: i < j < k && Ancestor(m, pid, i) == Ancestor(m, pid, j)
  }

  /** Following more parents than the map has keys, the walk must come back. */
  lemma LongWalkRepeats(m: Parents, pid: int, target: int, k: nat)
    requires Open(m, pid, target, k) && k > |m.Keys|
    ensures Repeats(m, pid, k)
  {
    forall i: nat | i < k ensures Ancestor(m, pid, i).Some? && Ancestor(m, pid, i).value in m.Keys {
      assert Ancestor(m, pid, i + 1).Some?;
    }
    var walk := seq(k, i requires 0 <= i < k => Ancestor(m, pid, i).value);
    var i, j := Pigeonhole(walk, m.Keys);
    assert walk[i] == walk[j];
  }

  /** After a repetition every later ancestor is one seen before it. */
  lemma {:induction false} AncestorsRecur(m: Parents, pid: int, i: nat, j: nat, k: nat)
    requires i < j && Ancestor(m, pid, i) == Ancestor(m, pid, j) && k >= j
    ensures exists l: nat :: i < l <= j && Ancestor(m, pid, k) == Ancestor(m, pid, l)
  {
    if k == j {
    } else {
      AncestorsRecur(m, pid, i, j, k - 1);
      var l: nat :| i < l <= j && Ancestor(m, pid, k - 1) == Ancestor(m, pid, l);
      if l < j {
        assert Ancestor(m, pid, k) == Ancestor(m, pid, l + 1);
      } else {
        assert Ancestor(m, pid, k) == Ancestor(m, pid, i + 1);
      }
    }
  }

  /** A walk ends iff it ends before it has followed more parents than the map has keys. */
  lemma HaltsInTime(m: Parents, pid: int, target: int)
    ensures Halts(m, pid, target) <==> !Open(m, pid, target, |m.Keys| + 1)
  {
    var n := |m.Keys| + 1;
    if Open(m, pid, target, n) {
      LongWalkRepeats(m, pid, target, n);
      var i: nat, j: nat :| i < j < n && Ancestor(m, pid, i) == Ancestor(m, pid, j);
      RepetitionNeverEnds(m, pid, target, i, j);
    }
  }

  lemma RepetitionNeverEnds(m: Parents, pid: int, target: int, i: nat, j: nat)
    requires i < j && Open(m, pid, target, j) && Ancestor(m, pid, i) == Ancestor(m, pid, j)
    ensures !Halts(m, pid, target)
  {
    forall k: nat ensures Open(m, pid, target, k) {
      forall l: nat | 1 <= l <= k
        ensures Ancestor(m, pid, l).Some? && Ancestor(m, pid, l).value > 0 && Ancestor(m, pid, l).value != target
      {
        if l > j { AncestorsRecur(m, pid, i, j, l); }
      }
    }
  }

  /** A cycle of positive ids that avoids the target. */
  ghost predicate AvoidingCycle(m: Parents, target: int, p: int) {
    exists k: nat :: k >= 1 && Open(m, p, target, k) && Ancestor(m, p, k) == Some(p)
  }

  lemma {:induction false} LaterAncestor(m: Parents, pid: int, i: nat, k: nat)
    requires Ancestor(m, pid, i).Some?
    ensures Ancestor(m, Ancestor(m, pid, i).value, k) == Ancestor(m, pid, i + k)
  {
    if k > 0 { LaterAncestor(m, pid, i, k - 1); }
  }

  /** All walks from known processes end iff no cycle avoids the target. */
  lemma AllHaltIffNoAvoidingCycle(m: Parents, target: int)
    ensures (forall p <- m :: Halts(m, p, target)) <==> (forall p <- m :: !AvoidingCycle(m, target, p))
  {
    forall p | p in m && AvoidingCycle(m, target, p) ensures !Halts(m, p, target) {
      var k: nat :| k >= 1 && Open(m, p, target, k) && Ancestor(m, p, k) == Some(p);
      RepetitionNeverEnds(m, p, target, 0, k);
    }
    forall p | p in m && !Halts(m, p, target) ensures exists q :: q in m && AvoidingCycle(m, target, q) {
      CycleOnEndlessWalk(m, p, target);
    }
  }

  lemma CycleOnEndlessWalk(m: Parents, p: int, target: int)
    requires !Halts(m, p, target)
    ensures exists q :: q in m && AvoidingCycle(m, target, q)
  {
    var n := |m.Keys| + 1;
    LongWalkRepeats(m, p, target, n);
    var i: nat, j: nat :| i < j < n && Ancestor(m, p, i) == Ancestor(m, p, j);
    assert Open(m, p, target, n);
    assert Ancestor(m, p, i + 1).Some?;
    var q := Ancestor(m, p, i).value;
    forall k: nat ensures Ancestor(m, q, k) == Ancestor(m, p, i + k) { LaterAncestor(m, p, i, k); }
    assert Open(m, q, target, j - i) && Ancestor(m, q, j - i) == Some(q);
  }

  /** Two processes that name each other as parent, as reused ids can: the walk from either goes
      round for ever. */
  lemma MutualParents()
    ensures var m := ParentMap([Entry(4, 8), Entry(8, 4)]); AvoidingCycle(m, 12, 4) && !Halts(m, 4, 12)
  {
    var s := [Entry(4, 8), Entry(8, 4)];
    var m := ParentMap(s);
    ParentMapKeepsLast(s, 0);
    ParentMapKeepsLast(s, 1);
    assert Ancestor(m, 4, 0) == Some(4);
    assert Ancestor(m, 4, 1) == Some(8);
    assert Ancestor(m, 4, 2) == Some(4);
    RepetitionNeverEnds(m, 4, 12, 0, 2);
  }

  // ---------- The function ----------

  function Pids(snapshot: seq<Entry>): (r: seq<int>)
    ensures |r| == |snapshot| && forall i :: 0 <= i < |r| ==> r[i] == snapshot[i].pid
  {
    seq(|snapshot|, i requires 0 <= i < |snapshot| => snapshot[i].pid)
  }

  /** `at` are the places in a list, in order, of what descends from the target. */
  ghost predicate Selects(at: seq<nat>, pids: seq<int>, m: Parents, target: int) {
    && (forall k :: 0 <= k < |at| ==> at[k] < |pids|)
    && (forall k, l :: 0 <= k < l < |at| ==> at[k] < at[l])
    && (forall i :: 0 <= i < |pids| ==> (i in at <==> Descends(m, pids[i], target)))
  }

  ghost predicate IsAt(killed: seq<int>, at: seq<nat>, pids: seq<int>) {
    |killed| == |at| && forall k :: 0 <= k < |at| ==> at[k] < |pids| && killed[k] == pids[at[k]]
  }

  /** Descendants occur as often as they are listed, other ids not at all. */
  ghost predicate Counted(killed: seq<int>, pids: seq<int>, m: Parents, target: int) {
    forall p :: multiset(killed)[p] == if Descends(m, p, target) then multiset(pids)[p] else 0
  }

  ghost function Places(pids: seq<int>, m: Parents, target: int): seq<nat> {
    if pids == [] then []
    else
      var n := |pids| - 1;
      Places(pids[..n], m, target) + if Descends(m, pids[n], target) then [n] else []
  }

  ghost function DescendantsOf(pids: seq<int>, m: Parents, target: int): seq<int> {
    if pids == [] then []
    else
      var n := |pids| - 1;
      DescendantsOf(pids[..n], m, target) + if Descends(m, pids[n], target) then [pids[n]] else []
  }

  lemma {:induction false} PlacesSelect(pids: seq<int>, m: Parents, target: int)
    ensures Selects(Places(pids, m, target), pids, m, target)
  {
    if pids != [] { PlacesSelect(pids[..|pids| - 1], m, target); }
  }

  lemma {:induction false} DescendantsAreAtPlaces(pids: seq<int>, m: Parents, target: int)
    ensures IsAt(DescendantsOf(pids, m, target), Places(pids, m, target), pids)
  {
    if pids != [] { DescendantsAreAtPlaces(pids[..|pids| - 1], m, target); }
  }

  lemma {:induction false} DescendantsAreCounted(pids: seq<int>, m: Parents, target: int)
    ensures Counted(DescendantsOf(pids, m, target), pids, m, target)
  {
    if pids != [] {
      var rest, p := pids[..|pids| - 1], pids[|pids| - 1];
      DescendantsAreCounted(rest, m, target);
      assert pids == rest + [p];
      assert multiset(pids) == multiset(rest) + multiset{p};
      var d := DescendantsOf(rest, m, target);
      assert multiset(d + [p]) == multiset(d) + multiset{p};
    }
  }

  /** The ids terminated, in list order: those of the listed processes that descend from the
      target, each as often as it is listed.  `at` are their places in the list. */
  method KillAllDescendantProcess(target: int, snapshot: seq<Entry>) returns (killed: seq<int>, ghost at: seq<nat>)
    requires target > 0 ==> forall p <- ParentMap(snapshot) :: !AvoidingCycle(ParentMap(snapshot), target, p)
    ensures target <= 0 ==> killed == []
    ensures target > 0 ==> Selects(at, Pids(snapshot), ParentMap(snapshot), target)
    ensures target > 0 ==> IsAt(killed, at, Pids(snapshot))
    ensures target > 0 ==> Counted(killed, Pids(snapshot), ParentMap(snapshot), target)
  {
    if 0 >= target { return [], []; }
    var pids: seq<int>, m: Parents := [], map[];
    var i := 0;
    while i < |snapshot|
      invariant 0 <= i <= |snapshot|
      invariant pids == Pids(snapshot[..i]) && m == ParentMap(snapshot[..i])
    {
      pids, m := pids + [snapshot[i].pid], m[snapshot[i].pid := snapshot[i].parent];
      i := i + 1;
      assert snapshot[..i][..i - 1] == snapshot[..i - 1];
    }
    assert snapshot[..i] == snapshot;
    killed, at := Terminate(pids, m, target);
  }

  /** The outer loop. */
  method Terminate(pids: seq<int>, m: Parents, target: int) returns (killed: seq<int>, ghost at: seq<nat>)
    requires forall p <- m :: !AvoidingCycle(m, target, p)
    ensures Selects(at, pids, m, target) && IsAt(killed, at, pids) && Counted(killed, pids, m, target)
  {
    AllHaltIffNoAvoidingCycle(m, target);
    killed := [];
    var i := 0;
    while i < |pids|
      invariant 0 <= i <= |pids|
      invariant killed == DescendantsOf(pids[..i], m, target)
    {
      var selected := WalksToTarget(m, pids[i], target);
      if selected { killed := killed + [pids[i]]; }
      i := i + 1;
      assert pids[..i][..i - 1] == pids[..i - 1];
    }
    assert pids[..i] == pids;
    at := Places(pids, m, target);
    PlacesSelect(pids, m, target);
    DescendantsAreAtPlaces(pids, m, target);
    DescendantsAreCounted(pids, m, target);
  }

  /** The inner loop. */
  method WalksToTarget(m: Parents, pid: int, target: int) returns (selected: bool)
    requires pid in m ==> Halts(m, pid, target)
    ensures selected <==> Descends(m, pid, target)
  {
    var at := pid;
    ghost var k := 0;
    assert Ancestor(m, pid, 0) == Some(pid);
    if pid !in m {
      assert Ancestor(m, pid, 1) == None;
      assert !Open(m, pid, target, 1);
    }
    HaltsInTime(m, pid, target);
    while at in m && m[at] != target && m[at] > 0
      invariant Ancestor(m, pid, k) == Some(at) && Open(m, pid, target, k)
      invariant Descends(m, pid, target) <==> Descends(m, at, target)
      invariant k <= |m.Keys|
      decreases |m.Keys| + 1 - k
    {
      DescendsByParent(m, at, target);
      at := m[at];
      k := k + 1;
      assert Open(m, pid, target, k);
    }
    DescendsByParent(m, at, target);
    selected := at in m && m[at] == target;
  }
}
