/** ez::queue: a bounded FIFO.  Every operation is one critical section. */
module Queue {

  /** push_back leaves a full queue alone. */
  function Pushed<T>(max: nat, items: seq<T>, x: T): seq<T> {
    if |items| >= max then items else items + [x]
  }

  class BoundedQueue<T(==)> {
    const maxSize: nat
    var items: seq<T>

    constructor (max: nat)
      ensures maxSize == max && items == []
    {
      maxSize, items := max, [];
    }

    method PushBack(item: T) returns (ok: bool)
      modifies this
      ensures ok <==> old(|items|) < maxSize
      ensures items == Pushed(maxSize, old(items), item)
      ensures items == if ok then old(items) + [item] else old(items)
      ensures forall h: History<T> :: h.items == old(items) ==>
        Do(maxSize, h, Push(item)) == History(if ok then h.accepted + [item] else h.accepted, h.popped, items)
    {
      if |items| >= maxSize { return false; }
      items := items + [item];
      ok := true;
    }

    /** `item` is the caller's variable before the call, `out` after it. */
    method PopFront(item: T) returns (ok: bool, out: T)
      modifies this
      ensures ok <==> old(items) != []
      ensures ok ==> [out] + items == old(items)
      ensures !ok ==> out == item && items == []
      ensures forall h: History<T> :: h.items == old(items) ==>
        Do(maxSize, h, Pop) == History(h.accepted, if ok then h.popped + [out] else h.popped, items)
    {
      if items == [] { return false, item; }
      ok, out, items := true, items[0], items[1..];
    }

    method Back(item: T) returns (ok: bool, out: T)
      ensures ok <==> items != []
      ensures out == if ok then items[|items| - 1] else item
    {
      if items == [] { return false, item; }
      return true, items[|items| - 1];
    }

    method Front(item: T) returns (ok: bool, out: T)
      ensures ok <==> items != []
      ensures out == if ok then items[0] else item
    {
      if items == [] { return false, item; }
      return true, items[0];
    }
  }

  // ---------- Any number of callers ----------

  datatype Op<T> = Push(x: T) | Pop

  /** Accepted pushes and popped items, in the order in which the lock was taken. */
  datatype History<T> = History(accepted: seq<T>, popped: seq<T>, items: seq<T>)

  function Do<T>(max: nat, h: History<T>, op: Op<T>): History<T> {
    match op
    case Push(x) =>
      if |h.items| >= max then h
      else h.(accepted := h.accepted + [x], items := Pushed(max, h.items, x))
    case Pop =>
      if h.items == [] then h
      else h.(popped := h.popped + [h.items[0]], items := h.items[1..])
  }

  function DoAll<T>(max: nat, h: History<T>, ops: seq<Op<T>>): History<T> {
    if ops == [] then h else Do(max, DoAll(max, h, ops[..|ops| - 1]), ops[|ops| - 1])
  }

  /** Whatever the interleaving, what went in is what came out followed by what is left, and
      the bound is never exceeded. */
  lemma {:induction false} Conservation<T>(max: nat, ops: seq<Op<T>>)
    ensures var h := DoAll(max, History([], [], []), ops);
      h.accepted == h.popped + h.items && |h.items| <= max
  {
    if ops != [] {
      var h := DoAll(max, History([], [], []), ops[..|ops| - 1]);
      Conservation(max, ops[..|ops| - 1]);
      if h.items != [] {
        assert h.items == [h.items[0]] + h.items[1..];
      }
    }
  }
}
