/** The way into gRPC and back: operations are issued with the object that is their tag, and come
    back with that tag through a completion queue. */
module Completion {
  /** The address of an object. */
  type Addr = nat

  /** Where the tag of an object is; a tag that came with ok == false is lost. */
  datatype TagAt = NoTag | Runtime | Queued(ok: bool) | Lost

  predicate Issued(t: TagAt) { t.Runtime? || t.Queued? }

  class CompletionQueue<T, O> {
    ghost var issued: seq<(T, O)>

    constructor ()
      ensures issued == []
    {
      issued := [];
    }

    method Issue(tag: T, op: O)
      modifies this
      ensures issued == old(issued) + [(tag, op)]
    {
      issued := issued + [(tag, op)];
    }
  }
}
