/** The class client_connect_write_stream over its queue and its signal.  Each method is one
    access of a thread to shared data; it does to the object what the step of `ClientStream`
    with the same name does to a state that the object shows. */
module WriteStream {
  import opened WireFormat
  import Q = Queue
  import S = Signal
  import C = ClientStream
  import M = Messages

  class ClientConnectWriteStream {
    const queue: Q.BoundedQueue<C.Pkg>
    const event: S.EzSignal
    var writing: bool               // the writer thread was started
    var exit: bool
    var request: C.Pkg
    ghost var written: seq<C.Pkg>   // arguments of StartWrite
    ghost var closes: nat           // calls of StartWritesDone

    /** The shared data are those of the state. */
    ghost predicate Shows(s: C.State)
      reads this, queue, event
    {
      && queue.maxSize == C.QUEUE_LIMIT && queue.items == s.queue
      && event.Value() == s.event.event
      && exit == s.exit && request == s.current && written == s.written && closes == s.closes
    }

    /** Without a connection no writer thread is started. */
    constructor (connected: bool)
      ensures fresh(queue) && fresh(event) && writing == connected
      ensures forall s :: C.Init(s) ==> Shows(s)
    {
      writing := connected;
      queue := new Q.BoundedQueue<C.Pkg>(C.QUEUE_LIMIT);
      event := new S.EzSignal();
      exit, request, written, closes := false, M.EMPTY, [], 0;
    }

    /** request, when no other thread interferes: the exit test, then push_back. */
    method Request(buffer: seq<Byte>, ghost s: C.State) returns (ok: bool)
      requires Shows(s)
      modifies queue
      ensures var p := C.MakePackage(buffer);
        var asked := C.Apply(s, C.Caller(C.Ask(p)));
        Shows(if s.exit then asked else C.Apply(asked, C.Caller(C.Push(p))))
      ensures ok <==> !exit && |old(queue.items)| < 1_000_000
      ensures !ok ==> queue.items == old(queue.items)
      ensures ok ==>
        && |queue.items| == |old(queue.items)| + 1
        && queue.items[..|queue.items| - 1] == old(queue.items)
        && var last := queue.items[|queue.items| - 1];
           last.buffer == buffer && last.length == Narrow(|buffer|) && last.version == 0 && last.unknown == []
    {
      if exit { return false; }
      ok := queue.PushBack(C.MakePackage(buffer));
    }

    method SetExit(ghost s: C.State)
      requires Shows(s)
      modifies this`exit
      ensures Shows(C.Apply(s, C.Caller(C.Disconnect)))
      ensures exit
    {
      exit := true;
    }

    /** The condition of write_loop. */
    method LeavesLoop(ghost s: C.State) returns (leaves: bool)
      requires Shows(s) && C.WriterGuard(s, C.TestExit)
      ensures leaves <==> C.Apply(s, C.Writer(C.TestExit)).loop == C.Closing
      ensures leaves <==> exit
      ensures Shows(C.Apply(s, C.Writer(C.TestExit)))
    {
      leaves := exit;
    }

    method PopRequest(ghost s: C.State) returns (got: bool)
      requires Shows(s) && C.WriterGuard(s, C.Pop)
      modifies this`request, queue
      ensures got <==> C.Apply(s, C.Writer(C.Pop)).loop == C.Writing
      ensures Shows(C.Apply(s, C.Writer(C.Pop)))
      ensures got <==> old(queue.items) != []
      ensures if got then [request] + queue.items == old(queue.items)
              else request == old(request) && queue.items == []
    {
      var item;
      got, item := queue.PopFront(request);
      request := item;
      assert got ==> s.queue[0] == request && s.queue[1..] == queue.items;
    }

    method StartWrite(ghost s: C.State)
      requires Shows(s) && C.WriterGuard(s, C.StartWrite)
      modifies this`written
      ensures Shows(C.Apply(s, C.Writer(C.StartWrite)))
      ensures written == old(written) + [request]
    {
      written := written + [request];
    }

    /** A turn of the loop in signal_.wait: the first, or one after a wakeup. */
    method TestSignal(ghost s: C.State, ghost step: C.WriterStep) returns (passed: bool)
      requires Shows(s) && C.WriterGuard(s, step) && (step.CallWait? || step.Recheck?)
      modifies event
      ensures passed <==> C.Apply(s, C.Writer(step)).loop == C.Clearing
      ensures Shows(C.Apply(s, C.Writer(step)))
      ensures passed <==> old(event.sg)
    {
      passed := event.WaitSection();
    }

    method ClearRequest(ghost s: C.State)
      requires Shows(s) && C.WriterGuard(s, C.Clear)
      modifies this`request
      ensures Shows(C.Apply(s, C.Writer(C.Clear)))
      ensures request.version == 0 && request.length == 0 && request.buffer == [] && request.unknown == []
    {
      request := M.EMPTY;
    }

    method WritesDone(ghost s: C.State)
      requires Shows(s) && C.WriterGuard(s, C.WritesDone)
      modifies this`closes
      ensures Shows(C.Apply(s, C.Writer(C.WritesDone)))
      ensures closes == old(closes) + 1
    {
      closes := closes + 1;
    }

    /** OnWriteDone: the critical section of notify_one, on gRPC thread t. */
    method Raise(ghost s: C.State, ghost t: C.Thread)
      requires Shows(s) && C.CallbackGuard(s, C.Raise(t))
      modifies event
      ensures Shows(C.Apply(s, C.Grpc(C.Raise(t))))
      ensures event.sg && event.re == old(event.re)
    {
      event.NotifyOneSection();
    }

    // One turn of the loop that no other thread disturbs, from its end to its beginning.

    /** The flag is set: the wait passes at once. */
    method WaitAndClear(ghost s: C.State)
      requires Shows(s) && s.loop == C.AtWait && s.event.event.sg && S.At(s.event, C.WRITER, S.Outside)
      modifies this, event
      ensures C.Enables(s, AFTER_RAISE) && Shows(C.Exec(s, AFTER_RAISE))
      ensures C.Exec(s, AFTER_RAISE).loop == C.Top
    {
      ghost var s1 := C.Apply(s, C.Writer(C.CallWait));
      var passed := TestSignal(s, C.CallWait);
      ClearRequest(s1);
      Enables1(s1, C.Writer(C.Clear), []);
      Enables1(s, C.Writer(C.CallWait), [C.Writer(C.Clear)]);
    }

    /** gRPC completes the write with number n on thread t, which raises the flag. */
    method CompleteAndWait(ghost s: C.State, ghost t: C.Thread, ghost n: nat)
      requires Shows(s) && s.loop == C.AtWait && n in s.inFlight && S.At(s.event, C.WRITER, S.Outside)
      requires t !in s.event.place && t !in s.callbacks
      modifies this, event
      ensures C.Enables(s, AfterStart(t, n)) && Shows(C.Exec(s, AfterStart(t, n)))
      ensures C.Exec(s, AfterStart(t, n)).loop == C.Top
    {
      ghost var a1, a2 := C.Grpc(C.Complete(t, true, n)), C.Grpc(C.Raise(t));
      ghost var s1 := C.Apply(s, a1);
      Raise(s1, t);
      ghost var s2 := C.Apply(s1, a2);
      WaitAndClear(s2);
      Enables1(s1, a2, AFTER_RAISE);
      Enables1(s, a1, [a2] + AFTER_RAISE);
      assert AfterStart(t, n) == [a1] + ([a2] + AFTER_RAISE);
    }

    method WriteAndWait(ghost s: C.State, ghost t: C.Thread)
      requires Shows(s) && s.loop == C.Writing && S.At(s.event, C.WRITER, S.Outside)
      requires t !in s.event.place && t !in s.callbacks
      modifies this, event
      ensures C.Enables(s, AfterPop(t, s.writes + 1)) && Shows(C.Exec(s, AfterPop(t, s.writes + 1)))
      ensures C.Exec(s, AfterPop(t, s.writes + 1)).loop == C.Top
    {
      ghost var s1 := C.Apply(s, C.Writer(C.StartWrite));
      StartWrite(s);
      CompleteAndWait(s1, t, s.writes + 1);
      Enables1(s, C.Writer(C.StartWrite), AfterStart(t, s.writes + 1));
    }

    /** The body of the loop: nothing to do, or a write that gRPC completes on thread t. */
    method PopAndWrite(ghost s: C.State, ghost t: C.Thread)
      requires Shows(s) && s.loop == C.Popping && S.At(s.event, C.WRITER, S.Outside)
      requires t !in s.event.place && t !in s.callbacks
      modifies this, queue, event
      ensures C.Enables(s, AfterTest(s, t)) && Shows(C.Exec(s, AfterTest(s, t)))
      ensures C.Exec(s, AfterTest(s, t)).loop == C.Top
    {
      ghost var s1 := C.Apply(s, C.Writer(C.Pop));
      var got := PopRequest(s);
      if got {
        WriteAndWait(s1, t);
        Enables1(s, C.Writer(C.Pop), AfterPop(t, s.writes + 1));
      } else {
        Enables1(s, C.Writer(C.Pop), []);
      }
    }

    method HalfClose(ghost s: C.State)
      requires Shows(s) && s.loop == C.Closing
      modifies this`closes
      ensures C.Enables(s, [C.Writer(C.WritesDone)]) && Shows(C.Exec(s, [C.Writer(C.WritesDone)]))
      ensures C.Exec(s, [C.Writer(C.WritesDone)]).loop == C.Done
    {
      WritesDone(s);
      Enables1(s, C.Writer(C.WritesDone), []);
    }

    /** write_loop from its test on: the machine's steps in program order. */
    method Turn(ghost s: C.State, ghost t: C.Thread) returns (leaves: bool)
      requires Shows(s) && C.PlacesAgree(s) && s.loop == C.Top && t !in s.event.place
      modifies this, queue, event
      ensures C.Enables(s, TurnSteps(s, t)) && Shows(C.Exec(s, TurnSteps(s, t)))
      ensures C.Exec(s, TurnSteps(s, t)).loop == if leaves then C.Done else C.Top
      ensures leaves <==> s.exit
    {
      ghost var s1 := C.Apply(s, C.Writer(C.TestExit));
      leaves := LeavesLoop(s);
      if leaves {
        HalfClose(s1);
        Enables1(s, C.Writer(C.TestExit), [C.Writer(C.WritesDone)]);
      } else {
        PopAndWrite(s1, t);
        Enables1(s, C.Writer(C.TestExit), AfterTest(s1, t));
      }
    }
  }

  // ---------- Program order ----------

  const AFTER_RAISE := [C.Writer(C.CallWait), C.Writer(C.Clear)]

  function AfterStart(t: C.Thread, n: nat): seq<C.Step> {
    [C.Grpc(C.Complete(t, true, n)), C.Grpc(C.Raise(t))] + AFTER_RAISE
  }

  function AfterPop(t: C.Thread, n: nat): seq<C.Step> { [C.Writer(C.StartWrite)] + AfterStart(t, n) }

  function AfterTest(s: C.State, t: C.Thread): seq<C.Step> {
    [C.Writer(C.Pop)] + if s.queue == [] then [] else AfterPop(t, s.writes + 1)
  }

  /** Test, pop, write, wait, clear; the queue may be empty, or the loop be left. */
  function TurnSteps(s: C.State, t: C.Thread): seq<C.Step> {
    [C.Writer(C.TestExit)] + if s.exit then [C.Writer(C.WritesDone)] else AfterTest(s, t)
  }

  lemma Enables1(s: C.State, a: C.Step, rest: seq<C.Step>)
    requires C.Enabled(s, a) && C.Enables(C.Apply(s, a), rest)
    ensures C.Enables(s, [a] + rest) && C.Exec(s, [a] + rest) == C.Exec(C.Apply(s, a), rest)
  {
    assert ([a] + rest)[1..] == rest;
  }
}
