# Models of the concurrent, wire-format and image-parsing parts

Dafny models of the pieces of this repository that carry hard, unbounded properties, and proofs
of those properties.  `dafny verify dfyconfig.toml` checks everything.

The models fall into four groups.

* **Signalling, queues and pools.**  `Signal` is `ez::signal`, `Queue` is `ez::queue`, `TaskPool` is
  `std::threadpool` (Common/ThreadPool.hpp), with its progress in `PoolProgress`, `WorkerPool` is
  `ez::thread_pool`; `Ledger` keeps account of started and finished tasks for both pools.  `ClientStream` is the streaming client, which composes
  queue, signal and message codec; `WriteStream` is its class, each method a step of that machine.
* **Servers.**  `CallServer`, `UnaryServer` and `StreamServer` are the completion-queue servers, with an
  unbounded heap of call objects, and `Completion` their way into gRPC; `Reactor` is the callback server
  with its sweeper; `ServiceStatus` is the status protocol of the demo Windows service,
  `StopDelivery` what a late stop does to it.
* **Wire codec.**  `WireFormat` holds varints and fields as in Protocol Buffers Encoding (sections
  "Base 128 Varints", "Message Structure", "Length-Delimited Records"), `Messages` parse, serialize, size
  and merge of the generated messages as functions, `WireLayout` the bytes themselves, tag by tag, and
  `Codec` the generated form: an object with fields, a parse loop, and a serializer advancing through a byte
  array, each proved equal to the functions.
  `BaseRequest` and `BaseReply` have one schema (`Base`), `Package` the other (`Package`).
* **Algorithms.**  `PeImage` and `PeLoader` cover address translation and export tables of PE32 files
  (Microsoft PE Format, sections "Section Table (Section Headers)" and "The .edata Section"),
  `Descendants` the selection of descendant processes.

## How concurrency is modelled

A class holds the code of every critical section of an object, with its fields updated in place, wherever a
method is one critical section (`EzSignal`, `BoundedQueue`, `Pool`, `ClientConnectWriteStream`,
`ThreadPool`, `ClientStreamReactor`, `Service`) or one uninterrupted call (`CallData`, `AsyncServiceImpl`,
`AsyncStreamTransmitImpl`).  Beside it a state machine takes one critical section, or one access to shared
data, per step; unlocking and notifying are separate steps, blocked and woken threads are explicit, and
spurious wakeups may happen at any time.  The number of threads, objects and steps is unbounded.  `Run` is any execution from the initial state, and main results
are about every state of every run.

## What the code does not guarantee

Some expected properties fail; each is given with the condition under which it holds, most with a concrete case.

* A commit that passed the `_run` test before the destructor cleared it can push a task that is never run
  (`TaskPool.LateCommitIsLost`, condition in `PoolProgress.ShutdownIsCleanIff`).
* The destructor of `std::threadpool` notifies without holding the lock, so a worker can fall asleep after
  the broadcast and be left there (`TaskPool.BroadcastCanBeMissed`, condition in
  `TaskPool.MissesTheBroadcast`).
* A message whose buffer is longer than the length reader allows does not parse back
  (`Messages.LongBufferIsLost`, condition in `Messages.RoundTrip`).
* A walk over parent processes does not end when a cycle of positive ids avoids the target
  (`Descendants.MutualParents`, condition in `Descendants.AllHaltIffNoAvoidingCycle`).
* The export search compares only the bytes of the wanted name, so it may return a longer name
  (`PeImage.LongerNameWins`, condition for a name that is exported in `PeImage.ExactNameIff`).  A table sorted
  by name meets the condition (`PeImage.SortedTableGivesExactName`); a name that is not exported is found under
  any longer one (`PeImage.UnlistedName`).
* STOP_PENDING accepts another stop, whose handler can report STOP_PENDING after STOPPED
  (`ServiceStatus.TwoStops`, conditions in `ServiceStatus.OrderedUnlessStoppedTwice`, run by run in
  `ServiceStatus.OrderedIffNothingFollowsStopped`, and delivery by delivery in
  `StopDelivery.LateStopCanOvertake`).  That takes an SCM that forwards the control: the documented
  ControlService function refuses a stop while the service is in STOP_PENDING.
* A reactor whose status, left unset by its constructor, happens to be finished or done never calls Finish
  (`Reactor.FinishedAtMostOnce`); in the first case it is never freed, in the second it is freed while in use
  (`Reactor.UnsetDoneIsFreedInUse`, conditions in `Reactor.RunSafety`).
* Both servers of server.h drop failed completions.  One for a request leaves the server deaf for ever
  (`OneFailureDeafens`, condition in `DeafIff`), any other leaks its object (`LostIsLeaked`).  Stream objects
  are never freed at all, since FINISH is never stored (`StreamServer.NothingIsFreed`).
* When two names share an ordinal the parser of the file and the search of the image can name an export
  differently (`PeLoader.AliasHidesName`, condition in `PeLoader.SearchAgreesWithTable`).
* The message of the exception in `ez::thread_pool` names the range [1, 1000], but the code rejects 1000;
  the model follows the code.

## Model

| member | source | states |
|---|---|---|
| Signal.EzSignal.constructor | myutils/include/ez/signal.hpp:11-15 | a new event is clear and resets itself |
| Signal.EzSignal.WaitSection | myutils/include/ez/signal.hpp:20-25 | under the lock a waiter leaves iff the flag is set, and clears it only in auto-reset mode |
| Signal.EzSignal.NotifyAllSection | myutils/include/ez/signal.hpp:47-51 | the flag is set and the event latched |
| Signal.EzSignal.NotifyOneSection | myutils/include/ez/signal.hpp:56-59 | the flag is set and the mode kept |
| Signal.EzSignal.ResetSection | myutils/include/ez/signal.hpp:63-67 | the flag is cleared and auto-reset mode restored |
| Signal.StepKeepsInv | myutils/include/ez/signal.hpp:19-67 | every step of any thread, spurious wakeups included, keeps: a latched event is set; a set flag with a blocked thread leaves a notifier that has not notified or a woken waiter that has not rechecked; a latched event with a blocked thread leaves a pending broadcast |
| Signal.NoWakeupIsLost | myutils/include/ez/signal.hpp:19-67 | in every reachable state in which no call is half done, a thread is blocked only while the flag is clear and the event is in auto-reset mode |
| Signal.AWaitCanComplete | myutils/include/ez/signal.hpp:19-61 | from every reachable state with the flag set and a thread blocked, at most two steps of calls already under way complete a wait |
| Signal.RaisedUntilPassed | myutils/include/ez/signal.hpp:46-61 | a notification is not forgotten: the flag stays set until a wait completes or the event is reset |
| Signal.ResetBlocks | myutils/include/ez/signal.hpp:63-67 | after a reset no wait completes until the next notification, and the event resets itself again |
| Signal.PassingClears | myutils/include/ez/signal.hpp:24-25 | a completed wait clears the flag in auto-reset mode, and leaves it when latched |
| Signal.RunStepPasses | myutils/include/ez/signal.hpp:20-26 | a wait completes when, and only when, it tests a set flag |
| Signal.PassesNeedRaises | myutils/include/ez/signal.hpp:19-61 | without notify_all at most one wait completes per notify_one, over any run |
| Signal.StaysLatched | myutils/include/ez/signal.hpp:46-67 | after notify_all the flag stays set, whatever waits and notifications follow, until a reset |
| Signal.BroadcastLetsAllThrough | myutils/include/ez/signal.hpp:46-67 | after notify_all has delivered its broadcast no thread is or becomes blocked until a reset |
| Queue.BoundedQueue.constructor | myutils/include/ez/queue.hpp:13-14 | an empty queue with its bound |
| Queue.BoundedQueue.PushBack | myutils/include/ez/queue.hpp:19-29 | appends and succeeds iff the queue is below its bound, else changes nothing |
| Queue.BoundedQueue.PopFront | myutils/include/ez/queue.hpp:44-55 | hands out the oldest item and keeps the rest in order; on an empty queue the caller's variable keeps its value |
| Queue.BoundedQueue.Back | myutils/include/ez/queue.hpp:56-65 | the newest item, or the caller's value on an empty queue |
| Queue.BoundedQueue.Front | myutils/include/ez/queue.hpp:66-75 | the oldest item, or the caller's value on an empty queue |
| Queue.Conservation | myutils/include/ez/queue.hpp:19-55 | for every sequence of operations accepted items are the popped ones followed by the queued ones, in order, and the bound holds |
| ClientStream.StreamSafety | myutils/ez_grpc/grpc_client/client_connect_write_stream.cpp:41-83 | in every reachable state at most one write is in flight, the writer waits for it, the buffer is the one handed to gRPC, a set signal belongs to that write, and the stream is half-closed at most once |
| ClientStream.CompletionIsAwaited | myutils/ez_grpc/grpc_client/client_connect_write_stream.cpp:56-78 | whichever write gRPC completes is the last one started, whose buffer the writer holds and waits for |
| ClientStream.LentBufferIsLeftAlone | myutils/ez_grpc/grpc_client/client_connect_write_stream.cpp:49-61 | no step of any thread changes the buffer, starts a write or half-closes the stream while gRPC holds a write |
| ClientStream.AcceptedInOrder | myutils/ez_grpc/grpc_client/client_connect_write_stream.cpp:27-58 | accepted packages are the written ones, the one popped and not yet written, and the queued ones, in order; the queue bound holds |
| ClientStream.RequestDecides | myutils/ez_grpc/grpc_client/client_connect_write_stream.cpp:30-38 | a request goes on iff the exit flag is clear when tested, and is accepted iff the queue is below its bound |
| ClientStream.ExitIff | myutils/ez_grpc/grpc_client/client_connect_write_stream.cpp:66-83 | the exit flag is set iff there was a disconnect or a failed write |
| ClientStream.LeavesOnlyAfterExit | myutils/ez_grpc/grpc_client/client_connect_write_stream.cpp:49-61 | the writer leaves its loop and half-closes the stream only after that |
| ClientStream.AtMostOneWriteAfterExit | myutils/ez_grpc/grpc_client/client_connect_write_stream.cpp:49-74 | once the exit flag is set it stays set and at most one more package is written, and only one already being popped |
| ClientStream.WriterCanGoOn | myutils/ez_grpc/grpc_client/client_connect_write_stream.cpp:56-83 | a waiting writer is released by as many steps as the completion still has to travel, plus one |
| ClientStream.WaitingWriterIsReleased | myutils/ez_grpc/grpc_client/client_connect_write_stream.cpp:56-83 | in every run a writer that waits for a completion can be released by at most four steps of gRPC and itself |
| ClientStream.PeerReadsRequest | myutils/ez_grpc/grpc_client/client_connect_write_stream.cpp:35-38 | from a request within the length limit the peer reads exactly the caller's bytes and their number, with version 0 and nothing else |
| ClientStream.StepKeepsInv | myutils/ez_grpc/grpc_client/client_connect_write_stream.cpp:27-83 | every step of callers, writer and callbacks keeps the joint invariant of queue, signal and callbacks |
| WriteStream.ClientConnectWriteStream.constructor | myutils/ez_grpc/grpc_client/client_connect_write_stream.cpp:13-25 | a new object shows every initial state, and has a writer thread iff it is connected |
| WriteStream.ClientConnectWriteStream.Request | myutils/ez_grpc/grpc_client/client_connect_write_stream.cpp:27-39 | refused once the exit flag is set or when the queue is full; otherwise a package with the caller's bytes and their number is queued last |
| WriteStream.ClientConnectWriteStream.SetExit | myutils/ez_grpc/grpc_client/client_connect_write_stream.cpp:69 | the exit flag is set and nothing else |
| WriteStream.ClientConnectWriteStream.LeavesLoop | myutils/ez_grpc/grpc_client/client_connect_write_stream.cpp:49 | the loop is left iff the exit flag is set |
| WriteStream.ClientConnectWriteStream.PopRequest | myutils/ez_grpc/grpc_client/client_connect_write_stream.cpp:51 | the oldest package moves into the buffer; with an empty queue the buffer is kept |
| WriteStream.ClientConnectWriteStream.StartWrite | myutils/ez_grpc/grpc_client/client_connect_write_stream.cpp:56 | the buffer is handed to gRPC unchanged |
| WriteStream.ClientConnectWriteStream.TestSignal | myutils/ez_grpc/grpc_client/client_connect_write_stream.cpp:57 | a turn of the wait does what the signal step of the machine does |
| WriteStream.ClientConnectWriteStream.ClearRequest | myutils/ez_grpc/grpc_client/client_connect_write_stream.cpp:58 | the buffer is reset |
| WriteStream.ClientConnectWriteStream.WritesDone | myutils/ez_grpc/grpc_client/client_connect_write_stream.cpp:61 | the stream is half-closed |
| WriteStream.ClientConnectWriteStream.Raise | myutils/ez_grpc/grpc_client/client_connect_write_stream.cpp:78 | the completion callback raises the flag |
| WriteStream.ClientConnectWriteStream.PopAndWrite | myutils/ez_grpc/grpc_client/client_connect_write_stream.cpp:51-58 | the body of the loop is the machine's pop, write, completion, wait and clear, in this order, and leads back to the test |
| WriteStream.ClientConnectWriteStream.Turn | myutils/ez_grpc/grpc_client/client_connect_write_stream.cpp:49-61 | an undisturbed turn of write_loop, or its end, is the machine's steps in program order |
| TaskPool.Pool.constructor | Common/ThreadPool.hpp:38 | a running pool with an empty queue and as many threads as asked for, up to 16, all idle |
| TaskPool.Pool.AddThread | Common/ThreadPool.hpp:91-132 | as many threads as the limit still admits are made and counted idle; a stopped pool refuses |
| TaskPool.Pool.PushSection | Common/ThreadPool.hpp:67-72 | the locked part of commit appends the task |
| TaskPool.Pool.TakeSection | Common/ThreadPool.hpp:104-115 | sleep while running and empty, leave when stopped and empty, otherwise take the oldest task and count the worker as busy |
| TaskPool.NobodyRetires | Common/ThreadPool.hpp:118-119 | in every run the test that retires a worker fails: the pool never outgrows its initial size |
| TaskPool.Pool.AfterTask | Common/ThreadPool.hpp:117-124 | after a task a worker of a pool that has not outgrown its initial size stays and counts itself idle |
| TaskPool.Pool.RecountSection | Common/ThreadPool.hpp:121-124 | the worker counts itself idle again |
| TaskPool.StepKeepsInv | Common/ThreadPool.hpp:38-131 | every step of constructor, destructor, committers and workers keeps the pool invariant |
| TaskPool.LockDecides | Common/ThreadPool.hpp:104-115 | a worker with the lock leaves iff the pool is stopped and nothing is queued, sleeps iff it is running and nothing is queued, and otherwise takes the oldest task |
| TaskPool.CommitDecides | Common/ThreadPool.hpp:59-72 | a commit goes on iff the pool is running when tested, and its task is queued last |
| TaskPool.StoppedIff | Common/ThreadPool.hpp:41 | the pool is stopped iff its destructor has cleared the flag |
| TaskPool.StartedThenQueued | Common/ThreadPool.hpp:67-115 | in every run committed tasks are the started ones followed by the queued ones, in order |
| TaskPool.IdleAccounting | Common/ThreadPool.hpp:91-131 | after construction the idle count is the pool size minus the busy workers, lies between 0 and min(size, 16), and no worker retires |
| TaskPool.DrainedAtExit | Common/ThreadPool.hpp:39-48 | once all workers have left, every committed task has run once iff no task was pushed after the last of them left; exactly those pushes are still queued |
| TaskPool.CleanShutdown | Common/ThreadPool.hpp:39-48 | with at least one thread and no commit under way when the flag is cleared, all committed tasks have run once when the workers have left |
| TaskPool.LateCommitIsLost | Common/ThreadPool.hpp:59-72 | a run in which a commit that passed the test before shutdown pushes a task that never runs |
| TaskPool.StaysUpForGood | Common/ThreadPool.hpp:106-111 | after shutdown a worker that is neither asleep nor about to sleep never sleeps again |
| TaskPool.OnlyDecidersMissTheBroadcast | Common/ThreadPool.hpp:41-42 | only a worker between testing the predicate and sleeping can still sleep after the destructor's broadcast |
| TaskPool.MissesTheBroadcast | Common/ThreadPool.hpp:106-109 | for every run up to the destructor's broadcast: some continuation leaves a worker asleep iff it is between testing the predicate and sleeping at that moment |
| TaskPool.BroadcastCanBeMissed | Common/ThreadPool.hpp:41-46 | a run after which such a worker sleeps and only a spurious wakeup is left: the broadcast is sent without the lock |
| PoolProgress.RunKeepsHeeded | Common/ThreadPool.hpp:67-77 | in every reachable state with a task queued a notification is owed, a worker is up, or nobody sleeps; and nobody is about to sleep |
| PoolProgress.QueuedTaskCanStart | Common/ThreadPool.hpp:67-115 | no commit is forgotten: from every reachable state with a task queued, unless all workers have left, at most four steps under way start the oldest task, without a spurious wakeup |
| PoolProgress.WorkersCanLeave | Common/ThreadPool.hpp:101-125 | after shutdown the workers can all leave before any commit under way goes on |
| PoolProgress.CommitCanBeLost | Common/ThreadPool.hpp:59-72 | whenever a commit is under way after the flag is cleared, some continuation pushes its task after all workers have left |
| PoolProgress.EmptyPoolStartsNothing | Common/ThreadPool.hpp:38 | a pool of size 0 starts no task |
| PoolProgress.NothingStartsAfterwards | Common/ThreadPool.hpp:39-48 | once all workers have left no task starts any more |
| PoolProgress.ShutdownIsCleanIff | Common/ThreadPool.hpp:39-48 | at the moment the flag is cleared, for every pool size: every continuation runs all committed tasks iff no commit is under way, and there is a worker or nothing was committed |
| Ledger.StartKeepsEachOnce | Common/ThreadPool.hpp:112-116 | starting a task gives it to one worker and to nobody else |
| Ledger.FinishKeepsEachOnce | Common/ThreadPool.hpp:116 | finishing a task moves it from running to done, once |
| Ledger.QuietMeansDone | Common/ThreadPool.hpp:116-124 | all started tasks are done iff no worker runs one |
| WorkerPool.PostedIsPartitioned | myutils/include/ez/thread_pool.hpp:56-84 | in every run posted tasks are, as multisets, exactly the accepted and the rejected ones; accepted ones are the started ones followed by the queued ones; each started one is run by one worker or has returned |
| WorkerPool.Construct | myutils/include/ez/thread_pool.hpp:31-45 | throws iff the thread count is 0 or at least 1000 |
| WorkerPool.ThreadPool.Stop | myutils/include/ez/thread_pool.hpp:49-52 | the flag is set |
| WorkerPool.ThreadPool.PostWorkTask | myutils/include/ez/thread_pool.hpp:55-65 | the task is queued last, or dropped when the queue is full |
| WorkerPool.ThreadPool.NextItem | myutils/include/ez/thread_pool.hpp:72-79 | the oldest task is taken, if any |
| WorkerPool.ThreadPool.GoesOn | myutils/include/ez/thread_pool.hpp:70 | the loop goes on iff the flag is clear |
| WorkerPool.PostIsAcceptedIff | myutils/include/ez/thread_pool.hpp:62 | in every run a post is accepted, behind all others, iff the queue is below its bound |
| WorkerPool.ExitIff | myutils/include/ez/thread_pool.hpp:49-52 | the flag is set iff shutdown was called |
| WorkerPool.HaltsOnlyAfterShutdown | myutils/include/ez/thread_pool.hpp:68-71 | a worker has halted only if the flag is set |
| WorkerPool.QueuedTaskCanStart | myutils/include/ez/thread_pool.hpp:68-84 | while the flag is clear any worker starts the oldest queued task by at most three of its own steps |
| WorkerPool.FewTasksAfterShutdown | myutils/include/ez/thread_pool.hpp:49-84 | after the flag is set at most one more task per worker starts in the whole rest of the run |
| WorkerPool.BudgetOnlyShrinks | myutils/include/ez/thread_pool.hpp:68-84 | after shutdown, started tasks plus workers that will still look for one never grows |
| WorkerPool.WorkersHalt | myutils/include/ez/thread_pool.hpp:68-84 | after shutdown all workers together take at most three steps each |
| WorkerPool.UnhaltedCanStep | myutils/include/ez/thread_pool.hpp:68-84 | a worker that has not halted always has a step; before shutdown it does not halt, after it the step brings it closer to halting |
| WorkerPool.StepKeepsInv | myutils/include/ez/thread_pool.hpp:31-84 | every step of constructor, posters, shutdown and workers keeps the invariant |
| WireFormat.VarintRoundTrip | Socket/proto/base.pb.cc:206 | reading an encoded varint gives it back and stops behind it iff it fits the reader's byte limit; otherwise the input is malformed |
| WireFormat.EncodedVarintSize | Socket/proto/base.pb.cc:300 | the computed varint size is the length of its encoding |
| WireFormat.VarintPrefix | Socket/proto/base.pb.cc:206-207 | a successful read consumes a non-empty prefix and does not depend on later bytes |
| WireFormat.NarrowUndoesSignExtend | Socket/proto/base.pb.cc:260 | an int32 written as a sign-extended 64-bit varint and narrowed again is unchanged |
| WireFormat.NegativesTakeTenBytes | Socket/proto/base.pb.cc:300 | a negative int32 takes ten bytes |
| WireFormat.TokenRoundTrip | Socket/proto/base.pb.cc:201-242 | every valid field parses back from its encoding, in front of any other bytes |
| WireFormat.TokenPrefix | Socket/proto/base.pb.cc:237-241 | an accepted field is valid, is a non-empty prefix of the input, and does not depend on later bytes |
| WireFormat.EncodedTokenSize | Socket/proto/base.pb.cc:291-308 | the computed size of a field is the length of its encoding |
| WireLayout.VarintDigits | Socket/proto/base.pb.cc:260 | an encoded varint is its digits to the base 128, the least significant first, all but the last with the continuation bit |
| WireLayout.DigitsAreRead | Socket/proto/base.pb.cc:206 | any such digits within the byte limit are read as their value, leading zeros included |
| WireLayout.CutOffVarint | Socket/proto/base.pb.cc:206-207 | input that ends within a varint is malformed |
| WireLayout.WidthsAgree | Socket/proto/base.pb.cc:260 | sign extension and narrowing keep a number modulo 2^64 and 2^32 |
| WireLayout.MinusOneLayout | Socket/proto/base.pb.cc:260 | minus one is written as nine bytes 255 and a 1 |
| WireLayout.TokenLayout | Socket/proto/base.pb.cc:275-279 | an unknown field is written as its number times eight plus its wire type, then its payload |
| WireLayout.BaseLayout | Socket/proto/base.pb.cc:257-278 | BaseRequest writes tag 8 and version, tag 16 and length, tag 26, size and buffer, each unless default, then the unknown fields |
| WireLayout.PackageLayout | myutils/ez_grpc/proto/ez.pb.cc:212-233 | Package writes tag 8 and version, tag 18, size and buffer, tag 24 and length, each unless default, then the unknown fields |
| WireLayout.BaseFieldsAreRead | Socket/proto/base.pb.cc:202-227 | BaseRequest reads tags 8, 16 and 26 into version, length and buffer |
| WireLayout.PackageFieldsAreRead | myutils/ez_grpc/proto/ez.pb.cc:157-182 | Package reads tags 8, 18 and 24 into version, buffer and length |
| WireLayout.OthersAreCollected | Socket/proto/base.pb.cc:228-241 | every other field is collected unchanged, known numbers with another wire type included |
| WireLayout.GroupsAreOpened | Socket/proto/base.pb.cc:237-241 | an unknown group is collected up to a depth of a hundred |
| WireLayout.GroupsAreClosed | Socket/proto/base.pb.cc:232-241 | an end tag is accepted iff it closes the innermost open group |
| WireLayout.BadTagsAreRefused | Socket/proto/base.pb.cc:232-241 | field number 0 and the wire types 6 and 7 are refused |
| WireLayout.SmallExamples | Socket/proto/base.pb.cc:251-281 | concrete bytes of a message under both numberings |
| Messages.SerializedSize | Socket/proto/base.pb.cc:283-309 | the serialized length is what ByteSizeLong computes, for all messages of both schemas |
| Messages.ParseEncoded | Socket/proto/base.pb.cc:197-249 | parsing encoded fields means feeding the fields to the parser and parsing what follows |
| Messages.ParseInStages | Socket/proto/base.pb.cc:197-249 | accepted input followed by more bytes parses as the second part starting from the result of the first |
| Messages.ParseKeepsReachable | Socket/proto/base.pb.cc:237-241 | parsing keeps collected unknown fields valid, unknown to the schema, and with groups balanced |
| Messages.ParsedIsReachable | Socket/proto/base.pb.cc:197-249 | every accepted message has a buffer within the length limit and replayable unknown fields |
| Messages.AcceptMerges | Socket/proto/base.pb.cc:318-336 | feeding the fields of a message to a parser gives what MergeImpl gives |
| Messages.AppendIsMerge | Socket/proto/base.pb.cc:197-336 | accepted input followed by a serialized message parses to the merge of the two |
| Messages.ConcatenationIsMerge | Socket/proto/base.pb.cc:197-336 | the concatenation of two serialized messages parses to their merge, under both field numberings |
| Messages.RoundTrip | Socket/proto/base.pb.cc:197-281 | every message, serialized, parses to itself iff its unknown fields are such as a parser collects and its buffer is within the length limit |
| Messages.LongBufferIsLost | Socket/proto/base.pb.cc:221-224 | a message one byte over the limit does not parse back |
| Messages.NormalForm | myutils/ez_grpc/proto/ez.pb.cc:152-236 | serializing what was parsed and parsing again gives the same message, for every accepted byte string |
| Messages.RelayPreservesBytes | myutils/ez_grpc/proto/ez.pb.cc:186-236 | a peer built on the other field numbering passes a message on byte for byte, carrying the fields it does not know |
| Messages.MergeKeepsCollected | Socket/proto/base.pb.cc:335 | merging keeps unknown fields replayable |
| Codec.ReadVarintAt | Socket/proto/base.pb.cc:206 | the reading loop agrees with the recursive definition of a varint, position included |
| Codec.ReadInt32At | myutils/ez_grpc/proto/ez.pb.cc:161 | an int32 field gets the low 32 bits of the varint as a signed number |
| Codec.NarrowWide | myutils/ez_grpc/proto/ez.pb.cc:161 | the 64-bit reader of one class and the 32-bit reader of the other assign the same value |
| Codec.ReadDelimitedAt | Socket/proto/base.pb.cc:223 | a length and that many bytes, or malformed input |
| Codec.ReadUnknownAt | Socket/proto/base.pb.cc:237-241 | the payload of an unknown field by wire type |
| Codec.WriteVarint | Socket/proto/base.pb.cc:260 | writes exactly the encoding at the position and nothing else |
| Codec.WriteTokens | Socket/proto/base.pb.cc:275-279 | writes exactly the encodings of the unknown fields, in order |
| Codec.Record.constructor | Socket/proto/base.pb.cc:184-195 | a new record is empty |
| Codec.Record.Clear | Socket/proto/base.pb.cc:184-195 | all fields and unknown fields are reset |
| Codec.Record.MergeFrom | Socket/proto/base.pb.cc:318-336 | the record becomes the merge of both; the other one is untouched |
| Codec.Record.CopyFrom | Socket/proto/base.pb.cc:338-343 | the record becomes the other one, itself included |
| Codec.Record.AssignField | Socket/proto/base.pb.cc:202-227 | a field with its number and wire type is read and assigned, the others kept |
| Codec.Record.ParseField | Socket/proto/base.pb.cc:199-242 | one turn of the loop accepts exactly the fields the parser accepts, with the same result |
| Codec.Record.InternalParse | Socket/proto/base.pb.cc:197-249 | the parse loop succeeds iff the recursive parser does, with its result merged into the current value; after a failure the fields accepted before are kept, all but the one whose reading failed |
| Codec.Record.ByteSizeLong | Socket/proto/base.pb.cc:283-309 | the accumulated size is the length of the serialization |
| Codec.Record.InternalSerialize | Socket/proto/base.pb.cc:251-281 | fills exactly the serialization at the position and leaves the rest of the array alone |
| CallServer.CallData.constructor | Socket/grpcImp/server_async.cpp:102-107 | a new call is in PROCESS and has given gRPC one request |
| CallServer.CallData.Proceed | Socket/grpcImp/server_async.cpp:109-145 | what each branch does: one request; or a successor, its request, the greeting, then Finish and status FINISH; or deletion |
| CallServer.ServedAlone | Socket/grpcImp/server_async.cpp:122-138 | the steps of a poller that serves a request without interruption amount to one call of Proceed |
| CallServer.CallData.Handle | Socket/grpcImp/server_async.cpp:85-87 | what one call of Proceed does to the object, its successor and gRPC is what the poller's steps do, taken without interruption |
| CallServer.ExactlyOneOwner | Socket/grpcImp/server_async.cpp:73-145 | with any number of pollers every live call has exactly one of an outstanding operation, a queued event and a poller that can reach it, and a freed address has none |
| CallServer.EventsNameLiveCalls | Socket/grpcImp/server_async.cpp:85-141 | an event is taken only for a live object in PROCESS or FINISH |
| CallServer.OneFinishPerCall | Socket/grpcImp/server_async.cpp:122-144 | every object ever made is live or deleted; a deleted one had one successor and one Finish, a live one at most one of each |
| CallServer.ArmsAreConserved | Socket/grpcImp/server_async.cpp:73-127 | waiting calls plus pollers that owe one equals the number of pollers |
| CallServer.StepKeepsInv | Socket/grpcImp/server_async.cpp:73-145 | every completion and every access of a poller keeps the invariant |
| UnaryServer.AsyncServiceImpl.constructor | Socket/grpcImp/server.h:126-135 | a new call is in PROCESS and has given gRPC one request |
| UnaryServer.AsyncServiceImpl.Run | Socket/grpcImp/server.h:136-158 | the call's thread fills the reply by the callback and issues one Finish |
| UnaryServer.AsyncServiceImpl.Proceed | Socket/grpcImp/server.h:159-184 | what each branch does: one request; or a successor and its request, a thread, status FINISH; or deletion |
| UnaryServer.FinishIsSeenFinished | Socket/grpcImp/server.h:169-178 | the consumer sees the completion of a reply only with FINISH stored, although the thread starts first; a tag in PROCESS is a fresh request |
| UnaryServer.OneReplyPerCall | Socket/grpcImp/server.h:136-184 | at most one operation or event per live call, at most one successor and reply; a deleted call had exactly one of each |
| UnaryServer.WorkingCallsAreNotDeleted | Socket/grpcImp/server.h:175-179 | a call is deleted only after its thread has replied and with nothing outstanding |
| UnaryServer.OneObjectListens | Socket/grpcImp/server.h:355-376 | in every run, whenever the consumer waits, exactly one object is there to listen, with its request outstanding or reported unless the server is deaf |
| UnaryServer.DeafIff | Socket/grpcImp/server.h:368-375 | the server is deaf iff the consumer has dropped a failed completion of a request |
| UnaryServer.DeafForGood | Socket/grpcImp/server.h:368-375 | a deaf server stays deaf and makes no object any more |
| UnaryServer.OneFailureDeafens | Socket/grpcImp/server.h:368-375 | whenever the listening request is outstanding, its failure makes the server deaf |
| UnaryServer.LostIsLeaked | Socket/grpcImp/server.h:368-375 | an object is leaked, unchanged, once any of its completions has failed |
| StreamServer.AsyncStreamTransmitImpl.constructor | Socket/grpcImp/server.h:47-53 | a new stream is in INIT_READ and has given gRPC one request |
| StreamServer.AsyncStreamTransmitImpl.Proceed | Socket/grpcImp/server.h:60-98 | what each branch does, reply and deletion included; INIT_READ makes one successor, armed before the read it falls through to |
| StreamServer.Alternation | Socket/grpcImp/server.h:60-87 | in every run a stream has at most one operation outstanding or reported, writes <= reads <= writes + 1, and it has one successor once it reads |
| StreamServer.TagsAreLive | Socket/grpcImp/server.h:60-98 | no operation, event or access names an address without an object |
| StreamServer.FinishIsNeverStored | Socket/grpcImp/server.h:60-98 | in every run no object is in FINISH, so the deleting branch is never taken |
| StreamServer.NothingIsFreed | Socket/grpcImp/server.h:89-93 | no stream object is ever freed |
| StreamServer.OneObjectListens | Socket/grpcImp/server.h:398-421 | in every run, whenever the consumer waits, exactly one object is there to listen, with its request outstanding or reported unless the server is deaf |
| StreamServer.DeafIff | Socket/grpcImp/server.h:413-420 | the server is deaf iff the consumer has dropped a failed completion of a request |
| StreamServer.DeafForGood | Socket/grpcImp/server.h:413-420 | a deaf server stays deaf and makes no object any more |
| StreamServer.OneFailureDeafens | Socket/grpcImp/server.h:413-420 | whenever the listening request is outstanding, its failure makes the server deaf |
| StreamServer.LostIsLeaked | Socket/grpcImp/server.h:413-420 | an object is leaked, unchanged, once any of its completions has failed, as when its client ends the stream |
| PeImage.Rva2Section32 | PEParse/PE32.c:29-37 | the first section that contains the address, with its end computed in 32 bits; NULL iff none does |
| PeImage.Rva2Fa32 | PEParse/PE32.c:40-63 | translation by the cached or first containing section, which is left in the caller's variable |
| PeImage.FillNames | PEParse/PE32.c:95-102 | fails iff an ordinal is out of range; otherwise slot o holds the translated name of the last index whose ordinal is o, and none if there is no such index |
| PeImage.ReadNames | PEParse/PE32.c:81-102 | the loop over the name table rejects, inverts, or reads through a bad pointer, in the order in which the source reads |
| PeImage.ParseExportTable32 | PEParse/PE32.c:65-120 | for every file: false iff the directory does not translate or an ordinal out of range is met; true iff all tables with entries can be read and all ordinals are in range, and then the array is the inversion of the name table; otherwise a null or wild pointer is read |
| PeImage.SearchNames | PEParse/PE32.c:246-259 | stops at the first index whose name has the wanted prefix and whose ordinal is in range |
| PeImage.FindDllExportProcAddr32 | PEParse/PE32.c:226-262 | the function of that index; NULL iff there is none or no export directory |
| PeImage.DirectoryLayout | PEParse/PE32.c:238-248 | the fields of the export directory are little-endian numbers at offsets 20 to 36 |
| PeImage.NamesLayout | PEParse/PE32.c:241-248 | name and ordinal tables have entries of four and two bytes |
| PeImage.FunctionsLayout | PEParse/PE32.c:243-257 | the function table has entries of four bytes |
| PeImage.MatchesIffPrefix | PEParse/PE32.c:248-255 | an index matches iff its name starts with the wanted one and its ordinal is in range |
| PeImage.ExactNameIff | PEParse/PE32.c:246-259 | for every table that exports the wanted name, first at index j: the search returns it iff no name with an ordinal in range that starts with it comes before j |
| PeImage.UnlistedName | PEParse/PE32.c:246-261 | for every table that does not export it: the search finds something iff some name with an ordinal in range starts with it, and then a longer name |
| PeImage.SortedTableGivesExactName | PEParse/PE32.c:246-259 | in a table sorted by name an exported name is found exactly |
| PeImage.LongerNameWins | PEParse/PE32.c:246-259 | an unsorted table in which the search for a listed name stops at a longer one |
| PeLoader.LoaderAgrees | PEParse/PE32.c:20-63 | the byte that a loader copies from the raw data, by the header fields alone, to a raw-backed address is the file byte at the translation of the address |
| PeLoader.TranslationIsInjective | PEParse/PE32.c:40-63 | different raw-backed addresses have different file positions |
| PeLoader.CachedSectionAgrees | PEParse/PE32.c:45-62 | a cached section gives the fresh answer iff a section is found that shifts addresses by the same amount |
| PeLoader.CachedSectionOwnAddresses | PEParse/PE32.c:45-62 | so it does for the addresses of the cached section |
| PeLoader.FileAndImageShareTables | PEParse/PE32.c:71-95 | the file parser, translating every address, reads the directory and tables that the image search reads directly |
| PeLoader.SearchAgreesWithTable | PEParse/PE32.c:95-102 | for every table: the slot of the export that the image search selects is the file position of the last name with the same ordinal, and starts with the wanted name iff that last name does |
| PeLoader.DistinctOrdinalsAgree | PEParse/PE32.c:95-102 | so when each ordinal is named once the slot holds a name starting with the wanted one |
| PeLoader.AliasHidesName | PEParse/PE32.c:95-102 | a table in which two names share an ordinal: the search finds the first, the parser keeps the other |
| Descendants.KillAllDescendantProcess | ApiTest/OsApi_Win32.cpp:700-790 | terminates, in list order and as often as they are listed, exactly the listed ids that descend from the target; none if the target is not positive |
| Descendants.WalksToTarget | ApiTest/OsApi_Win32.cpp:746-788 | the walk selects a process iff following parents leads to the target past positive ids |
| Descendants.DescendsByParent | ApiTest/OsApi_Win32.cpp:752-782 | descent is the fixed point: the parent is the target, or positive and itself a descendant |
| Descendants.DescendantsAreLeast | ApiTest/OsApi_Win32.cpp:746-788 | and the least one: every set closed under children contains all descendants |
| Descendants.HaltsInTime | ApiTest/OsApi_Win32.cpp:747-788 | a walk ends iff it ends before following more parents than the map has keys |
| Descendants.AllHaltIffNoAvoidingCycle | ApiTest/OsApi_Win32.cpp:744-789 | all walks end iff no cycle of positive ids avoids the target |
| Descendants.ParentMapKeepsLast | ApiTest/OsApi_Win32.cpp:730-735 | the map holds the parent of the last entry of an id |
| Descendants.ParentMapKeys | ApiTest/OsApi_Win32.cpp:730-735 | the map knows exactly the listed ids |
| Descendants.MutualParents | ApiTest/OsApi_Win32.cpp:747-788 | a snapshot of two processes on which the walk does not end |
| Reactor.ClientStreamReactor.constructor | myutils/ez_grpc/grpc_server/client_stream_reactor.cpp:7-13 | a new reactor is reading into an empty request, with whatever status the memory holds |
| Reactor.ClientStreamReactor.OnReadDone | myutils/ez_grpc/grpc_server/client_stream_reactor.cpp:18-34 | a read message is cleared and the next read started; a failed read disconnects |
| Reactor.ClientStreamReactor.DisconnectNow | myutils/ez_grpc/grpc_server/client_stream_reactor.cpp:41-47 | Finish is called unless the reactor is finished or done |
| Reactor.ClientStreamReactor.SetDone | myutils/ez_grpc/grpc_server/client_stream_reactor.cpp:36-39 | the status becomes done and nothing else |
| Reactor.Service.AddConnect | myutils/ez_grpc/grpc_server/service.h:30-33 | the reactor is registered |
| Reactor.Service.Sweep | myutils/ez_grpc/grpc_server/service.h:62-68 | one pass frees each done reactor once and leaves exactly the others registered |
| Reactor.FinishedAtMostOnce | myutils/ez_grpc/grpc_server/client_stream_reactor.cpp:18-47 | from every initial status and under every sequence of callbacks Finish is called at most once, and called iff the status was not finished or done at first and a disconnect or failed read precedes every OnDone |
| Reactor.RankNeverFalls | myutils/ez_grpc/grpc_server/client_stream_reactor.cpp:18-47 | under every sequence of callbacks the status only moves forward |
| Reactor.StatusOnlyAdvances | myutils/ez_grpc/grpc_server/client_stream_reactor.cpp:18-47 | and so it does in every run of the service |
| Reactor.RunSafety | myutils/ez_grpc/grpc_server/service.h:56-71 | for every initial status: none is freed twice; no step calls or writes a freed reactor unless its initial status was done, and one that began as finished is never freed; Finish is called at most once, reads started are those ended and the one in progress, and gRPC reads into an empty request |
| Reactor.UnsetDoneIsFreedInUse | myutils/ez_grpc/grpc_server/client_stream_reactor.cpp:7-13 | a run in which a reactor that began as done is freed while gRPC reads into it |
| Reactor.PassFreesWhatWasDone | myutils/ez_grpc/grpc_server/service.h:62-68 | a pass frees every reactor that was done when it began, and drops only done ones |
| Reactor.ClosedStreamIsFreed | myutils/ez_grpc/grpc_server/service.h:56-71 | from every reachable state between passes a registered reactor that did not begin as finished can be freed by at most four gRPC steps and two of the sweeper |
| ServiceStatus.ServiceContext.ReportSvcStatus | ServiceProgramTask/main.cpp:46-68 | fills the shared record, exit code and wait hint included, sends it and returns the answer; pending states are numbered, only START_PENDING refuses controls |
| ServiceStatus.OrderedUnlessStoppedTwice | ServiceProgramTask/main.cpp:131-258 | all runs report START_PENDING+ RUNNING STOP_PENDING+ STOPPED in order iff the SCM delivers no stop after STOP_PENDING was reported |
| ServiceStatus.OrderedIffNothingFollowsStopped | ServiceProgramTask/main.cpp:131-258 | of every single run, whatever stops are delivered: its reports are in order iff nothing is reported after STOPPED |
| StopDelivery.LateStopCanOvertake | ServiceProgramTask/main.cpp:185-227 | for every stop delivered after STOP_PENDING was reported, in every run: some continuation reports STOP_PENDING after STOPPED iff the main thread has still to send STOPPED |
| ServiceStatus.TwoStops | ServiceProgramTask/main.cpp:216-227 | a run with a second stop whose handler reports STOP_PENDING after STOPPED |
| ServiceStatus.ReportsMeanWhatTheySay | ServiceProgramTask/main.cpp:46-68 | under one stop the reporters never overlap, RUNNING means the worker has started, STOPPED that it has exited, both with their events reset, and pending reports are numbered 1, 2, 3, ... |
| ServiceStatus.StepKeepsInv | ServiceProgramTask/main.cpp:131-258 | every step of the two threads and the worker keeps the invariant |

## Left out

- `ez::signal::wait_for`: its result is unassigned when the flag is already set; the sweeper's wait becomes a free choice of when a pass starts.
- Interleaved imperative code: fields are accessed by several threads between any two statements, so interleavings are steps on values, and the methods of a class state what one critical section, access or uninterrupted call does.
- Reactor.Service.Sweep: does not model the iterator of the source, which erases from the set inside a range-for; the intended pass is modelled.
- Codec.Record.InternalParse: does not state, after a failed parse, the field whose reading failed and the unknown fields, because they are up to the protobuf runtime, which is not part of this model.
- Codec.Record.MergeFrom: takes a different object as its argument, as the debug check of the source demands.
- Messages.RelayPreservesBytes: is stated for messages without unknown fields of their own.
- Groups are flat start and end fields in the unknown field list; the limits of the protobuf runtime (ten and five bytes per varint, the longest length, nesting depth 100) come from that library, which is not part of this model.
- Descendants.KillAllDescendantProcess: reports the ids for which termination is attempted; opening and ending processes can fail in the system, which changes nothing in the selection, and an unavailable snapshot is the empty one.
- Descendants.WalksToTarget: is called only where the walk ends; AllHaltIffNoAvoidingCycle says exactly when that is.
- PeImage.ParseExportTable32: does not model base pointers of NULL, failing allocation, and reading past the end of the file.
- PeImage.Rva2Fa32: gives positions relative to the base pointer and does not model wrap-around of addresses at the end of memory.
- PeImage.FindDllExportProcAddr32: gives the function's address relative to the base pointer.
- PeLoader.SearchAgreesWithTable: is about directories, tables and names that lie in raw bytes of disjoint sections, because other bytes of an image are not in the file.
- The import table, file classification and the 64-bit parser in PEParse repeat the same translation.
- gRPC itself: every started operation completes once (with success in server_async.cpp, where the code asserts it), OnDone comes last, and metadata callbacks do nothing.
- ServiceStatus.OrderedUnlessStoppedTwice: is about runs in which no wait fails and status reports succeed; the error exits that report STOPPED early are not modelled.
- Joining threads: a pool's destructor waits for its workers, which the models show only as workers that have left; races between a join and the deletion of the object are not modelled.
- Fairness: progress results say which few steps are always possible, not that a scheduler takes them.
- Futures, exceptions thrown by tasks, the auto-growing build variant, and THREADPOOL_MAX_NUM other than its default.
- Arenas, reflection, descriptors, swap, text formats and the generated service stubs.
- Logging, hooks, drivers, shared memory, mail slots, ELF and DLL demos: input and output, or too simple to say something about.
