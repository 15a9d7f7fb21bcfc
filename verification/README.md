# A verified model of the mtnet connection life cycle

mtnet is a reactor-style network library: a `TcpServer` accepts clients on a base loop, hands each connection to
one of the I/O loops of an `EventLoopThreadPool`, and tears it down again with two posts between loops (I/O loop
to base loop, base loop to I/O loop). Shared references keep a connection and its `Channel` alive meanwhile. This
project models that protocol with any number of loops, connections and steps, and proves what its assertions
claim, together with the components that feed it.

| file | models |
|---|---|
| `Names.dfy` | connection names and the 32-byte buffer they are rendered into |
| `Channels.dfy` | `Channel` and one pass of `handelEvent` |
| `Protocol.dfy` | the life cycle as a step system: `Enabled`, `Next`, `IsRun`, `After`, `Reachable` |
| `Invariant.dfy`, `DispatchSteps.dfy`, `FunctorSteps.dfy`, `AcceptSteps.dfy` | the invariant, and that every step keeps it |
| `Safety.dfy`, `DoubleClose.dfy` | which assertions can fail, exactly when, and a run in which one does |
| `Effects.dfy`, `States.dfy` | when each step can happen and what it does, in terms of the program's own state; `state_` in every run |
| `Journeys.dfy` | that the runs exist: whole lives of connections on every loop |
| `Lifetime.dfy`, `Records.dfy` | how long connections live, who touches them, in which order things happen to them |
| `Accounting.dfy`, `Draining.dfy`, `Balance.dfy` | conservation, every drain and its end, balance over the loops |
| `Handshake.dfy`, `EventLoops.dfy`, `ThreadPool.dfy` | starting an I/O thread, `EventLoopThread`, `EventLoopThreadPool` |
| `Wakeups.dfy`, `LoopRuns.dfy` | one loop's functor queue, its eventfd and `quit`, with other threads in between; and each loop of the protocol as such a run, step by step |
| `Pollers.dfy`, `Registrations.dfy` | the `pollfd` vector, the channel map and the indices that join them; and what connections do to them |
| `Buffers.dfy` | `Buffer` and its scatter read |
| `Server.dfy` | `TcpServer`, `TcpConnection`, `Acceptor` as objects, each method proved to do the protocol's steps |

A step of the protocol is one thread running up to its next visible action, and steps of all threads interleave
freely. In particular `removeConnectionInLoop` is two steps, "erase" and "post", and each of the four tests of
`handelEvent` is one. A failed assertion stops the run and is recorded in `System.failure`. User callbacks may
`send` and `shutdown` at any point where their loop runs callbacks. What comes from outside (event bits, what `read`
and `accept` return, what callbacks do) is part of the events, so a statement about all runs covers every answer.

## What is not as the code intends

Five claims that one would expect do not hold of the code as written. Each is proved with its exact condition.

* `assert(n == 1)` in `removeConnectionInLoop` (`mtnet/TcpServer.cc:81`) can fail. `handleClose` does not change
  `state_`, and a hang-up without input that comes with `POLLPRI` runs the close callback and then the read callback,
  which closes again on end of file. (`POLLRDHUP` would do the same, but the program never asks `poll` for it.) A
  run that goes on to its end aborts if and only if one of its passes closes twice (`Safety.AbortsIffClosedTwice`),
  after a double close it cannot avoid the abort (`Draining.AbortIsInevitable`), and no other assertion fails in any
  run.
* `Buffer::shrink` (`mtnet/Buffer.h:133-138`) moves the readable bytes to index 8 but leaves the indices alone
  (`Buffers.ShrinkKeepsContentsIff`; `Buffers.ShrinkLosesBytes` is a buffer that loses a byte).
* `Poller::updateChannel` (`mtnet/Poller.cc:65-69`) negates the descriptor of a channel without events and never
  restores it, so such a channel cannot be enabled again (`Pollers.UpdateFollowsEventsIff`;
  `Registrations.DisabledStaysDisabled` is a channel that tries). Connections never need that, and `Safety` relies on
  it: after `handleClose` no later pass dispatches the channel.
* `EventLoop::loop` resets `quit_` (`mtnet/EventLoop.cc:82`), so a `quit` that arrives before it is forgotten and
  the join in `~EventLoopThread` then waits for ever (`Wakeups.QuitIsMetIff`).
* A functor passed to `queueInLoop` (`mtnet/EventLoop.cc:120-130`) need not run (`Wakeups.PushIsFollowedUpIff`). Queued
  by the loop's own thread before `loop()`, with no other wake-up under way, it is slept on until `poll` returns for
  another reason, its ten-second timeout at the latest (`Wakeups.EarlyFunctorIsStranded`). Queued in
  `doPendingFunctors` after `quit`, or after `loop()` has been left, it is dropped (`Wakeups.LateFunctorIsDropped`). In
  every other case it runs, if the loop is left to itself from then on.

## Assumptions

* The kernel hands out a descriptor only when it is not open, and a connection's descriptor is open as long as
  somebody holds the connection (`Protocol.CanAccept`).
* Connection ids stay within a 32-bit `int`.
* `poll` reports a channel only with event bits, and only with bits that were asked for (`POLLIN`, `POLLPRI` and
  `POLLOUT` at most, `mtnet/Channel.cc:11-12`) or with `POLLERR`, `POLLHUP` or `POLLNVAL`
  (`Channels.Reportable`).
* `pthread_cond_wait` releases the mutex and blocks in one step, takes the mutex again before it returns, and may
  return for no reason; `readv` fills the first area before the second; `poll` reports nothing for a negative
  descriptor (POSIX.1-2017, System Interfaces).
* The listening channel belongs to the base loop's poller (`mtnet/Acceptor.cc:12-16`, `mtnet/TcpServer.cc:18`), so only
  that poller reports it (`Protocol.Pollable`); `AcceptSteps.OnlyBaseAccepts` rests on this.
* The server outlives the run, and is driven from its base loop's thread as its assertions demand.
* Users call `send` and `shutdown` from callbacks on the connection's own loop. References on a thread's stack
  only prolong a life, so they are not counted in `Held`.
* The post after an erase is made by the thread that erased, which `Protocol.Erased` checks to be the base thread.

The table cites the core files at the lines that a member models or that depend on it. The lines of
`mtnet/EventLoop.cc`, `Poller.cc`, `TcpConnection.cc` and `Buffer.h` follow after it.

## Model

| member | source | states |
|---|---|---|
| Names.DecimalRoundTrip | mtnet/TcpServer.cc:53-54 | the decimal rendering of an id can be read back, so it loses nothing |
| Names.NameIsNotTruncated | mtnet/TcpServer.cc:53-56 | for every id of a 32-bit `int` the 32-byte buffer holds '#', all digits and the terminator |
| Names.NameInjective | mtnet/TcpServer.cc:53-63 | two ids give the same connection name if and only if they are equal, for any server name |
| Channels.PassClosesTwiceIff | mtnet/Channel.cc:43-57 | one dispatch pass closes twice exactly on a hang-up without input but with priority data or a peer shutdown whose read finds end of file; when it closes not at all |
| Channels.FiresIff | mtnet/Channel.cc:36-64 | the tests of `handelEvent`, bit by bit |
| Channels.PassCanCloseTwice | mtnet/Channel.cc:43-57 | the dispatcher alone does not give "close at most once": `POLLHUP` with `POLLPRI`, which `poll` can report |
| Channels.ReportedHangUp | mtnet/Channel.cc:43-57 | of the bits that `poll` can report, exactly `POLLHUP` with `POLLPRI` and without `POLLIN` runs the close and the read callback in one pass |
| Channels.Channel.HandelEvent | mtnet/Channel.cc:29-66 | bit by bit: error for POLLERR or POLLNVAL, close for POLLHUP without POLLIN, read for POLLIN, POLLPRI or POLLRDHUP, write for POLLOUT; each if installed, once, in this order, inside the window in which `eventHandling_` is set, whatever the callbacks do to what is polled |
| DispatchSteps.BeginGood | mtnet/Channel.cc:29-31 | opening a dispatch window keeps the invariant: the channel is known to its loop and no other window on it is open |
| DispatchSteps.QuietTestGood | mtnet/Channel.cc:36-64 | a test of `handelEvent` that does not close keeps the invariant, and leaves the connection's state alone unless the message callback of a read that brought data shuts it down |
| DispatchSteps.ClosingTestGood | mtnet/Channel.cc:43-57 | a test that closes keeps the invariant, or fails in `erase`, and does the latter exactly on the base loop with the entry gone |
| FunctorSteps.EstablishSucceeds | mtnet/TcpServer.cc:62-68 | a queued `connectEstablished` finds the right thread, a fresh connection and no registered channel of its descriptor, and leaves it connected, or disconnecting if the user shuts it down, registered and watched |
| FunctorSteps.RunErasedGood | mtnet/TcpServer.cc:76-81 | a queued removal keeps the invariant if the map has the entry, and fails `n == 1` otherwise, for connections on any loop |
| FunctorSteps.RunDestroyedGood | mtnet/TcpServer.cc:82-83 | a queued `connectDestroyed` fails no assertion and keeps the invariant |
| FunctorSteps.PostDestroyGood | mtnet/TcpServer.cc:82-83 | the post after an erase keeps the invariant although other threads stepped in between |
| AcceptSteps.AcceptGood | mtnet/TcpServer.cc:50-69 | accepting a client fails no thread assertion and keeps the invariant: a new name, a new descriptor, an establish functor queued or run inline |
| AcceptSteps.UndestroyedIsHeld | mtnet/TcpServer.cc:62-84 | a connection that has not been destroyed is referenced by the map, by a removal in progress or by a queued functor |
| AcceptSteps.OnlyBaseAccepts | mtnet/Acceptor.cc:31-33 | only the base loop dispatches the listening socket, so the assertions in `handleRead`, `newConnection` and `getNextLoop` hold |
| Safety.StepSafe | mtnet/TcpServer.cc:50-84 | every step of every thread keeps the invariant, except a removal whose entry is gone, and that one fails exactly `n == 1` |
| Safety.RunSafe | mtnet/TcpServer.cc:50-84 | the same over whole runs from any good state; `Journeys.WholeLives` shows that these include whole cross-loop teardowns |
| Safety.OnlyEraseCanFail | mtnet/TcpServer.cc:52-81 | in every reachable state, for any number of loops, no assertion on threads, states or registration has failed |
| Safety.OnceStep | mtnet/TcpServer.cc:71-81 | as long as no pass closes twice, nothing fails and every connection closes at most once |
| Safety.TwiceStep | mtnet/Channel.cc:43-57 | a second close in a pass always shows in the connection's record |
| Safety.QuiescentOnce | mtnet/TcpServer.cc:71-84 | where nothing is left to do, each connection is either closed once, erased and destroyed, or untouched and in the map |
| Safety.AbortsIffClosedTwice | mtnet/TcpServer.cc:80-81 | a run that aborts or comes to rest aborts if and only if one of its passes closed twice |
| Safety.NoDoubleCloseNoFailure | mtnet/TcpServer.cc:63-81 | in every run without a double close `erase` returns 1 each time and no assertion fails |
| DoubleClose.EraseAssertionCanFail | mtnet/TcpServer.cc:80-81 | a concrete run on a single loop, for any server name, in which `poll` reports `POLLHUP` with `POLLPRI` and `n == 1` fails |
| Effects.PollEnabledIff | mtnet/Channel.cc:29-31 | in every good state each loop's poll can report exactly the lists, without repetition, of its own established connections that were not closed, and the base loop's the listening socket |
| Effects.AcceptEnabledIff | mtnet/Acceptor.cc:31-43 | when it is the listening socket's turn, accept can bring any descriptor that is not open |
| Effects.PassEnabledIff | mtnet/Channel.cc:29-66 | a pass starts with every combination of bits that `poll` can report, and every test of it can have every outcome |
| Effects.FunctorsEnabledIff | mtnet/TcpServer.cc:68-83 | when queued functors are taken, run and released, when the second half of a removal is due, and when callbacks can use a connection |
| Effects.HeldIff | mtnet/TcpServer.cc:62-83 | a connection is alive exactly until it is destroyed and no queued or finished functor holds it |
| Effects.AcceptCreates | mtnet/TcpServer.cc:50-69 | the new connection: name, descriptor, loop, map entry under a name that was not there, and established at once or queued to be |
| Effects.TestCloses | mtnet/Channel.cc:43-57 | a test closes the connection, once, exactly for POLLHUP without POLLIN, or when a read for POLLIN, POLLPRI or POLLRDHUP finds end of file |
| Effects.TestPosts | mtnet/TcpServer.cc:71-74 | a test queues exactly a removal on the base loop for a close on another loop, or the write-complete callback for POLLOUT |
| Effects.UseDoes | mtnet/TcpServer.cc:64-66 | a user's `send` that is written at once queues the write-complete callback, a `shutdown` changes the state, and neither does anything else |
| Effects.PostDestroyDoes | mtnet/TcpServer.cc:82-83 | the second half of a removal queues `connectDestroyed` at the end of the connection's own loop's queue, and nothing else changes |
| Effects.LoopDoes | mtnet/Channel.cc:29-66 | a loop dispatches what poll reported in order, with the window open from begin to end, then runs what was queued by then, in order |
| Effects.EstablishedChecks | mtnet/TcpServer.cc:62-68 | which assertions stand in `connectEstablished`: its steps fail exactly on a wrong thread, a wrong state or a known descriptor |
| Effects.RemovalChecks | mtnet/TcpServer.cc:76-83 | which assertions stand in closing, erasing and destroying, and exactly when they fail |
| Effects.AcceptChecks | mtnet/Acceptor.cc:31-33 | accepting fails exactly off the base loop's thread |
| States.StateIsDecided | mtnet/TcpServer.cc:62-84 | in every run, on any loop: connecting until established, then connected or, if and only if an event of the run shut it down, disconnecting, until it is destroyed; closing does not change `state_` |
| Journeys.EveryConnectionCanEnd | mtnet/TcpServer.cc:71-84 | from every good state at rest, every open connection on any loop can be read to its end, erased by the base loop and destroyed on its own |
| Journeys.WholeLives | mtnet/TcpServer.cc:50-84 | for every number of I/O loops and every connection number there is a run in which that connection, on the loop of its turn, goes through the whole life cycle |
| Lifetime.DeadIsDestroyed | mtnet/Channel.cc:24-27 | when the last reference to a connection is gone, `connectDestroyed` has finished, its channel is not registered, watched or handled, and no loop has it in its active list or in a dispatch pass, whichever thread dropped it |
| Lifetime.ReachableDeadIsDestroyed | mtnet/Channel.cc:24-66 | the same in every reachable state: the assertion in `~Channel` never fails |
| Lifetime.DeadStaysDead | mtnet/TcpServer.cc:68-83 | no step creates a reference to a connection that has none |
| Lifetime.BaseThreadOwnsRegistry | mtnet/TcpServer.cc:52-78 | the map, the id counter and the round-robin cursor change only in steps of the base thread; any loop could be asked to accept or to remove, and the checks stop it |
| Lifetime.LoopThreadOwnsConnection | mtnet/TcpServer.cc:62-83 | state, registration and dispatch flag of a connection change only in steps of its own loop's thread |
| Lifetime.LifecycleIff | mtnet/TcpServer.cc:50-84 | for any number of loops a connection's record is a prefix of create, establish, close, erase, destroy if and only if it was closed at most once |
| Lifetime.EventsAtMostOnce | mtnet/TcpServer.cc:62-83 | created and established first, and nothing but closing ever happens twice, even in runs with a double close |
| Records.EventsInOrder | mtnet/TcpServer.cc:62-83 | in every reachable state, aborted or not, the record without any close but the first is a prefix of create, establish, close, erase, destroy |
| Lifetime.QueuesInOrder | mtnet/TcpServer.cc:68-83 | establish and destroy are queued at most once and only on the connection's loop, removals only on the base loop, and an establish is never queued beside a removal or a destroy |
| Lifetime.MapHoldsUnerased | mtnet/TcpServer.cc:63-80 | the map holds exactly the connections created and not yet erased, under their own names |
| Accounting.Conservation | mtnet/TcpServer.cc:54-83 | at every step, ids handed out = map entries + erased connections awaiting destruction + destroyed ones |
| Accounting.AwaitingIsInFlight | mtnet/TcpServer.cc:80-83 | an erased connection awaits destruction through exactly one queued functor or the removal between its halves |
| Accounting.StepWeight | mtnet/TcpServer.cc:68-84 | every step without new input makes a weighted measure smaller; a removal weighs more than the destroy it posts |
| Accounting.RunLength | mtnet/TcpServer.cc:68-84 | work per input is bounded: the length of any run by its start and its inputs |
| Draining.NotStuck | mtnet/TcpServer.cc:68-84 | whatever `poll` has reported, `read` and `accept` return and callbacks do, a state with work left has a step that works some of it off |
| Draining.AtRestIffQuiescent | mtnet/TcpServer.cc:68-84 | nothing can be worked off if and only if every loop waits in poll with an empty queue |
| Draining.EveryDrainEnds | mtnet/TcpServer.cc:68-84 | every run without new input is bounded by the measure, in any order across the loops and for all answers of the environment; at its end it has aborted in `erase` or left nothing to do, and it has aborted if and only if something was closed twice |
| Draining.AbortIsInevitable | mtnet/TcpServer.cc:80-81 | once a connection was closed twice every drain is bounded and has a next step until it aborts |
| Draining.Drain | mtnet/TcpServer.cc:68-84 | for every environment and every good state there is a drain that follows its answers, and it ends as above |
| Draining.QuiescentAccounts | mtnet/TcpServer.cc:71-84 | at rest, destroyed = closed, in the map = not closed, and nothing awaits destruction |
| Draining.DestroyedAreFreed | mtnet/TcpServer.cc:71-84 | at rest the connections that are still referenced are exactly those not destroyed: none leaks |
| Draining.DrainedRun | mtnet/TcpServer.cc:68-84 | every drain that comes to rest ends with exactly the closed connections erased and destroyed |
| Balance.StepRoundRobin | mtnet/TcpServer.cc:61 | in every step the k-th connection is on the loop that round robin gives the k-th turn |
| Balance.ConnectionsAreBalanced | mtnet/EventLoopThreadPool.cc:37-52 | in every run the numbers of connections handed out to the loops so far, alive or not, differ by at most one, and the base loop has none |
| Handshake.StartLoopReturnsTheLoop | mtnet/EventLoopThread.cc:25-48 | in every interleaving `startLoop` returns the non-null loop the new thread built, the unlocked read equals the value seen under the mutex, and `loop_` is written at most once |
| Handshake.NoLostWakeup | mtnet/EventLoopThread.cc:30-45 | the creator is never asleep once the only notify has gone by |
| Handshake.SomeThreadCanStep | mtnet/EventLoopThread.cc:25-48 | until `startLoop` returns some thread can step without a spurious wakeup |
| Handshake.StepMeasure | mtnet/EventLoopThread.cc:25-48 | every step but a spurious wakeup makes a measure smaller, and that one adds exactly two |
| Handshake.HandshakeTerminates | mtnet/EventLoopThread.cc:25-48 | a run has at most 31 steps plus three per spurious wakeup, and can go on exactly until `startLoop` has returned |
| EventLoops.EventLoopThread.Step | mtnet/EventLoopThread.cc:25-48 | each atomic step of either thread does to the shared fields what the handshake's transition says |
| EventLoops.EventLoopThread.StartLoop | mtnet/EventLoopThread.cc:25-37 | under any schedule and finitely many spurious wakeups it returns a new loop owned by the new thread, with `loop_` written once |
| ThreadPool.FullRound | mtnet/EventLoopThreadPool.cc:42-50 | every n consecutive calls reach each of n loops exactly once |
| ThreadPool.WindowShare | mtnet/EventLoopThreadPool.cc:42-50 | in a window of q*n+r calls each loop gets q or q+1 |
| ThreadPool.SharesDifferByAtMostOne | mtnet/EventLoopThreadPool.cc:42-50 | over any window of calls the shares of two loops differ by at most one |
| ThreadPool.EventLoopThreadPool.Start | mtnet/EventLoopThreadPool.cc:23-35 | both tables get the configured length; all loops are new, distinct, not the base loop, and entry i is the loop that thread i built and now runs |
| ThreadPool.EventLoopThreadPool.GetNextLoop | mtnet/EventLoopThreadPool.cc:37-52 | the loop under the cursor or the base loop; the cursor stays a valid index |
| ThreadPool.EventLoopThreadPool.GetLoops | mtnet/EventLoopThreadPool.cc:37-52 | over a whole run of calls the k-th gets loop k mod n |
| Wakeups.FunctorsRunOnceInOrder | mtnet/TcpServer.cc:68-83 | what the posts of `TcpServer` rely on: in every interleaving the functors of a loop run once each in the order they were queued: queued = run, then the batch, then the queue |
| Wakeups.AnyTime | mtnet/TcpServer.cc:68-83 | other threads post and quit at any time, and their writes come some time after |
| Wakeups.FollowedUpIff | mtnet/TcpServer.cc:68-83 | left to itself a loop runs everything queued, whatever the order of its steps, if and only if its queue will be taken again |
| Wakeups.PushIsFollowedUpIff | mtnet/TcpServer.cc:68-83 | a functor that is posted runs, once the loop is left to itself, exactly in these cases: before `loop()` if the post writes or another wake-up is under way, in `poll` and in a dispatch pass always, in `doPendingFunctors` unless `quit` was called, after `loop()` never |
| Wakeups.LateFunctorIsDropped | mtnet/EventLoopThread.cc:39-48 | after `threadFunc` has left `loop()`, a functor that another thread posts never runs |
| Wakeups.NoFunctorIsStranded | mtnet/TcpServer.cc:68-83 | without such calls the loop never sleeps on a queued functor: the eventfd is set or a write is about to come |
| Wakeups.EarlyFunctorIsStranded | mtnet/TcpServer.cc:36-48 | on the base loop's thread, before `loop()`, where `start` is called too: `start` is safe because `runInLoop` runs at once there, but a functor that user code queues with `queueInLoop` leaves the loop asleep with it |
| Wakeups.StepMeasure | mtnet/TcpServer.cc:68-83 | every step that needs nothing from outside makes a measure smaller |
| Wakeups.EveryFunctorRuns | mtnet/TcpServer.cc:68-83 | a loop that is left alone and not told to quit comes to rest within the measure and has then run every functor, in order |
| Wakeups.QuitIsMetIff | mtnet/EventLoopThread.cc:18-23 | after the `quit` before the join no run, whatever is posted or becomes ready in it, comes to rest before the loop's thread has left `loop()`, if and only if `loop()` had begun |
| LoopRuns.EveryLoopRuns | mtnet/TcpServer.cc:68-83 | each event of a protocol run is, for each loop, a fixed block of `Wakeups` steps; the blocks form a run that matches the loop after every event, pushes exactly what the events post to the loop and runs exactly what they run there, with no push unannounced, and a loop that waits in poll with functors queued is woken |
| LoopRuns.PostsRunOnceInOrder | mtnet/TcpServer.cc:68-83 | in every protocol run each loop runs what is posted to it, by whatever thread, once and in order: posted = run, then the rest of the vector, then the queue |
| Pollers.MutedForGood | mtnet/Channel.cc:68-71 | once updated to no events, a channel is not polled again by any sequence of updates until it is removed |
| Pollers.UpdateFollowsEventsIff | mtnet/Channel.cc:68-71 | an update makes "polled" mean "has events" exactly for a new channel with events, or a known one that is not asked to come back |
| Pollers.Poller.UpdateChannel | mtnet/Channel.cc:68-71 | the channel's entry gets its events and no reported ones; its descriptor is muted without events, and otherwise kept; vector, map and indices stay in step and the other entries stay |
| Pollers.Poller.RemoveChannel | mtnet/Channel.cc:14-27 | before a channel goes, exactly its entry leaves the poller; swapping the last entry into the gap keeps the other channels' indices right |
| Pollers.Poller.FillActiveChannels | mtnet/Channel.cc:29-66 | from any valid poller and the kernel's count: exactly the channels with something to report become active, each once, and each learns its own event bits |
| Pollers.Poller.PickedInOrder | mtnet/Channel.cc:29-66 | no channel is dispatched twice for one poll |
| Pollers.Poller.PickedAll | mtnet/Channel.cc:29-66 | every channel with something to report is dispatched |
| Registrations.EnableReading | mtnet/Channel.cc:10-12 | `enableReading` on a new channel, of a connection or of the acceptor, adds POLLIN and POLLPRI to its events, makes the poller know it and look at it for them, and changes no other entry |
| Registrations.EnableWriting | mtnet/Channel.cc:10-12 | `enableWriting` adds POLLOUT, and only that, to the channel's events and its entry; a channel that was closed is not looked at again |
| Registrations.DisableWriting | mtnet/Channel.cc:10-12 | `disableWriting` takes POLLOUT, and only that, from the channel's events and its entry; a channel that is read stays looked at |
| Registrations.DisableAll | mtnet/Channel.cc:68-71 | after `disableAll` the poller knows the channel but does not look at it |
| Registrations.Deregister | mtnet/TcpServer.cc:82-83 | the poller's part of `connectDestroyed` fails no assertion of the poller, and the poller forgets the channel |
| Registrations.DisabledStaysDisabled | mtnet/Channel.cc:68-71 | a channel that is enabled, disabled and enabled again has events to wait for and is not looked at |
| Buffers.Buffer.MakeSpace | mtnet/Buffer.cc:29-33 | the spill-over finds room without a change to the readable bytes, with a new vector exactly when the free space is too small |
| Buffers.Buffer.EnsureWritableBytes | mtnet/Buffer.cc:29-33 | afterwards there is room for the spilled bytes, and the readable bytes are the same |
| Buffers.Buffer.Append | mtnet/Buffer.cc:29-33 | the readable bytes become the old ones followed by the new ones |
| Buffers.Buffer.Scatter | mtnet/Buffer.cc:13-20 | the bytes taken lie behind the readable ones as far as there is room, and the rest in the second area |
| Buffers.Buffer.ReadFd | mtnet/Buffer.cc:11-35 | fitting, spilling or failing, the read appends exactly the bytes taken, in order, and saves the error number only on failure |
| Buffers.Perform | mtnet/Buffer.cc:11-35 | a read takes what is asked for as far as it is there and fits, a failing read nothing, a retrieval hands out what is asked for as far as it is readable; no byte is lost, repeated or reordered |
| Buffers.Session | mtnet/Buffer.cc:11-35 | over any sequence of reads and retrievals, bytes handed out followed by bytes readable are the bytes readable at first followed by those taken from the descriptor, a prefix of its stream; at least what the reads are sure to have room for is taken, if it is there; a session that ends by handing out everything has handed out all of it |
| Buffers.ShrinkKeepsContentsIff | mtnet/Buffer.h:133-138 | `shrink` keeps the readable bytes, whatever they are, if and only if they started at index 8, or there are none and the index stays in range |
| Buffers.ShrinkLosesBytes | mtnet/Buffer.h:133-138 | a buffer that has received two bytes and handed out one loses the other when it is shrunk |
| Server.TcpServer.Start | mtnet/TcpServer.cc:36-48 | the first call builds the loop table, later calls leave it; the socket listens once and stays listening |
| Server.TcpServer.NewConnection | mtnet/TcpServer.cc:50-69 | the objects change as the protocol's accept step says, inline or posted |
| Server.TcpServer.RemoveConnection | mtnet/TcpServer.cc:71-74 | inline on the base thread, where it aborts exactly if the entry is gone; posted from any other thread; as in the protocol |
| Server.TcpServer.RemoveConnectionInLoop | mtnet/TcpServer.cc:76-84 | `n == 1` holds exactly when the entry is there; then erase and post are the protocol's two halves, otherwise the protocol fails in `erase` too |
| Server.TcpServer.HandleClose | mtnet/TcpServer.cc:67-74 | the first and any later close of a connection does what the protocol's close does, and aborts exactly when that fails |
| Server.TcpServer.DestroyNow | mtnet/TcpServer.cc:82-83 | the object's `connectDestroyed` is the protocol's |
| Server.TcpServer.HandleRead | mtnet/Acceptor.cc:31-48 | a failed accept changes nothing, a successful one creates exactly one connection |
| Server.TcpServer.Serve | mtnet/TcpServer.cc:30-48 | over any sequence of `start`, `setThreadNum` and clients: listening from the first `start` and told so once, a loop table of the size configured then, as many connections as clients after it, each on the loop of its turn |
| Server.FirstStart | mtnet/TcpServer.cc:30-48 | the number of loops is the one configured when `start` is called first, and the clients after that call are the accepted ones |

## Own lines of the collaborators

* `mtnet/EventLoop.cc:77-106` and `120-202` (loop, quit, queue, wake-up, pending functors): `Wakeups`, `LoopRuns`,
  `EventLoops.EventLoop.QueueInLoop`, `DispatchSteps.PollGood`, `DispatchSteps.SwapGood`, `DispatchSteps.ReleaseGood`.
* `mtnet/TcpConnection.cc:94-101`, `117-156`, `196-203` (shutdown, destroyed, established, read, close):
  `Protocol.Established`, `Destroyed`, `Closed` and `CallBack`, and the class `Server.TcpConnection`.
* `mtnet/Poller.cc:39-121` (update, remove, fill) and `mtnet/Channel.h:59-82` (enable, disable): `Pollers` and
  `Registrations`.
* `mtnet/Buffer.h:22-138` and `155-173` (indices, retrieve, append, prepend, shrink, make space): `Buffers.Buffer`.

## Left out

- Sockets, address conversion, `epoll`, timers, logging and the build: thin system-call wrappers or plumbing.
- `TcpConnection::send` from another thread: its queued functor holds a plain pointer, so its safety depends on the
  user's own references; `Protocol.Use` covers `send` and `shutdown` on the connection's own loop, and whether a
  write completes at once is left open.
- The bytes of the output buffer and the half-close done by `shutdownInLoop`: they do not touch the life cycle.
- `TcpServer` and `EventLoop` destruction, and `~EventLoopThread` beyond its call of `quit`.
- References that user code keeps: they only prolong a connection's life.
- Connection ids beyond the 32-bit `int` range, where the counter's increment has no defined result.
- `Buffer::swap`, `retrieveUntil` and the overloads of `append`: variants of members that are modelled.
- Server.TcpServer.HandleClose: the objects run one method at a time; what other threads do between its parts is in
  the step system only. Here a connection's channel is its two flags; `Registrations` ties those to the poller.
- Safety.AbortsIffClosedTwice: speaks of runs that abort or come to rest; a run cut short may stop between the second
  close and the removal that fails, and `Draining.AbortIsInevitable` says that it would.
- EventLoops.EventLoop.QueueInLoop: without the wake-up, which is modelled in `Wakeups`.
- Wakeups.NoFunctorIsStranded: a short write to the eventfd, which the source only logs, does not happen here.
- Pollers.Poller.FillActiveChannels: the cast of the event bits to `short` is not modelled; all bits used are small.
