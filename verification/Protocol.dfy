/** The connection lifecycle across event loops as a step system. Loop 0 is the base loop; the others are the
    pool's I/O loops. Every step is one thread running up to its next visible action: a push to another
    loop's queue, one test of a dispatch pass, one functor, or one half of `removeConnectionInLoop`. */
module Protocol {
  import opened Names
  import opened Options
  import opened Channels

  /** `TcpConnection::StateE`. */
  datatype ConnState = Connecting | Connected | Disconnecting | Disconnected

  /** What happened to a connection so far; a record kept by the model, not by the program. */
  datatype LifeEvent = Create | Establish | Close | Erase | Destroy

  const LIFECYCLE: seq<LifeEvent> := [Create, Establish, Close, Erase, Destroy]

  /** A `TcpConnection` and its `Channel`: `registered` when the poller knows the channel, `watched` when it
      also polls it, `handling` for `eventHandling_`. */
  datatype Conn = Conn(name: string, fd: int, loop: nat, state: ConnState, registered: bool, watched: bool,
                       handling: bool, trace: seq<LifeEvent>)

  /** The functors that are bound to a connection; each one holds a shared reference to it. */
  datatype Functor =
    | ConnectEstablished(conn: nat)
    | RemoveConnectionInLoop(conn: nat)
    | ConnectDestroyed(conn: nat)
    | WriteComplete(conn: nat)

  /** An entry of `activeChannels_`: the listening socket or a connection. The channels of the wake-up and
      timer descriptors do not touch connections and are left out. */
  datatype Source = AcceptSource | ConnSource(conn: nat)

  /** Where a thread is in `EventLoop::loop`. */
  datatype Activity =
    | Polling
    | Dispatching(active: seq<Source>)
    | Handling(conn: nat, revents: bv16, stage: Stage, active: seq<Source>)
    | Calling

  /** `pending` is `pendingFunctors_`; `todo` and `done` are the two parts of the local vector of
      `doPendingFunctors`, which keeps a functor it has run until the whole vector goes away. */
  datatype Loop = Loop(pending: seq<Functor>, todo: seq<Functor>, done: seq<Functor>, activity: Activity)

  /** The assertions of the program. */
  datatype Failure =
    | WrongThread        // assertInLoopThread
    | BadState           // the assertions on state_ in TcpConnection
    | PollerMismatch     // the assertions on registration in Poller
    | EraseMissing       // assert(n == 1)

  /** `next` is the pool's cursor; `erasing` is the connection that the base thread has erased but whose
      `connectDestroyed` it has not posted yet. */
  datatype System = System(name: string, nextConnId: nat, next: nat, loops: seq<Loop>, conns: seq<Conn>,
                           connections: map<string, nat>, erasing: Option<nat>, failure: Option<Failure>)

  function Init(name: string, threads: nat): System {
    System(name, 1, 0, seq(threads + 1, i => Loop([], [], [], Polling)), [], map[], None, None)
  }

  function SetLoop(s: System, l: nat, loop: Loop): System
    requires l < |s.loops|
  {
    s.(loops := s.loops[l := loop])
  }

  function SetConn(s: System, c: nat, conn: Conn): System
    requires c < |s.conns|
  {
    s.(conns := s.conns[c := conn])
  }

  function Fail(s: System, why: Failure): System {
    s.(failure := Some(why))
  }

  /** `EventLoop::queueInLoop`. */
  function Post(s: System, l: nat, f: Functor): System
    requires l < |s.loops|
  {
    SetLoop(s, l, s.loops[l].(pending := s.loops[l].pending + [f]))
  }

  /** `EventLoopThreadPool::getNextLoop`: the loop it picks and the cursor it leaves. */
  function NextLoop(s: System): nat {
    if |s.loops| <= 1 then 0 else s.next + 1
  }

  function NextCursor(s: System): nat {
    if |s.loops| <= 1 then s.next else if s.next + 1 >= |s.loops| - 1 then 0 else s.next + 1
  }

  /** `TcpConnection::connectEstablished` run by thread `l`; `shut` says whether the user's callback calls
      `shutdown`. */
  function Established(s: System, l: nat, c: nat, shut: bool): System
    requires c < |s.conns|
  {
    var k := s.conns[c];
    if l != k.loop then Fail(s, WrongThread)
    else if !k.state.Connecting? then Fail(s, BadState)
    else if k.registered || exists d: nat | d < |s.conns| ::
              s.conns[d].registered && s.conns[d].loop == l && s.conns[d].fd == k.fd
    then Fail(s, PollerMismatch)
    else SetConn(s, c, k.(state := if shut then Disconnecting else Connected, registered := true, watched := true,
                          trace := k.trace + [Establish]))
  }

  /** A connection of the given name is created on the next loop and entered into the map. */
  function CreatedAs(s: System, connName: string, fd: int): System {
    s.(nextConnId := s.nextConnId + 1,
       next := NextCursor(s),
       conns := s.conns + [Conn(connName, fd, NextLoop(s), Connecting, false, false, false, [Create])],
       connections := s.connections[connName := |s.conns|])
  }

  /** `TcpServer::newConnection` for descriptor `fd`, up to the map assignment. */
  function Created(s: System, fd: int): System {
    CreatedAs(s, ConnName(s.name, s.nextConnId), fd)
  }

  /** The whole of `newConnection`, up to and including its last visible action. */
  function NewConnection(s: System, fd: int, shut: bool): System
    requires NextLoop(s) < |s.loops|
  {
    var c, io := |s.conns|, NextLoop(s);
    if io == 0 then Established(Created(s, fd), 0, c, shut) else Post(Created(s, fd), io, ConnectEstablished(c))
  }

  /** The first half of `removeConnectionInLoop`: erase by name, and check that something was erased. */
  function Erased(s: System, l: nat, c: nat): System
    requires c < |s.conns|
  {
    if l != 0 then Fail(s, WrongThread)
    else if s.conns[c].name !in s.connections then Fail(s, EraseMissing)
    else SetConn(s.(connections := s.connections - {s.conns[c].name}, erasing := Some(c)), c,
                 s.conns[c].(trace := s.conns[c].trace + [Erase]))
  }

  /** The second half: post `connectDestroyed` to the connection's own loop. */
  function DestroyPosted(s: System): System
    requires s.erasing.Some? && s.erasing.value < |s.conns| && s.conns[s.erasing.value].loop < |s.loops|
  {
    Post(s.(erasing := None), s.conns[s.erasing.value].loop, ConnectDestroyed(s.erasing.value))
  }

  /** `TcpServer::removeConnection`: `runInLoop` on the base loop. */
  function Removed(s: System, l: nat, c: nat): System
    requires c < |s.conns| && 0 < |s.loops|
  {
    if l == 0 then Erased(s, l, c) else Post(s, 0, RemoveConnectionInLoop(c))
  }

  /** `TcpConnection::handleClose`. It does not change `state_`. */
  function Closed(s: System, l: nat, c: nat): System
    requires c < |s.conns| && 0 < |s.loops|
  {
    var k := s.conns[c];
    if l != k.loop then Fail(s, WrongThread)
    else if !k.state.Connected? && !k.state.Disconnecting? then Fail(s, BadState)
    else if !k.registered then Fail(s, PollerMismatch)
    else Removed(SetConn(s, c, k.(watched := false, trace := k.trace + [Close])), l, c)
  }

  /** `TcpConnection::connectDestroyed`. */
  function Destroyed(s: System, l: nat, c: nat): System
    requires c < |s.conns|
  {
    var k := s.conns[c];
    if l != k.loop then Fail(s, WrongThread)
    else if !k.state.Connected? && !k.state.Disconnecting? then Fail(s, BadState)
    else if !k.registered then Fail(s, PollerMismatch)
    else SetConn(s, c, k.(state := Disconnected, registered := false, watched := false, trace := k.trace + [Destroy]))
  }

  /** A functor at the head of `todo` is run by thread `l`. */
  function Execute(s: System, l: nat, f: Functor, shut: bool): System
    requires f.conn < |s.conns| && 0 < |s.loops|
  {
    match f
    case ConnectEstablished(c) => Established(s, l, c, shut)
    case RemoveConnectionInLoop(c) => Erased(s, l, c)
    case ConnectDestroyed(c) => Destroyed(s, l, c)
    case WriteComplete(_) => s
  }

  /** The callback of one stage of a dispatch pass. `read` is what `read` returned; `flag` is what the opaque
      part does: call `shutdown` from the message callback, or finish the output from the write callback. */
  function CallBack(s: System, l: nat, c: nat, stage: Stage, read: int, flag: bool): System
    requires c < |s.conns| && l < |s.loops|
  {
    match stage
    case OnError => s
    case OnClose => Closed(s, l, c)
    case OnRead =>
      if read == 0 then Closed(s, l, c)
      else if read > 0 && flag && s.conns[c].state.Connected? then SetConn(s, c, s.conns[c].(state := Disconnecting))
      else s
    case OnWrite => if flag then Post(s, l, WriteComplete(c)) else s
    case OnEnd => s
  }

  datatype Event =
    | Poll(loop: nat, ready: seq<Source>)          // poll returns these channels
    | Accept(loop: nat, fd: int, shut: bool)       // the listening socket's turn; fd < 0 when accept failed
    | Begin(loop: nat, revents: bv16)              // handelEvent sets eventHandling_
    | Test(loop: nat, read: int, flag: bool)       // one `if` of handelEvent
    | End(loop: nat)                               // handelEvent clears eventHandling_
    | Swap(loop: nat)                              // doPendingFunctors takes the queue
    | Run(loop: nat, shut: bool)                   // it runs one functor
    | Use(loop: nat, conn: nat, send: bool)        // a user's callback calls send or shutdown
    | PostDestroy                                  // removeConnectionInLoop posts connectDestroyed
    | Release(loop: nat)                           // the local vector goes away

  function ThreadOf(e: Event): nat {
    if e.PostDestroy? then 0 else e.loop
  }

  /** Every reference to a connection that the program holds: its map entry, queued functors, functors of a
      batch that has not been released, and the argument of a `removeConnectionInLoop` in progress. */
  ghost predicate Held(s: System, c: nat)
    requires c < |s.conns|
  {
    || (s.conns[c].name in s.connections && s.connections[s.conns[c].name] == c)
    || s.erasing == Some(c)
    || exists l: nat, f: Functor :: l < |s.loops| && f in References(s.loops[l]) && f.conn == c
  }

  function References(loop: Loop): seq<Functor> {
    loop.pending + loop.todo + loop.done
  }

  function Active(activity: Activity): seq<Source> {
    if activity.Dispatching? || activity.Handling? then activity.active else []
  }

  /** Thread `l` is free to take its next step: a base thread inside `removeConnectionInLoop` has to finish it. */
  ghost predicate Free(s: System, l: nat) {
    s.failure.None? && l < |s.loops| && (l == 0 ==> s.erasing.None?)
  }

  /** `poll` reports each channel at most once, and only channels of this loop that it watches. */
  ghost predicate Pollable(s: System, l: nat, ready: seq<Source>) {
    && (forall i, j | 0 <= i < j < |ready| :: ready[i] != ready[j])
    && (forall src | src in ready ::
          match src
          case AcceptSource => l == 0
          case ConnSource(c) => c < |s.conns| && s.conns[c].loop == l && s.conns[c].registered && s.conns[c].watched)
  }

  function SetActivity(s: System, l: nat, activity: Activity): System
    requires l < |s.loops|
  {
    SetLoop(s, l, s.loops[l].(activity := activity))
  }

  // --- the steps; `CanX` says when one is enabled, `DoX` what it does ---

  ghost predicate CanPoll(s: System, l: nat, ready: seq<Source>) {
    Free(s, l) && s.loops[l].activity.Polling? && Pollable(s, l, ready)
  }

  function DoPoll(s: System, l: nat, ready: seq<Source>): System
    requires l < |s.loops|
  {
    SetActivity(s, l, Dispatching(ready))
  }

  /** The kernel hands out only descriptors that are not open, and a connection closes its own when it dies. */
  ghost predicate CanAccept(s: System, l: nat, fd: int) {
    && Free(s, l)
    && var activity := s.loops[l].activity;
    && activity.Dispatching? && |activity.active| > 0 && activity.active[0].AcceptSource?
    && (0 <= fd ==>
          && s.nextConnId < INT_MAX && NextLoop(s) < |s.loops|
          && forall c: nat | c < |s.conns| && Held(s, c) :: s.conns[c].fd != fd)
  }

  /** `Acceptor::handleRead` run by thread `l`. */
  function DoAccept(s: System, l: nat, fd: int, shut: bool): System
    requires l < |s.loops| && |Active(s.loops[l].activity)| > 0 && NextLoop(s) < |s.loops|
  {
    var s1 := SetActivity(s, l, Dispatching(Active(s.loops[l].activity)[1..]));
    if l != 0 then Fail(s1, WrongThread)
    else if fd < 0 then s1
    else NewConnection(s1, fd, shut)
  }

  ghost predicate CanBegin(s: System, l: nat) {
    && Free(s, l)
    && var activity := s.loops[l].activity;
       && activity.Dispatching? && |activity.active| > 0 && activity.active[0].ConnSource?
       && activity.active[0].conn < |s.conns|
  }

  ghost function DoBegin(s: System, l: nat, revents: bv16): System
    requires CanBegin(s, l)
  {
    var active := s.loops[l].activity.active;
    var c := active[0].conn;
    SetConn(SetActivity(s, l, Handling(c, revents, OnError, active[1..])), c, s.conns[c].(handling := true))
  }

  ghost predicate CanTest(s: System, l: nat) {
    && Free(s, l)
    && var activity := s.loops[l].activity;
       activity.Handling? && !activity.stage.OnEnd? && activity.conn < |s.conns|
  }

  ghost function DoTest(s: System, l: nat, read: int, flag: bool): System
    requires CanTest(s, l)
  {
    var h := s.loops[l].activity;
    var s1 := SetActivity(s, l, h.(stage := h.stage.Next()));
    if Fires(h.revents, h.stage) then CallBack(s1, l, h.conn, h.stage, read, flag) else s1
  }

  ghost predicate CanEnd(s: System, l: nat) {
    && Free(s, l)
    && var activity := s.loops[l].activity;
       activity.Handling? && activity.stage.OnEnd? && activity.conn < |s.conns|
  }

  ghost function DoEnd(s: System, l: nat): System
    requires CanEnd(s, l)
  {
    var h := s.loops[l].activity;
    SetConn(SetActivity(s, l, Dispatching(h.active)), h.conn, s.conns[h.conn].(handling := false))
  }

  ghost predicate CanSwap(s: System, l: nat) {
    Free(s, l) && s.loops[l].activity.Dispatching? && s.loops[l].activity.active == []
  }

  function DoSwap(s: System, l: nat): System
    requires l < |s.loops|
  {
    SetLoop(s, l, Loop([], s.loops[l].pending, [], Calling))
  }

  ghost predicate CanRun(s: System, l: nat) {
    Free(s, l) && s.loops[l].activity.Calling? && s.loops[l].todo != [] && s.loops[l].todo[0].conn < |s.conns|
  }

  function DoRun(s: System, l: nat, shut: bool): System
    requires l < |s.loops| && s.loops[l].todo != [] && s.loops[l].todo[0].conn < |s.conns|
  {
    Execute(Taken(s, l), l, s.loops[l].todo[0], shut)
  }

  /** The head of `todo` is being run; the vector keeps its reference. */
  function Taken(s: System, l: nat): System
    requires l < |s.loops| && s.loops[l].todo != []
  {
    var p := s.loops[l];
    SetLoop(s, l, p.(todo := p.todo[1..], done := p.done + [p.todo[0]]))
  }

  /** The user's code runs inside the callbacks of a loop, and calls `send` or `shutdown` on connections of that
      loop. Both look at `state_` first. */
  ghost predicate CanUse(s: System, l: nat, c: nat) {
    && Free(s, l) && !s.loops[l].activity.Polling?
    && c < |s.conns| && s.conns[c].loop == l && s.conns[c].state.Connected?
  }

  /** A `send` that is written at once queues the write-complete callback; `shutdown` changes the state. */
  function DoUse(s: System, l: nat, c: nat, send: bool): System
    requires l < |s.loops| && c < |s.conns|
  {
    if send then Post(s, l, WriteComplete(c)) else SetConn(s, c, s.conns[c].(state := Disconnecting))
  }

  ghost predicate CanPostDestroy(s: System) {
    && s.failure.None? && 0 < |s.loops|
    && s.erasing.Some? && s.erasing.value < |s.conns| && s.conns[s.erasing.value].loop < |s.loops|
  }

  ghost predicate CanRelease(s: System, l: nat) {
    Free(s, l) && s.loops[l].activity.Calling? && s.loops[l].todo == []
  }

  function DoRelease(s: System, l: nat): System
    requires l < |s.loops|
  {
    SetLoop(s, l, s.loops[l].(done := [], activity := Polling))
  }

  ghost predicate Enabled(s: System, e: Event) {
    match e
    case Poll(l, ready) => CanPoll(s, l, ready)
    case Accept(l, fd, _) => CanAccept(s, l, fd) && NextLoop(s) < |s.loops|
    case Begin(l, revents) => CanBegin(s, l) && Reportable(revents)
    case Test(l, _, _) => CanTest(s, l)
    case End(l) => CanEnd(s, l)
    case Swap(l) => CanSwap(s, l)
    case Run(l, _) => CanRun(s, l)
    case Use(l, c, _) => CanUse(s, l, c)
    case PostDestroy => CanPostDestroy(s)
    case Release(l) => CanRelease(s, l)
  }

  ghost function Next(s: System, e: Event): System
    requires Enabled(s, e)
  {
    match e
    case Poll(l, ready) => DoPoll(s, l, ready)
    case Accept(l, fd, shut) => DoAccept(s, l, fd, shut)
    case Begin(l, revents) => DoBegin(s, l, revents)
    case Test(l, read, flag) => DoTest(s, l, read, flag)
    case End(l) => DoEnd(s, l)
    case Swap(l) => DoSwap(s, l)
    case Run(l, shut) => DoRun(s, l, shut)
    case Use(l, c, send) => DoUse(s, l, c, send)
    case PostDestroy => DestroyPosted(s)
    case Release(l) => DoRelease(s, l)
  }

  /** A run: every event is enabled where it happens. */
  ghost predicate IsRun(s: System, es: seq<Event>)
    decreases |es|
  {
    es == [] || (Enabled(s, es[0]) && IsRun(Next(s, es[0]), es[1..]))
  }

  ghost function After(s: System, es: seq<Event>): System
    requires IsRun(s, es)
    decreases |es|
  {
    if es == [] then s else After(Next(s, es[0]), es[1..])
  }

  ghost predicate Reachable(s: System) {
    exists name, threads: nat, es :: IsRun(Init(name, threads), es) && After(Init(name, threads), es) == s
  }
}
