/** The objects of `TcpServer.cc` and `Acceptor.cc`, proved against the step system: each method does to the
    program's fields what the corresponding steps do to the state of `Protocol`. */
module Server {
  import opened Names
  import opened Options
  import opened Channels
  import opened Protocol
  import opened EventLoops
  import opened ThreadPool
  import P = Protocol

  class TcpConnection {
    const id: nat          // position among all connections ever created
    const name: string
    const fd: int
    const loop: EventLoop
    var state: ConnState
    var registered: bool
    var watched: bool
    var handling: bool
    ghost var trace: seq<LifeEvent>

    constructor (id: nat, loop: EventLoop, name: string, fd: int)
      ensures this.id == id && this.loop == loop && this.name == name && this.fd == fd
      ensures Value() == Conn(name, fd, loop.threadId, Connecting, false, false, false, [Create])
    {
      this.id, this.loop, this.name, this.fd := id, loop, name, fd;
      state, registered, watched, handling, trace := Connecting, false, false, false, [Create];
    }

    ghost function Value(): Conn
      reads this
    {
      Conn(name, fd, loop.threadId, state, registered, watched, handling, trace)
    }

    method ConnectEstablished(thread: nat, shut: bool)
      requires loop.IsInLoopThread(thread) && state.Connecting?
      modifies this
      ensures Value() == old(Value()).(state := if shut then Disconnecting else Connected, registered := true,
                                       watched := true, trace := old(Value()).trace + [Establish])
    {
      state := Connected;
      registered, watched := true, true;
      trace := trace + [Establish];
      if shut {
        Shutdown();
      }
    }

    /** `TcpConnection::shutdown`, as far as the connection's state goes. */
    method Shutdown()
      modifies this`state
      ensures Value() == old(Value()).(state := if old(state).Connected? then Disconnecting else old(state))
    {
      if state.Connected? {
        state := Disconnecting;
      }
    }

    method ConnectDestroyed(thread: nat)
      requires loop.IsInLoopThread(thread) && (state.Connected? || state.Disconnecting?) && registered
      modifies this
      ensures Value() == old(Value()).(state := Disconnected, registered := false, watched := false,
                                       trace := old(Value()).trace + [Destroy])
    {
      state := Disconnected;
      watched := false;
      registered := false;
      trace := trace + [Destroy];
    }

    /** `handleClose` up to its call of the close callback. */
    method DisableForClose(thread: nat)
      requires loop.IsInLoopThread(thread) && (state.Connected? || state.Disconnecting?) && registered
      modifies this
      ensures Value() == old(Value()).(watched := false, trace := old(Value()).trace + [Close])
    {
      watched := false;
      trace := trace + [Close];
    }
  }

  class Acceptor {
    const loop: EventLoop
    var listenning: bool
    var listenCalls: nat    // how often the socket was told to listen

    constructor (loop: EventLoop)
      ensures this.loop == loop && !listenning && listenCalls == 0
    {
      this.loop := loop;
      listenning, listenCalls := false, 0;
    }

    method Listen(thread: nat)
      requires loop.IsInLoopThread(thread)
      modifies this
      ensures listenning && listenCalls == old(listenCalls) + 1
    {
      listenning := true;
      listenCalls := listenCalls + 1;
    }
  }

  ghost function LoopValues(loops: seq<EventLoop>): (values: seq<Loop>)
    reads loops
    ensures |values| == |loops| && forall i | 0 <= i < |loops| :: values[i] == loops[i].Value()
  {
    seq(|loops|, i requires 0 <= i < |loops| reads loops => loops[i].Value())
  }

  ghost function ConnValues(conns: seq<TcpConnection>): (values: seq<Conn>)
    reads conns
    ensures |values| == |conns| && forall i | 0 <= i < |conns| :: values[i] == conns[i].Value()
  {
    seq(|conns|, i requires 0 <= i < |conns| reads conns => conns[i].Value())
  }

  lemma LoopsAre(loops: seq<EventLoop>, values: seq<Loop>)
    requires |values| == |loops| && forall i | 0 <= i < |loops| :: loops[i].Value() == values[i]
    ensures LoopValues(loops) == values
  {}

  lemma ConnsAre(conns: seq<TcpConnection>, values: seq<Conn>)
    requires |values| == |conns| && forall i | 0 <= i < |conns| :: conns[i].Value() == values[i]
    ensures ConnValues(conns) == values
  {}

  ghost function Ids(connections: map<string, TcpConnection>): (ids: map<string, nat>)
    ensures ids.Keys == connections.Keys && forall n | n in connections :: ids[n] == connections[n].id
  {
    map n | n in connections :: connections[n].id
  }

  /** Connections are numbered in order of creation and live on the program's loops, each loop at the index of
      its thread. */
  ghost predicate RegistryOk(registry: seq<TcpConnection>, loops: seq<EventLoop>) {
    forall c | 0 <= c < |registry| ::
      registry[c].id == c && registry[c].loop.threadId < |loops| && loops[registry[c].loop.threadId] == registry[c].loop
  }

  ghost predicate MapOk(connections: map<string, TcpConnection>, registry: seq<TcpConnection>) {
    forall n | n in connections :: connections[n].id < |registry| && registry[connections[n].id] == connections[n]
  }

  lemma Enter(connections: map<string, TcpConnection>, registry: seq<TcpConnection>, loops: seq<EventLoop>,
              conn: TcpConnection)
    requires RegistryOk(registry, loops) && MapOk(connections, registry)
    requires conn.id == |registry| && conn.loop.threadId < |loops| && loops[conn.loop.threadId] == conn.loop
    ensures RegistryOk(registry + [conn], loops) && MapOk(connections, registry + [conn])
  {}

  lemma Remove(connections: map<string, TcpConnection>, registry: seq<TcpConnection>, name: string)
    requires MapOk(connections, registry)
    ensures MapOk(connections - {name}, registry)
  {}

  lemma IdsAdd(connections: map<string, TcpConnection>, name: string, conn: TcpConnection)
    ensures Ids(connections[name := conn]) == Ids(connections)[name := conn.id]
  {}

  lemma IdsRemove(connections: map<string, TcpConnection>, name: string)
    ensures Ids(connections - {name}) == Ids(connections) - {name}
  {}

  // --- what a server is asked to do ---

  /** What the base thread of a server does in the setting-up phase and when clients arrive. */
  datatype Request = StartCall | SetThreads(n: nat) | Arrival(fd: int)

  /** The value last passed to `setThreadNum`. */
  ghost function Configured(calls: seq<Request>): nat {
    if calls == [] then 0
    else if calls[|calls| - 1].SetThreads? then calls[|calls| - 1].n
    else Configured(calls[..|calls| - 1])
  }

  /** The value configured when `start` is called first. */
  ghost function LoopsFor(calls: seq<Request>): nat {
    if StartCall !in calls then 0
    else if calls[|calls| - 1].StartCall? && StartCall !in calls[..|calls| - 1] then Configured(calls)
    else LoopsFor(calls[..|calls| - 1])
  }

  /** The clients that arrive after the first `start`. */
  ghost function Accepted(calls: seq<Request>): nat {
    if calls == [] then 0
    else Accepted(calls[..|calls| - 1]) +
         B(calls[|calls| - 1].Arrival? && calls[|calls| - 1].fd >= 0 && StartCall in calls[..|calls| - 1])
  }

  lemma {:induction false} NoStartYet(history: seq<Request>)
    requires StartCall !in history
    ensures Accepted(history) == 0
  {
    if history != [] {
      NoStartYet(history[..|history| - 1]);
    }
  }

  /** What the three functions say about a history in which `start` is called first after `before`: the last number
      configured before that call decides the number of loops, and the clients after it are accepted. */
  lemma {:induction false} FirstStart(before: seq<Request>, after: seq<Request>)
    requires StartCall !in before
    ensures var calls := before + [StartCall] + after;
            LoopsFor(calls) == Configured(before) && Accepted(calls) == Clients(after)
  {
    var calls := before + [StartCall] + after;
    if after == [] {
      assert calls[..|calls| - 1] == before;
      NoStartYet(before);
    } else {
      var last := |after| - 1;
      FirstStart(before, after[..last]);
      assert calls[..|calls| - 1] == before + [StartCall] + after[..last];
      assert calls[..|calls| - 1][|before|] == StartCall;
    }
  }

  ghost function Clients(calls: seq<Request>): nat {
    if calls == [] then 0
    else Clients(calls[..|calls| - 1]) + if calls[|calls| - 1].Arrival? && 0 <= calls[|calls| - 1].fd then 1 else 0
  }

  lemma {:induction false} LastConfigured(before: seq<Request>, n: nat, after: seq<Request>)
    requires forall m: nat :: SetThreads(m) !in after
    ensures Configured(before + [SetThreads(n)] + after) == n
  {
    var calls := before + [SetThreads(n)] + after;
    if after != [] {
      assert after[|after| - 1] in after;
      LastConfigured(before, n, after[..|after| - 1]);
      assert calls[..|calls| - 1] == before + [SetThreads(n)] + after[..|after| - 1];
    }
  }

  lemma AfterArrival(history: seq<Request>, fd: int)
    ensures var more := history + [Arrival(fd)];
            && Configured(more) == Configured(history) && LoopsFor(more) == LoopsFor(history)
            && Accepted(more) == Accepted(history) + B(fd >= 0 && StartCall in history)
            && (StartCall in more <==> StartCall in history)
  {
    assert (history + [Arrival(fd)])[..|history|] == history;
  }

  // --- removals, in the protocol's terms ---

  /** From `s`, which has erased connection `c`, the second half of `removeConnectionInLoop` leads to `t`. */
  ghost predicate Finishes(s: System, t: System, c: nat) {
    s.failure.None? && s.erasing == Some(c) && c < |s.conns| && s.conns[c].loop < |s.loops| && t == P.DestroyPosted(s)
  }

  /** Both halves of `removeConnectionInLoop` lead from `s` to `t`. */
  ghost predicate Removes(s: System, t: System, c: nat) {
    c < |s.conns| && Finishes(P.Erased(s, 0, c), t, c)
  }

  /** From `s`, the removal of connection `c` fails its assertion and leaves the state as it was. */
  ghost predicate RemovalFails(s: System, t: System, c: nat) {
    c < |s.conns| && P.Erased(s, 0, c).failure == Some(EraseMissing) && t == s
  }

  /** What remains after the name has been erased, if it was there. */
  lemma RemovalIs(s: System, c: nat)
    requires c < |s.conns| && s.conns[c].loop < |s.loops| && s.failure.None? && s.erasing.None?
    ensures var k, t := s.conns[c], s.(connections := s.connections - {s.conns[c].name});
            if k.name in s.connections
            then Removes(s, Post(P.SetConn(t, c, k.(trace := k.trace + [Erase])), k.loop, ConnectDestroyed(c)), c)
            else RemovalFails(s, t, c)
  {
    if s.conns[c].name !in s.connections {
      assert s.connections - {s.conns[c].name} == s.connections;
    }
  }

  /** The turn that a new connection takes. */
  lemma NewConnectionTurn(s: System, fd: int, shut: bool)
    requires P.NextLoop(s) < |s.loops|
    ensures var t, c := P.NewConnection(s, fd, shut), |s.conns|;
            && t.next == P.NextCursor(s)
            && |t.conns| == c + 1 && t.conns[c].fd == fd && t.conns[c].loop == P.NextLoop(s)
  {}

  class TcpServer {
    const loop: EventLoop
    const name: string
    const acceptor: Acceptor
    const threadPool: EventLoopThreadPool
    var started: bool
    var nextConnId: nat
    var connections: map<string, TcpConnection>
    /** Every connection ever created, dead or alive. */
    ghost var registry: seq<TcpConnection>

    ghost function Loops(): seq<EventLoop>
      reads this, threadPool
    {
      [loop] + threadPool.loops
    }

    /** One of the program's loops, which sits at the index of its thread. */
    ghost predicate Owns(l: EventLoop)
      reads this, threadPool
    {
      l.threadId < |Loops()| && Loops()[l.threadId] == l
    }

    ghost predicate Knows(conn: TcpConnection)
      reads this
    {
      conn.id < |registry| && registry[conn.id] == conn
    }

    ghost predicate Valid()
      reads this, threadPool
    {
      && threadPool.Valid() && threadPool.baseLoop == loop && acceptor.loop == loop
      && started == threadPool.started
      && nextConnId == |registry| + 1
      && RegistryOk(registry, Loops())
      && MapOk(connections, registry)
    }

    /** The state of the step system that the program's fields stand for. */
    ghost function View(): System
      reads this, threadPool, Loops(), registry
    {
      System(name, nextConnId, threadPool.next, LoopValues(Loops()), ConnValues(registry),
             Ids(connections), None, None)
    }

    constructor (loop: EventLoop, name: string)
      requires loop.threadId == 0 && loop.Value() == P.Loop([], [], [], Polling)
      ensures Valid() && this.loop == loop && this.name == name && View() == Init(name, 0)
      ensures !started && !acceptor.listenning && acceptor.listenCalls == 0 && threadPool.numThreads == 0
      ensures fresh(acceptor) && fresh(threadPool)
    {
      this.loop := loop;
      this.name := name;
      acceptor := new Acceptor(loop);
      threadPool := new EventLoopThreadPool(loop);
      started := false;
      nextConnId := 1;
      connections := map[];
      registry := [];
    }

    method SetThreadNum(numThreads: int)
      requires Valid() && 0 <= numThreads
      modifies threadPool`numThreads
      ensures Valid() && threadPool.numThreads == numThreads
    {
      threadPool.SetThreadNum(numThreads);
    }

    /** The pool is started by the first call only, and the socket listens from the first call on. */
    method Start(thread: nat)
      requires Valid() && loop.IsInLoopThread(thread)
      modifies this`started, threadPool`started, threadPool`threads, threadPool`loops, acceptor
      ensures Valid() && started && acceptor.listenning
      ensures acceptor.listenCalls == old(acceptor.listenCalls) + if old(acceptor.listenning) then 0 else 1
      ensures old(started) ==>
                threadPool.loops == old(threadPool.loops) && threadPool.threads == old(threadPool.threads)
      ensures !old(started) ==> |threadPool.loops| == if threadPool.numThreads < 0 then 0 else threadPool.numThreads
      ensures !old(started) ==> forall i | 0 <= i < |threadPool.loops| ::
                && fresh(threadPool.loops[i]) && fresh(threadPool.threads[i])
                && threadPool.loops[i].Value() == P.Loop([], [], [], Polling)
    {
      if !started {
        started := true;
        threadPool.Start(thread);
      }
      if !acceptor.listenning {
        // loop_->runInLoop: this is the loop's own thread
        acceptor.Listen(thread);
      }
    }

    lemma ThreadOfLoop(i: nat)
      requires Valid() && i < |Loops()|
      ensures Loops()[i].threadId == i
    {
      assert i > 0 ==> Loops()[i] == threadPool.loops[i - 1];
    }

    /** `queueInLoop` on one of the program's loops is the protocol's `Post`. */
    method QueueTo(target: EventLoop, cb: Functor)
      requires Valid() && Owns(target)
      modifies target`pendingFunctors
      ensures Valid() && target.threadId < |old(View()).loops|
      ensures View() == Post(old(View()), target.threadId, cb)
    {
      ghost var before := View();
      target.QueueInLoop(cb);
      forall k: nat | k < |Loops()| ensures Loops()[k].threadId == k {
        ThreadOfLoop(k);
      }
      LoopsAre(Loops(), before.loops[target.threadId := target.Value()]);
      ConnsAre(registry, before.conns);
    }

    /** The next id, the next loop, and a connection made of them. */
    method CreateConnection(connName: string, sockfd: int, thread: nat) returns (conn: TcpConnection)
      requires Valid() && loop.IsInLoopThread(thread)
      modifies this`nextConnId, this`registry, threadPool`next
      ensures Valid() && registry == old(registry) + [conn] && fresh(conn) && conn.id == |old(registry)|
      ensures conn.loop.threadId == P.NextLoop(old(View())) && conn.fd == sockfd
      ensures conn.state.Connecting? && !conn.registered
      ensures Owns(conn.loop)
      ensures View() == CreatedAs(old(View()), connName, sockfd).(connections := old(View()).connections)
    {
      ghost var before := View();
      ThreadOfLoop(P.NextLoop(before));
      nextConnId := nextConnId + 1;
      var ioLoop := threadPool.GetNextLoop(thread);
      conn := new TcpConnection(nextConnId - 2, ioLoop, connName, sockfd);
      registry := registry + [conn];
      LoopsAre(Loops(), before.loops);
      ConnsAre(registry, before.conns + [conn.Value()]);
      Enter(connections, old(registry), Loops(), conn);
    }

    /** `connections_[connName] = conn`. */
    method EnterName(connName: string, conn: TcpConnection)
      requires Valid() && Knows(conn)
      modifies this`connections
      ensures Valid() && View() == old(View()).(connections := old(View()).connections[connName := conn.id])
    {
      ghost var before := View();
      IdsAdd(connections, connName, conn);
      connections := connections[connName := conn];
      LoopsAre(Loops(), before.loops);
      ConnsAre(registry, before.conns);
    }

    /** The part of `newConnection` that only the base thread sees, for a given name. */
    method AddConnection(connName: string, sockfd: int, thread: nat) returns (conn: TcpConnection)
      requires Valid() && loop.IsInLoopThread(thread)
      modifies this`nextConnId, this`connections, this`registry, threadPool`next
      ensures Valid() && registry == old(registry) + [conn] && fresh(conn) && conn.id == |old(registry)|
      ensures conn.loop.threadId == P.NextLoop(old(View())) && conn.fd == sockfd
      ensures conn.state.Connecting? && !conn.registered
      ensures Owns(conn.loop) && Knows(conn)
      ensures View() == CreatedAs(old(View()), connName, sockfd)
    {
      conn := CreateConnection(connName, sockfd, thread);
      EnterName(connName, conn);
    }

    /** `newConnection` does what the step system's accept step does. The kernel never hands out a descriptor
        that is still open, in particular not one whose channel is registered. */
    method NewConnection(sockfd: int, shut: bool, thread: nat)
      requires Valid() && nextConnId < INT_MAX
      requires forall c | 0 <= c < |registry| && registry[c].registered :: registry[c].fd != sockfd
      requires loop.IsInLoopThread(thread)
      modifies this`nextConnId, this`connections, this`registry, threadPool`next
      modifies (set l | l in Loops())`pendingFunctors
      ensures Valid() && |registry| == |old(registry)| + 1 && registry[..|old(registry)|] == old(registry)
      ensures fresh(registry[|old(registry)|])
      ensures P.NextLoop(old(View())) < |old(View()).loops|
      ensures View() == P.NewConnection(old(View()), sockfd, shut)
    {
      var conn := AddConnection(ConnName(name, nextConnId), sockfd, thread);
      if conn.loop.IsInLoopThread(thread) {
        EstablishNow(conn, thread, shut);
      } else {
        assert conn.loop in Loops();
        QueueTo(conn.loop, ConnectEstablished(conn.id));
      }
    }

    /** `runInLoop` of `connectEstablished` on the base loop's own thread. */
    method EstablishNow(conn: TcpConnection, thread: nat, shut: bool)
      requires Valid() && Knows(conn) && conn.loop.IsInLoopThread(thread) && conn.state.Connecting? && !conn.registered
      requires forall c | 0 <= c < |registry| && registry[c].registered :: registry[c].fd != conn.fd
      modifies conn
      ensures Valid() && conn.id < |old(View()).conns|
      ensures View() == P.Established(old(View()), thread, conn.id, shut)
    {
      ghost var before := View();
      conn.ConnectEstablished(thread, shut);
      ConnsAre(registry, before.conns[conn.id := conn.Value()]);
      LoopsAre(Loops(), before.loops);
    }

    /** `connections_.erase(name)`: how many entries went. */
    method EraseName(connName: string) returns (n: nat)
      requires Valid()
      modifies this`connections
      ensures Valid() && n == if connName in old(connections) then 1 else 0
      ensures View() == old(View()).(connections := old(View()).connections - {connName})
    {
      ghost var before := View();
      n := if connName in connections then 1 else 0;
      IdsRemove(connections, connName);
      Remove(connections, registry, connName);
      connections := connections - {connName};
      ConnsAre(registry, before.conns);
      LoopsAre(Loops(), before.loops);
    }

    /** Bookkeeping of the model: the connection's record. */
    ghost method RecordErase(conn: TcpConnection)
      requires Valid() && Knows(conn)
      modifies conn`trace
      ensures Valid() && conn.id < |old(View()).conns|
      ensures View() == P.SetConn(old(View()), conn.id, old(conn.Value()).(trace := old(conn.trace) + [Erase]))
    {
      ghost var before := View();
      conn.trace := conn.trace + [Erase];
      ConnsAre(registry, before.conns[conn.id := conn.Value()]);
      LoopsAre(Loops(), before.loops);
    }

    /** What follows a successful erase: the record, and the post to the connection's own loop. */
    method DestroyLater(conn: TcpConnection)
      requires Valid() && Knows(conn)
      modifies conn`trace, conn.loop`pendingFunctors
      ensures Valid() && connections == old(connections)
      ensures conn.id < |old(View()).conns| && conn.loop.threadId < |old(View()).loops|
      ensures View() == Post(P.SetConn(old(View()), conn.id, old(conn.Value()).(trace := old(conn.trace) + [Erase])),
                             conn.loop.threadId, ConnectDestroyed(conn.id))
    {
      RecordErase(conn);
      QueueTo(conn.loop, ConnectDestroyed(conn.id));
    }

    /** `removeConnectionInLoop`; `ok` says whether its assertion on the number of erased entries held. It holds
        exactly when the entry is there, and then the two halves are the protocol's `Erased` and `DestroyPosted`;
        otherwise nothing has changed and the protocol fails as well. */
    method RemoveConnectionInLoop(conn: TcpConnection, thread: nat) returns (ok: bool)
      requires Valid() && Knows(conn) && loop.IsInLoopThread(thread)
      modifies this`connections, conn`trace, conn.loop`pendingFunctors
      ensures Valid() && (ok <==> conn.name in old(connections))
      ensures if ok then Removes(old(View()), View(), conn.id) else RemovalFails(old(View()), View(), conn.id)
    {
      RemovalIs(View(), conn.id);
      var n := EraseName(conn.name);
      ok := n == 1;
      if ok {
        DestroyLater(conn);
      }
    }

    /** `removeConnection`, called by the close callback on any thread: inline on the base thread, posted to the
        base loop from any other; a post cannot fail. */
    method RemoveConnection(conn: TcpConnection, thread: nat) returns (ok: bool)
      requires Valid() && Knows(conn)
      modifies this`connections, conn`trace, conn.loop`pendingFunctors, loop`pendingFunctors
      ensures Valid() && (ok <==> thread != 0 || conn.name in old(connections))
      ensures if thread != 0 then conn.id < |old(View()).conns| && View() == P.Removed(old(View()), thread, conn.id)
              else if ok then Removes(old(View()), View(), conn.id)
              else RemovalFails(old(View()), View(), conn.id)
    {
      ok := true;
      if loop.IsInLoopThread(thread) {
        ok := RemoveConnectionInLoop(conn, thread);
      } else {
        QueueTo(loop, P.RemoveConnectionInLoop(conn.id));
      }
    }

    /** The first half of `handleClose`, seen in the protocol's state. */
    method MarkClosed(conn: TcpConnection, thread: nat)
      requires Valid() && Knows(conn) && conn.registered
      requires conn.loop.IsInLoopThread(thread) && (conn.state.Connected? || conn.state.Disconnecting?)
      modifies conn
      ensures Valid() && conn.id < |old(View()).conns|
      ensures View() == P.SetConn(old(View()), conn.id, conn.Value())
      ensures conn.Value() == old(conn.Value()).(watched := false, trace := old(conn.trace) + [Close])
    {
      ghost var before := View();
      conn.DisableForClose(thread);
      ConnsAre(registry, before.conns[conn.id := conn.Value()]);
      LoopsAre(Loops(), before.loops);
    }

    /** `TcpConnection::handleClose` with the server's close callback, the first time and any later time: it does
        what the protocol's close does, and aborts (`ok` is false) exactly when that fails. */
    method HandleClose(conn: TcpConnection, thread: nat) returns (ok: bool)
      requires Valid() && Knows(conn) && conn.registered
      requires conn.loop.IsInLoopThread(thread) && (conn.state.Connected? || conn.state.Disconnecting?)
      modifies this`connections, conn, conn.loop`pendingFunctors, loop`pendingFunctors
      ensures Valid() && conn.id < |old(View()).conns|
      ensures ok <==> P.Closed(old(View()), thread, conn.id).failure.None?
      ensures !ok ==> P.Closed(old(View()), thread, conn.id).failure == Some(EraseMissing)
      ensures ok ==> if thread == 0 then Finishes(P.Closed(old(View()), thread, conn.id), View(), conn.id)
                     else View() == P.Closed(old(View()), thread, conn.id)
    {
      MarkClosed(conn, thread);
      ok := RemoveConnection(conn, thread);
    }

    /** `connectDestroyed`, run from the loop's queue on the loop's own thread. */
    method DestroyNow(conn: TcpConnection, thread: nat)
      requires Valid() && Knows(conn) && conn.registered
      requires conn.loop.IsInLoopThread(thread) && (conn.state.Connected? || conn.state.Disconnecting?)
      modifies conn
      ensures Valid() && conn.id < |old(View()).conns|
      ensures View() == P.Destroyed(old(View()), thread, conn.id)
    {
      ghost var before := View();
      conn.ConnectDestroyed(thread);
      ConnsAre(registry, before.conns[conn.id := conn.Value()]);
      LoopsAre(Loops(), before.loops);
    }

    /** `Acceptor::handleRead` with the server's callback: nothing happens when accept failed. */
    method HandleRead(connfd: int, shut: bool, thread: nat)
      requires Valid() && nextConnId < INT_MAX && acceptor.listenning
      requires 0 <= connfd ==> forall c | 0 <= c < |registry| && registry[c].registered :: registry[c].fd != connfd
      requires loop.IsInLoopThread(thread)
      modifies this`nextConnId, this`connections, this`registry, threadPool`next
      modifies (set l | l in Loops())`pendingFunctors
      ensures Valid()
      ensures connfd < 0 ==> View() == old(View()) && registry == old(registry)
      ensures 0 <= connfd ==>
                && P.NextLoop(old(View())) < |old(View()).loops|
                && View() == P.NewConnection(old(View()), connfd, shut)
      ensures 0 <= connfd ==> |registry| == |old(registry)| + 1 && registry[..|old(registry)|] == old(registry)
                              && fresh(registry[|old(registry)|])
    {
      if connfd >= 0 {
        NewConnection(connfd, shut, thread);
      }
    }

    /** One client for a listening server, and the loop it gets. */
    method Arrive(fd: int, thread: nat)
      requires Valid() && nextConnId < INT_MAX && acceptor.listenning
      requires 0 <= fd ==> forall c | 0 <= c < |registry| && registry[c].registered :: registry[c].fd != fd
      requires loop.IsInLoopThread(thread)
      modifies this`nextConnId, this`connections, this`registry, threadPool`next
      modifies (set l | l in Loops())`pendingFunctors
      ensures Valid()
      ensures fd < 0 ==> registry == old(registry) && threadPool.next == old(threadPool.next)
      ensures 0 <= fd ==>
                && |registry| == |old(registry)| + 1 && registry[..|old(registry)|] == old(registry)
                && fresh(registry[|old(registry)|]) && registry[|old(registry)|].fd == fd
                && (if threadPool.loops == [] then registry[|old(registry)|].loop == loop
                    else registry[|old(registry)|].loop == threadPool.loops[old(threadPool.next)]
                         && threadPool.next ==
                            if old(threadPool.next) + 1 >= |threadPool.loops| then 0 else old(threadPool.next) + 1)
    {
      ghost var before := View();
      HandleRead(fd, false, thread);
      if 0 <= fd {
        NewConnectionTurn(before, fd, false);
        ghost var k := registry[|old(registry)|];
        assert View().conns[|before.conns|] == k.Value();
        assert Owns(k.loop);
      }
    }

    /** The k-th connection is on loop k mod n of the table, or on the base loop if the table is empty. */
    ghost predicate InTurn()
      reads this, threadPool
    {
      && (threadPool.loops != [] ==> threadPool.next == |registry| % |threadPool.loops|)
      && forall c | 0 <= c < |registry| ::
           registry[c].loop == if threadPool.loops == [] then loop else threadPool.loops[c % |threadPool.loops|]
    }

    /** One client, and the next turn. */
    method TakeTurn(fd: int, thread: nat)
      requires Valid() && InTurn() && nextConnId < INT_MAX && acceptor.listenning
      requires 0 <= fd ==> forall c | 0 <= c < |registry| && registry[c].registered :: registry[c].fd != fd
      requires loop.IsInLoopThread(thread)
      modifies this`nextConnId, this`connections, this`registry, threadPool`next
      modifies (set l | l in Loops())`pendingFunctors
      ensures Valid() && InTurn()
      ensures if fd < 0 then registry == old(registry)
              else |registry| == |old(registry)| + 1 && registry[..|old(registry)|] == old(registry)
                   && registry[|old(registry)|].fd == fd
    {
      if threadPool.loops != [] {
        ModStep(|registry|, |threadPool.loops|);
      }
      Arrive(fd, thread);
      assert forall c | 0 <= c < |old(registry)| :: registry[c] == old(registry)[c];
    }

    /** What a history of calls has led to. */
    ghost predicate Served(history: seq<Request>)
      reads this, threadPool, acceptor
    {
      && Valid() && InTurn()
      && started == acceptor.listenning == (StartCall in history) && acceptor.listenCalls == B(StartCall in history)
      && threadPool.numThreads == Configured(history) && |threadPool.loops| == LoopsFor(history)
      && |registry| == Accepted(history) <= |history|
      && forall c | 0 <= c < |registry| :: Arrival(registry[c].fd) in history && registry[c].fd >= 0
    }

    method ServeStart(ghost history: seq<Request>, thread: nat)
      requires Served(history) && loop.IsInLoopThread(thread)
      modifies this`started, threadPool`started, threadPool`threads, threadPool`loops, acceptor
      ensures Served(history + [StartCall])
      ensures forall l | l in threadPool.loops && l !in old(threadPool.loops) :: fresh(l)
    {
      assert (history + [StartCall])[..|history|] == history;
      if !started {
        NoStartYet(history);
      }
      Start(thread);
    }

    method ServeArrival(fd: int, ghost history: seq<Request>, thread: nat)
      requires Served(history) && loop.IsInLoopThread(thread) && |history| < INT_MAX - 1
      requires 0 <= fd ==> Arrival(fd) !in history
      modifies this`nextConnId, this`connections, this`registry, threadPool`next
      modifies (set l | l in Loops())`pendingFunctors
      ensures Served(history + [Arrival(fd)]) && threadPool.loops == old(threadPool.loops)
    {
      AfterArrival(history, fd);
      if acceptor.listenning {
        TakeTurn(fd, thread);
        assert forall c | 0 <= c < |old(registry)| :: registry[c] == old(registry)[c];
      }
    }

    method ServeSetThreads(n: nat, ghost history: seq<Request>)
      requires Served(history)
      modifies threadPool`numThreads
      ensures Served(history + [SetThreads(n)])
    {
      assert (history + [SetThreads(n)])[..|history|] == history;
      SetThreadNum(n);
    }

    /** Any sequence of `start`, `setThreadNum` and arriving clients on the base thread of a new server: the pool
        starts once and the socket listens once, if `start` is called at all; the number of loops is the one
        configured at the first `start` and never changes afterwards; and connections are handed out in turn. */
    method Serve(calls: seq<Request>, thread: nat)
      requires Valid() && !started && !acceptor.listenning && acceptor.listenCalls == 0 && threadPool.numThreads == 0
      requires registry == [] && loop.IsInLoopThread(thread) && |calls| < INT_MAX - 1
      requires forall i, j | 0 <= i < j < |calls| && calls[i].Arrival? && calls[j].Arrival? && calls[i].fd >= 0 ::
                 calls[i].fd != calls[j].fd
      modifies this, threadPool, acceptor, loop`pendingFunctors
      ensures Served(calls)
      ensures started == acceptor.listenning == (StartCall in calls)
      ensures acceptor.listenCalls == if StartCall in calls then 1 else 0
      ensures |threadPool.loops| == LoopsFor(calls) && |registry| == Accepted(calls)
      ensures forall c | 0 <= c < |registry| ::
                && registry[c].fd >= 0 && Arrival(registry[c].fd) in calls
                && registry[c].loop == if threadPool.loops == [] then loop else threadPool.loops[c % |threadPool.loops|]
    {
      var k := 0;
      while k < |calls|
        invariant 0 <= k <= |calls| && Served(calls[..k])
        invariant forall l | l in threadPool.loops :: fresh(l)
      {
        assert calls[..k + 1] == calls[..k] + [calls[k]];
        match calls[k] {
          case StartCall => ServeStart(calls[..k], thread);
          case SetThreads(n) => ServeSetThreads(n, calls[..k]);
          case Arrival(fd) => ServeArrival(fd, calls[..k], thread);
        }
        k := k + 1;
      }
      assert calls[..k] == calls;
    }
  }
}
