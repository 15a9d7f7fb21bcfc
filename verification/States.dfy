/** `TcpConnection::state_` in every run: it follows from what has happened to the connection and from whether the
    user's code has shut it down, and from nothing else. */
module States {
  import opened Channels
  import opened Protocol
  import opened Invariant
  import opened FunctorSteps
  import opened DispatchSteps
  import opened AcceptSteps
  import opened Safety

  /** The event lets the user's code shut connection `c` down: from the connection callback of `connectEstablished`,
      run at once or from the queue, from the message callback, or from any other callback. */
  ghost predicate Shuts(s: System, e: Event, c: nat)
    requires Enabled(s, e)
  {
    match e
    case Accept(_, fd, shut) => shut && 0 <= fd && c == |s.conns| && |s.loops| == 1
    case Run(l, shut) => shut && s.loops[l].todo[0] == ConnectEstablished(c)
    case Test(l, read, flag) =>
      var h := s.loops[l].activity;
      && flag && 0 < read && h.conn == c && h.stage == OnRead
      && (h.revents & POLLIN != 0 || h.revents & POLLPRI != 0 || h.revents & POLLRDHUP != 0)
    case Use(_, d, send) => !send && d == c
    case _ => false
  }

  ghost predicate ShutIn(s: System, es: seq<Event>, c: nat)
    requires IsRun(s, es)
    decreases |es|
  {
    es != [] && (Shuts(s, es[0], c) || ShutIn(Next(s, es[0]), es[1..], c))
  }

  /** The state that the record and the user's calls amount to. */
  ghost predicate StateIs(k: Conn, shut: bool) {
    && (k.state == Connecting <==> Establish !in k.trace)
    && (k.state == Connected <==> Establish in k.trace && Destroy !in k.trace && !shut)
    && (k.state == Disconnecting <==> Establish in k.trace && Destroy !in k.trace && shut)
    && (k.state == Disconnected <==> Destroy in k.trace)
    && (shut ==> Establish in k.trace)
  }

  /** Nothing has happened to a connection that does not exist yet. */
  ghost predicate StateAt(s: System, c: nat, shut: bool) {
    if c < |s.conns| then StateIs(s.conns[c], shut) else !shut
  }

  lemma TestState(s: System, l: nat, read: int, flag: bool, shut: bool)
    requires Inv(s) && CanTest(s, l) && StateIs(s.conns[s.loops[l].activity.conn], shut)
    ensures var c := s.loops[l].activity.conn;
            StateIs(DoTest(s, l, read, flag).conns[c], shut || Shuts(s, Test(l, read, flag), c))
  {
    HandledConn(s, l);
    FiresIff(s.loops[l].activity.revents);
  }

  lemma EstablishedState(s: System, l: nat, shut: bool)
    requires Inv(s) && CanRun(s, l) && s.loops[l].todo[0].ConnectEstablished?
    requires StateIs(s.conns[s.loops[l].todo[0].conn], false)
    ensures StateIs(DoRun(s, l, shut).conns[s.loops[l].todo[0].conn], shut)
  {
    var k := s.conns[s.loops[l].todo[0].conn];
    EstablishSucceeds(s, l, shut);
    QueuedIsConnecting(s, l);
    RunEstablishedIs(s, l, shut);
    assert forall e: LifeEvent :: e in k.trace + [Establish] <==> e in k.trace || e == Establish;
  }

  lemma DestroyedState(s: System, l: nat, shut: bool)
    requires Inv(s) && CanRun(s, l) && s.loops[l].todo[0].ConnectDestroyed?
    requires StateIs(s.conns[s.loops[l].todo[0].conn], shut)
    ensures StateIs(DoRun(s, l, false).conns[s.loops[l].todo[0].conn], shut)
    ensures DoRun(s, l, true) == DoRun(s, l, false)
  {
    var k := s.conns[s.loops[l].todo[0].conn];
    DestroySucceeds(s, l, false);
    RunDestroyedIs(s, l, false);
    assert forall e: LifeEvent :: e in k.trace + [Destroy] <==> e in k.trace || e == Destroy;
  }

  lemma RunState(s: System, l: nat, userShuts: bool, shut: bool)
    requires Inv(s) && CanRun(s, l) && StateIs(s.conns[s.loops[l].todo[0].conn], shut)
    ensures var c := s.loops[l].todo[0].conn;
            StateIs(DoRun(s, l, userShuts).conns[c], shut || Shuts(s, Run(l, userShuts), c))
  {
    match s.loops[l].todo[0]
    case ConnectEstablished(_) =>
      QueuedIsConnecting(s, l);
      EstablishedState(s, l, userShuts);
    case ConnectDestroyed(_) => DestroyedState(s, l, shut);
    case _ =>
  }

  lemma AcceptState(s: System, l: nat, fd: int, shut: bool)
    requires Inv(s) && Enabled(s, Accept(l, fd, shut)) && 0 <= fd
    ensures var t, c := Next(s, Accept(l, fd, shut)), |s.conns|;
            c < |t.conns| ==> StateIs(t.conns[c], Shuts(s, Accept(l, fd, shut), c))
  {
    OnlyBaseAccepts(s, l, fd);
    var s1 := SetActivity(s, 0, Dispatching(s.loops[0].activity.active[1..]));
    var k := NewConnection(s1, fd, shut).conns[|s.conns|];
    AcceptGood(s, l, fd, shut);
    assert NewConnection(s1, fd, shut).conns == s.conns + [k];
    assert k.trace == [Create] || k.trace == [Create] + [Establish];
  }

  /** Every step, even one that fails, keeps the state of every connection in line with its record and the user's
      calls. */
  lemma StepState(s: System, e: Event, c: nat, shut: bool)
    requires Inv(s) && Enabled(s, e) && StateAt(s, c, shut)
    ensures StateAt(Next(s, e), c, shut || Shuts(s, e, c))
  {
    var t := Next(s, e);
    StepConns(s, e);
    if c < |s.conns| {
      match e
      case Test(l, read, flag) =>
        if s.loops[l].activity.conn == c {
          TestState(s, l, read, flag, shut);
        }
      case Run(l, userShuts) =>
        if s.loops[l].todo[0].conn == c {
          RunState(s, l, userShuts, shut);
        }
      case _ =>
    } else if e.Accept? {
      if c == |s.conns| && 0 <= e.fd {
        AcceptState(s, e.loop, e.fd, e.shut);
      }
    }
  }

  lemma {:induction false} RunStates(s: System, es: seq<Event>, c: nat, shut: bool)
    requires Inv(s) && IsRun(s, es) && StateAt(s, c, shut) && c < |After(s, es).conns|
    ensures StateIs(After(s, es).conns[c], shut || ShutIn(s, es, c))
    decreases |es|
  {
    if es != [] {
      var t := Next(s, es[0]);
      StepSafe(s, es[0]);
      StepState(s, es[0], c, shut);
      if t.failure.Some? {
        StuckAfterFailure(t, es[1..]);
      } else {
        RunStates(t, es[1..], c, shut || Shuts(s, es[0], c));
      }
    }
  }

  /** In every run, on any loop, finished or aborted: a connection is connecting until it is established, connected
      from then until it is destroyed unless the user's code has shut it down, disconnecting if it has, and
      disconnected once it is destroyed. Closing does not change it. */
  lemma StateIsDecided(name: string, threads: nat, es: seq<Event>, c: nat)
    requires IsRun(Init(name, threads), es) && c < |After(Init(name, threads), es).conns|
    ensures var k, shut := After(Init(name, threads), es).conns[c], ShutIn(Init(name, threads), es, c);
            && (k.state == Connecting <==> Establish !in k.trace)
            && (k.state == Connected <==> Establish in k.trace && Destroy !in k.trace && !shut)
            && (k.state == Disconnecting <==> Establish in k.trace && Destroy !in k.trace && shut)
            && (k.state == Disconnected <==> Destroy in k.trace)
  {
    InitGood(name, threads);
    RunStates(Init(name, threads), es, c, false);
  }
}
