/** `Acceptor::handleRead` and `TcpServer::newConnection` keep the invariant. */
module AcceptSteps {
  import opened Names
  import opened Protocol
  import opened Invariant

  /** A connection that has not been destroyed is referenced: by its map entry, by a removal between its two
      halves, or by a queued `connectDestroyed`. */
  lemma UndestroyedIsHeld(s: System, c: nat)
    requires Good(s) && c < |s.conns| && !s.conns[c].state.Disconnected?
    ensures Held(s, c)
  {
    var f, loop := FactsOf(s, c), s.loops[s.conns[c].loop];
    assert ConnOk(f);
    if f.mapped {
      var d := s.connections[s.conns[c].name];
      assert s.conns[d].name == s.conns[c].name;
    } else if !f.erasing {
      assert ConnectDestroyed(c) in Backlog(loop);
      assert ConnectDestroyed(c) in References(loop);
    }
  }

  lemma TurnFacts(s: System, d: nat)
    requires 0 < |s.loops| && s.loops[0].activity.Dispatching? && |s.loops[0].activity.active| > 0
    requires s.loops[0].activity.active[0].AcceptSource? && d < |s.conns| && s.conns[d].loop < |s.loops|
    ensures FactsOf(SetActivity(s, 0, Dispatching(s.loops[0].activity.active[1..])), d) == FactsOf(s, d)
  {
    var active := s.loops[0].activity.active;
    ActivityFacts(s, 0, Dispatching(active[1..]), d);
    assert multiset(active) == multiset{active[0]} + multiset(active[1..]) by { HeadTail(active); }
  }

  lemma TurnGood(s: System)
    requires Good(s) && s.loops[0].activity.Dispatching? && |s.loops[0].activity.active| > 0
    requires s.loops[0].activity.active[0].AcceptSource?
    ensures Good(SetActivity(s, 0, Dispatching(s.loops[0].activity.active[1..])))
  {
    var t := SetActivity(s, 0, Dispatching(s.loops[0].activity.active[1..]));
    assert LoopOk(t, 0) by { assert LoopOk(s, 0); }
    ShapeKept(s, t, 0);
    DistinctKept(s, t);
    forall d: nat | d < |s.conns| { TurnFacts(s, d); }
  }

  lemma CreatedShape(s: System, fd: int)
    requires Shape(s) && s.nextConnId < INT_MAX
    requires forall d: nat | d < |s.conns| :: s.conns[d].name != ConnName(s.name, s.nextConnId)
    ensures Shape(Created(s, fd))
  {
    var t := Created(s, fd);
    forall m: nat | m < |t.loops| ensures LoopOk(t, m) {
      assert LoopOk(s, m);
    }
    forall n | n in t.connections ensures t.connections[n] < |t.conns| && t.conns[t.connections[n]].name == n {
      assert n in s.connections || n == ConnName(s.name, s.nextConnId);
    }
  }

  lemma CreatedFrame(s: System, fd: int, d: nat)
    requires d < |s.conns| && s.conns[d].loop < |s.loops| && 0 < |s.loops|
    requires s.conns[d].name != ConnName(s.name, s.nextConnId)
    ensures FactsOf(Created(s, fd), d) == FactsOf(s, d)
  {}

  /** Nothing mentions a connection before it exists. */
  lemma CreatedFacts(s: System, fd: int)
    requires Shape(s) && s.nextConnId < INT_MAX
    ensures NextLoop(s) < |s.loops|
    ensures var t, c := Created(s, fd), |s.conns|;
            FactsOf(t, c) == Facts(t.conns[c], true, false, 0, 0, 0, 0, NoPass)
  {
    var io, c := NextLoop(s), |s.conns|;
    assert LoopOk(s, io) && LoopOk(s, 0);
    assert ConnectEstablished(c) !in Backlog(s.loops[io]) && ConnectDestroyed(c) !in Backlog(s.loops[io]);
    assert RemoveConnectionInLoop(c) !in Backlog(s.loops[0]);
    assert ConnSource(c) !in Active(s.loops[io].activity);
  }

  lemma PendingOk(k: Conn)
    requires k.state.Connecting? && !k.registered && !k.watched && !k.handling && k.trace == [Create]
    ensures ConnOk(Facts(k, true, false, 1, 0, 0, 0, NoPass))
  {}

  lemma InlineOk(k: Conn)
    requires (k.state.Connected? || k.state.Disconnecting?) && k.registered && k.watched && !k.handling
    requires k.trace == [Create, Establish]
    ensures ConnOk(Facts(k, true, false, 0, 0, 0, 0, NoPass))
  {}

  /** The names of the connections follow their ids. */
  ghost predicate NamesFollow(s: System) {
    forall c: nat | c < |s.conns| :: s.conns[c].name == ConnName(s.name, c + 1)
  }

  lemma FreshName(s: System)
    requires NamesFollow(s) && s.nextConnId == |s.conns| + 1 < INT_MAX
    ensures forall d: nat | d < |s.conns| :: s.conns[d].name != ConnName(s.name, s.nextConnId)
  {
    forall d: nat | d < |s.conns| ensures s.conns[d].name != ConnName(s.name, s.nextConnId) {
      NameInjective(s.name, d + 1, s.nextConnId);
    }
  }

  lemma CreatedDistinct(s: System, fd: int)
    requires Good(s) && s.nextConnId < INT_MAX
    requires forall d: nat | d < |s.conns| :: s.conns[d].name != ConnName(s.name, s.nextConnId)
    requires forall d: nat | d < |s.conns| && Held(s, d) :: s.conns[d].fd != fd
    ensures DistinctNames(Created(s, fd)) && DistinctDescriptors(Created(s, fd))
    ensures forall d: nat | d < |s.conns| && !s.conns[d].state.Disconnected? :: s.conns[d].fd != fd
  {
    forall d: nat | d < |s.conns| && !s.conns[d].state.Disconnected? ensures s.conns[d].fd != fd {
      UndestroyedIsHeld(s, d);
    }
  }

  lemma NewConnectionIs(s: System, fd: int, shut: bool)
    requires Shape(s) && s.nextConnId < INT_MAX
    requires forall d: nat | d < |s.conns| && s.conns[d].registered :: s.conns[d].fd != fd
    ensures NextLoop(s) < |s.loops|
    ensures var c, t := |s.conns|, Created(s, fd);
            NewConnection(s, fd, shut) ==
            if NextLoop(s) != 0 then Post(t, NextLoop(s), ConnectEstablished(c))
            else SetConn(t, c, t.conns[c].(state := if shut then Disconnecting else Connected,
                                           registered := true, watched := true, trace := [Create] + [Establish]))
  {}

  /** What `newConnection` does to the new connection. */
  lemma NewConnectionNew(s: System, fd: int, shut: bool)
    requires Shape(s) && s.nextConnId < INT_MAX
    requires forall d: nat | d < |s.conns| && s.conns[d].registered :: s.conns[d].fd != fd
    ensures var c, u := |s.conns|, NewConnection(s, fd, shut);
            c < |u.conns| && u.conns[c].loop < |u.loops| && ConnOk(FactsOf(u, c))
  {
    var t, c, u := Created(s, fd), |s.conns|, NewConnection(s, fd, shut);
    NewConnectionIs(s, fd, shut);
    CreatedFacts(s, fd);
    if NextLoop(s) != 0 {
      PostFacts(t, NextLoop(s), ConnectEstablished(c), c);
      PendingOk(t.conns[c]);
    } else {
      ConnFacts(t, c, u.conns[c], c);
      InlineOk(u.conns[c]);
    }
  }

  /** What it does to the others: nothing. */
  lemma NewConnectionOld(s: System, fd: int, shut: bool, d: nat)
    requires Shape(s) && s.nextConnId < INT_MAX && d < |s.conns|
    requires s.conns[d].name != ConnName(s.name, s.nextConnId)
    requires forall d: nat | d < |s.conns| && s.conns[d].registered :: s.conns[d].fd != fd
    ensures var u := NewConnection(s, fd, shut);
            d < |u.conns| && u.conns[d].loop < |u.loops| && FactsOf(u, d) == FactsOf(s, d)
  {
    var t, c, u := Created(s, fd), |s.conns|, NewConnection(s, fd, shut);
    NewConnectionIs(s, fd, shut);
    CreatedFrame(s, fd, d);
    if NextLoop(s) != 0 {
      PostFacts(t, NextLoop(s), ConnectEstablished(c), d);
    } else {
      ConnFacts(t, c, u.conns[c], d);
    }
  }

  lemma NewConnectionShape(s: System, fd: int, shut: bool)
    requires Good(s) && NamesFollow(s) && s.nextConnId < INT_MAX
    requires forall d: nat | d < |s.conns| && Held(s, d) :: s.conns[d].fd != fd
    ensures NextLoop(s) < |s.loops|
    ensures var t := NewConnection(s, fd, shut);
            Shape(t) && DistinctNames(t) && DistinctDescriptors(t) && t.failure.None? && |t.conns| == |s.conns| + 1
    ensures forall d: nat | d < |s.conns| :: s.conns[d].name != ConnName(s.name, s.nextConnId)
    ensures forall d: nat | d < |s.conns| && s.conns[d].registered :: s.conns[d].fd != fd
  {
    var t, io := Created(s, fd), NextLoop(s);
    FreshName(s);
    CreatedDistinct(s, fd);
    forall d: nat | d < |s.conns| && s.conns[d].registered ensures s.conns[d].fd != fd {
      assert ConnOk(FactsOf(s, d));
    }
    CreatedShape(s, fd);
    NewConnectionIs(s, fd, shut);
    var u := NewConnection(s, fd, shut);
    assert LoopOk(u, io) by { assert LoopOk(t, io); }
    ShapeKept(t, u, io);
    DistinctKept(t, u);
  }

  lemma NewConnectionConn(s: System, fd: int, shut: bool, d: nat)
    requires Shape(s) && s.nextConnId < INT_MAX && d <= |s.conns|
    requires d < |s.conns| ==> s.conns[d].name != ConnName(s.name, s.nextConnId) && ConnOk(FactsOf(s, d))
    requires forall d: nat | d < |s.conns| && s.conns[d].registered :: s.conns[d].fd != fd
    ensures var u := NewConnection(s, fd, shut);
            d < |u.conns| && u.conns[d].loop < |u.loops| && ConnOk(FactsOf(u, d))
  {
    if d < |s.conns| {
      NewConnectionOld(s, fd, shut, d);
    } else {
      NewConnectionNew(s, fd, shut);
    }
  }

  lemma NewConnectionGood(s: System, fd: int, shut: bool)
    requires Good(s) && NamesFollow(s) && s.nextConnId < INT_MAX
    requires forall d: nat | d < |s.conns| && Held(s, d) :: s.conns[d].fd != fd
    ensures NextLoop(s) < |s.loops|
    ensures Good(NewConnection(s, fd, shut))
  {
    NewConnectionShape(s, fd, shut);
    var t := NewConnection(s, fd, shut);
    forall d: nat | d < |t.conns| ensures t.conns[d].loop < |t.loops| && ConnOk(FactsOf(t, d)) {
      NewConnectionConn(s, fd, shut, d);
    }
  }

  /** The listening socket is dispatched by the base loop only, so the thread assertions of `handleRead`,
      `newConnection` and `getNextLoop` hold. */
  lemma OnlyBaseAccepts(s: System, l: nat, fd: int)
    requires Shape(s) && CanAccept(s, l, fd)
    ensures l == 0
  {
    assert LoopOk(s, l) && s.loops[l].activity.active[0] in Active(s.loops[l].activity);
  }

  lemma AcceptGood(s: System, l: nat, fd: int, shut: bool)
    requires Good(s) && NamesFollow(s) && CanAccept(s, l, fd) && NextLoop(s) < |s.loops|
    ensures Good(DoAccept(s, l, fd, shut))
  {
    OnlyBaseAccepts(s, l, fd);
    TurnGood(s);
    if 0 <= fd {
      var t := SetActivity(s, 0, Dispatching(s.loops[0].activity.active[1..]));
      forall d: nat | d < |t.conns| && Held(t, d) ensures t.conns[d].fd != fd {
        assert Held(s, d) by {
          if exists l: nat, f: Functor :: l < |t.loops| && f in References(t.loops[l]) && f.conn == d {
            var l: nat, f: Functor :| l < |t.loops| && f in References(t.loops[l]) && f.conn == d;
            assert f in References(s.loops[l]);
          }
        }
      }
      NewConnectionGood(t, fd, shut);
    }
  }
}
