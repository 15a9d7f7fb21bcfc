/** How long connections live, who touches them, and what is recorded about them, in every reachable state. */
module Lifetime {
  import opened Options
  import opened Channels
  import opened Protocol
  import opened Invariant
  import opened AcceptSteps
  import opened FunctorSteps
  import opened DispatchSteps
  import opened Safety

  // --- lifetime ---

  /** Some thread still works on the connection through a plain pointer: its channel is being dispatched or
      waits in a list of active channels, or the poller knows it. */
  ghost predicate InUse(s: System, c: nat)
    requires c < |s.conns|
  {
    || s.conns[c].handling || s.conns[c].registered || s.conns[c].watched
    || exists l: nat :: l < |s.loops| && (ConnSource(c) in Active(s.loops[l].activity)
                                         || (s.loops[l].activity.Handling? && s.loops[l].activity.conn == c))
  }

  /** When the last reference to a connection is gone, `connectDestroyed` has finished, and neither a dispatch
      pass nor the poller can still reach its channel: the assertion in `~Channel` holds, whichever thread
      dropped the last reference. */
  lemma DeadIsDestroyed(s: System, c: nat)
    requires Inv(s) && c < |s.conns| && !Held(s, c)
    ensures s.conns[c].state == Disconnected && Destroy in s.conns[c].trace && !InUse(s, c)
    ensures !s.conns[c].handling && !s.conns[c].registered && !s.conns[c].watched
    ensures forall l: nat | l < |s.loops| ::
              match s.loops[l].activity
              case Dispatching(active) => ConnSource(c) !in active
              case Handling(d, _, _, active) => d != c && ConnSource(c) !in active
              case _ => true
  {
    assert ConnOk(FactsOf(s, c));
    if !s.conns[c].state.Disconnected? {
      UndestroyedIsHeld(s, c);
    }
    NotInUse(s, c);
    forall l: nat | l < |s.loops| ensures ConnSource(c) !in Active(s.loops[l].activity) {
      assert LoopOk(s, l);
    }
  }

  lemma NotInUse(s: System, c: nat)
    requires Inv(s) && c < |s.conns| && s.conns[c].state.Disconnected?
    ensures !InUse(s, c)
  {
    assert ConnOk(FactsOf(s, c));
    forall l: nat | l < |s.loops|
      ensures ConnSource(c) !in Active(s.loops[l].activity)
      ensures !(s.loops[l].activity.Handling? && s.loops[l].activity.conn == c)
    {
      assert LoopOk(s, l);
    }
  }

  lemma ReachableDeadIsDestroyed(s: System, c: nat)
    requires Reachable(s) && s.failure.None? && c < |s.conns| && !Held(s, c)
    ensures s.conns[c].state == Disconnected && Destroy in s.conns[c].trace && !InUse(s, c)
    ensures !s.conns[c].handling && !s.conns[c].registered && !s.conns[c].watched
    ensures forall l: nat | l < |s.loops| ::
              match s.loops[l].activity
              case Dispatching(active) => ConnSource(c) !in active
              case Handling(d, _, _, active) => d != c && ConnSource(c) !in active
              case _ => true
  {
    OnlyEraseCanFail(s);
    DeadIsDestroyed(s, c);
  }

  /** Every reference of the new state is one of the old state, or mentions connection `c`. */
  ghost predicate NoNewReference(s: System, t: System, c: nat) {
    && |t.loops| == |s.loops|
    && (forall l: nat, f: Functor | l < |t.loops| && f in References(t.loops[l]) ::
          f in References(s.loops[l]) || f.conn == c)
    && (forall n | n in t.connections ::
          (n in s.connections && s.connections[n] == t.connections[n]) || t.connections[n] == c)
    && (t.erasing == s.erasing || t.erasing == Some(c) || t.erasing.None?)
  }

  lemma PostReferences(s: System, m: nat, g: Functor)
    requires m < |s.loops|
    ensures NoNewReference(s, Post(s, m, g), g.conn)
  {}

  lemma ClosedReferences(s: System, l: nat, c: nat)
    requires c < |s.conns| && 0 < |s.loops|
    ensures NoNewReference(s, Closed(s, l, c), c)
  {
    var k := s.conns[c];
    PostReferences(SetConn(s, c, k.(watched := false, trace := k.trace + [Close])), 0, RemoveConnectionInLoop(c));
  }

  lemma TestReferences(s: System, l: nat, read: int, flag: bool)
    requires CanTest(s, l)
    ensures NoNewReference(s, DoTest(s, l, read, flag), s.loops[l].activity.conn)
  {
    var c, s1 := s.loops[l].activity.conn, Advanced(s, l);
    assert NoNewReference(s, s1, c);
    ClosedReferences(s1, l, c);
    PostReferences(s1, l, WriteComplete(c));
  }

  lemma RunReferences(s: System, l: nat, shut: bool)
    requires CanRun(s, l)
    ensures NoNewReference(s, DoRun(s, l, shut), s.loops[l].todo[0].conn)
  {
    var p := s.loops[l];
    assert p.todo == [p.todo[0]] + p.todo[1..];
  }

  lemma NewConnectionReferences(s: System, fd: int, shut: bool)
    requires NextLoop(s) < |s.loops|
    ensures NoNewReference(s, NewConnection(s, fd, shut), |s.conns|)
  {
    PostReferences(Created(s, fd), NextLoop(s), ConnectEstablished(|s.conns|));
  }

  lemma AcceptReferences(s: System, l: nat, fd: int, shut: bool)
    requires CanAccept(s, l, fd) && NextLoop(s) < |s.loops|
    ensures NoNewReference(s, DoAccept(s, l, fd, shut), |s.conns|)
  {
    NewConnectionReferences(SetActivity(s, l, Dispatching(s.loops[l].activity.active[1..])), fd, shut);
  }

  lemma PostDestroyReferences(s: System)
    requires CanPostDestroy(s)
    ensures NoNewReference(s, DestroyPosted(s), s.erasing.value)
  {}

  /** Which connection a step may hand on references to. */
  ghost function Handed(s: System, e: Event): nat
    requires Enabled(s, e)
  {
    if e.PostDestroy? then s.erasing.value else if Subject(s, e).Some? then Subject(s, e).value else |s.conns|
  }

  lemma StepReferences(s: System, e: Event)
    requires Enabled(s, e)
    ensures NoNewReference(s, Next(s, e), Handed(s, e))
  {
    match e
    case Test(l, read, flag) => TestReferences(s, l, read, flag);
    case Run(l, shut) => RunReferences(s, l, shut);
    case Accept(l, fd, shut) => AcceptReferences(s, l, fd, shut);
    case Use(l, c, _) => PostReferences(s, l, WriteComplete(c));
    case PostDestroy => PostDestroyReferences(s);
    case _ =>
  }

  /** A step only hands on references to a connection that is held. */
  lemma HandedIsHeld(s: System, e: Event)
    requires Inv(s) && Enabled(s, e) && Handed(s, e) < |s.conns|
    ensures Held(s, Handed(s, e)) || InUse(s, Handed(s, e))
  {
    if e.Run? {
      assert s.loops[e.loop].todo[0] in References(s.loops[e.loop]);
    } else if e.Use? {
      UndestroyedIsHeld(s, e.conn);
    } else if e.Begin? {
      assert s.loops[e.loop].activity.active[0] in Active(s.loops[e.loop].activity);
    }
  }

  /** A reference only ever comes from another reference: a dead connection stays dead. */
  lemma DeadStaysDead(s: System, e: Event, c: nat)
    requires Inv(s) && Enabled(s, e) && c < |s.conns| && !Held(s, c)
    ensures c < |Next(s, e).conns| && !Held(Next(s, e), c)
  {
    var t := Next(s, e);
    StepConns(s, e);
    StepReferences(s, e);
    DeadIsDestroyed(s, c);
    assert Handed(s, e) != c by {
      if Handed(s, e) == c {
        HandedIsHeld(s, e);
      }
    }
    if exists l: nat, f: Functor :: l < |t.loops| && f in References(t.loops[l]) && f.conn == c {
      var l: nat, f: Functor :| l < |t.loops| && f in References(t.loops[l]) && f.conn == c;
      assert f in References(s.loops[l]);
    }
  }

  // --- who touches what ---

  lemma TestOwner(s: System, l: nat, read: int, flag: bool)
    requires CanTest(s, l)
    ensures var t := DoTest(s, l, read, flag);
            t.nextConnId == s.nextConnId && t.next == s.next && (l != 0 ==> t.connections == s.connections)
  {}

  lemma RunOwner(s: System, l: nat, shut: bool)
    requires CanRun(s, l)
    ensures var t := DoRun(s, l, shut);
            t.nextConnId == s.nextConnId && t.next == s.next && (l != 0 ==> t.connections == s.connections)
  {}

  /** The connection map, the id counter and the round-robin cursor change only in steps of the base thread,
      although closing starts on any thread. */
  lemma BaseThreadOwnsRegistry(s: System, e: Event)
    requires Enabled(s, e)
    ensures var t := Next(s, e);
            t.connections != s.connections || t.nextConnId != s.nextConnId || t.next != s.next ==> ThreadOf(e) == 0
  {
    match e
    case Test(l, read, flag) => TestOwner(s, l, read, flag);
    case Run(l, shut) => RunOwner(s, l, shut);
    case _ =>
  }

  /** The part of a connection that the program stores. */
  ghost function Stored(k: Conn): Conn {
    k.(trace := [])
  }

  lemma RunStored(s: System, l: nat, shut: bool)
    requires Shape(s) && CanRun(s, l)
    ensures var t, c := DoRun(s, l, shut), s.loops[l].todo[0].conn;
            Stored(t.conns[c]) != Stored(s.conns[c]) ==> s.conns[c].loop == l
  {
    RunTarget(s, l);
  }

  /** State, registration and dispatch flag of a connection change only in steps of its own loop's thread. */
  lemma LoopThreadOwnsConnection(s: System, e: Event, c: nat)
    requires Inv(s) && Enabled(s, e) && c < |s.conns|
    ensures c < |Next(s, e).conns|
    ensures Stored(Next(s, e).conns[c]) != Stored(s.conns[c]) ==> ThreadOf(e) == s.conns[c].loop
    ensures var k, k' := s.conns[c], Next(s, e).conns[c];
            (k'.state, k'.registered, k'.watched, k'.handling) != (k.state, k.registered, k.watched, k.handling) ==>
              ThreadOf(e) == k.loop
  {
    StepConns(s, e);
    match e
    case Run(l, shut) => RunStored(s, l, shut);
    case Test(l, _, _) => HandledConn(s, l);
    case End(l) => HandledConn(s, l);
    case Begin(l, _) =>
      assert LoopOk(s, l) && s.loops[l].activity.active[0] in Active(s.loops[l].activity);
    case _ =>
  }

  // --- the record of a connection ---

  ghost predicate IsLifecyclePrefix(trace: seq<LifeEvent>) {
    |trace| <= |LIFECYCLE| && trace == LIFECYCLE[..|trace|]
  }

  /** For any number of loops a connection goes through create, establish, close, erase, destroy in that order,
      as on a single loop, exactly if it was closed at most once. */
  lemma LifecycleIff(s: System, c: nat)
    requires Inv(s) && c < |s.conns|
    ensures IsLifecyclePrefix(s.conns[c].trace) <==> Closes(s.conns[c]) <= 1
  {
    assert ConnOk(FactsOf(s, c));
    var trace := s.conns[c].trace;
    if IsLifecyclePrefix(trace) {
      assert LIFECYCLE == trace + LIFECYCLE[|trace|..];
      assert multiset(LIFECYCLE)[Close] == 1;
    }
  }

  /** Even when a pass closes twice: created and established first, and nothing but closing happens twice. */
  lemma EventsAtMostOnce(s: System, c: nat, e: LifeEvent)
    requires Inv(s) && c < |s.conns| && e != Close
    ensures Count(s.conns[c].trace, e) <= 1
    ensures s.conns[c].trace == [Create] || (2 <= |s.conns[c].trace| && s.conns[c].trace[..2] == [Create, Establish])
  {
    assert ConnOk(FactsOf(s, c));
  }

  /** The queues never hold the establishing of a connection together with its removal or destruction, and
      hold each of them on the right loop only. */
  lemma QueuesInOrder(s: System, c: nat, l: nat)
    requires Inv(s) && c < |s.conns| && l < |s.loops|
    ensures var q := Backlog(s.loops[l]);
            && q[ConnectEstablished(c)] <= B(l == s.conns[c].loop)
            && q[ConnectDestroyed(c)] <= B(l == s.conns[c].loop)
            && (q[RemoveConnectionInLoop(c)] > 0 ==> l == 0)
            && (q[ConnectEstablished(c)] > 0 ==>
                  forall m: nat | m < |s.loops| ::
                    && Backlog(s.loops[m])[ConnectDestroyed(c)] == 0
                    && Backlog(s.loops[m])[RemoveConnectionInLoop(c)] == 0)
  {
    assert ConnOk(FactsOf(s, c));
    forall m: nat | m < |s.loops|
      ensures m != s.conns[c].loop ==>
                && Backlog(s.loops[m])[ConnectEstablished(c)] == 0
                && Backlog(s.loops[m])[ConnectDestroyed(c)] == 0
      ensures m != 0 ==> Backlog(s.loops[m])[RemoveConnectionInLoop(c)] == 0
    {
      assert LoopOk(s, m);
    }
  }

  /** The map holds exactly the connections created and not yet erased. */
  lemma MapHoldsUnerased(s: System, c: nat)
    requires Inv(s) && c < |s.conns|
    ensures s.conns[c].name in s.connections && s.connections[s.conns[c].name] == c <==>
            Count(s.conns[c].trace, Erase) == 0
    ensures forall n | n in s.connections ::
              exists d: nat :: d < |s.conns| && s.conns[d].name == n && s.connections[n] == d
  {
    assert ConnOk(FactsOf(s, c));
    if s.conns[c].name in s.connections {
      var d := s.connections[s.conns[c].name];
      assert s.conns[d].name == s.conns[c].name;
    }
  }
}
