/** What the steps of `Protocol` ask for and do, in terms of the program's own state: when each event can happen in a
    good state, what each test of a dispatch pass closes and posts, bit by bit, and what each assertion checks. */
module Effects {
  import opened Names
  import opened Options
  import opened Channels
  import opened Protocol
  import opened Invariant
  import opened Safety
  import opened LoopRuns
  import A = AcceptSteps

  // --- when an event can happen ---

  /** The base thread is not between the two halves of a removal. */
  ghost predicate AtLiberty(s: System, l: nat) {
    l < |s.loops| && (l == 0 ==> s.erasing == None)
  }

  /** Exactly the channels that are enabled for reading and have not been closed can be reported, each once, by the
      poller of their own loop. */
  lemma PollEnabledIff(s: System, l: nat, ready: seq<Source>)
    requires Inv(s)
    ensures Enabled(s, Poll(l, ready)) <==>
            && AtLiberty(s, l) && s.loops[l].activity == Polling
            && (forall i, j | 0 <= i < j < |ready| :: ready[i] != ready[j])
            && (forall src | src in ready ::
                  if src.AcceptSource? then l == 0
                  else src.conn < |s.conns| && s.conns[src.conn].loop == l && Close !in s.conns[src.conn].trace
                       && (s.conns[src.conn].state == Connected || s.conns[src.conn].state == Disconnecting))
  {
    forall c: nat | c < |s.conns|
      ensures s.conns[c].registered && s.conns[c].watched <==>
              && Close !in s.conns[c].trace
              && (s.conns[c].state == Connected || s.conns[c].state == Disconnecting)
    {
      assert ConnOk(FactsOf(s, c));
    }
  }

  /** A descriptor that is not open can be accepted when it is the listening socket's turn. */
  lemma AcceptEnabledIff(s: System, l: nat, fd: int, shut: bool)
    requires Inv(s)
    ensures Enabled(s, Accept(l, fd, shut)) <==>
            && AtLiberty(s, l) && s.loops[l].activity.Dispatching?
            && s.loops[l].activity.active != [] && s.loops[l].activity.active[0] == AcceptSource
            && (0 <= fd ==>
                  && s.nextConnId < INT_MAX
                  && forall c: nat | c < |s.conns| && Held(s, c) :: s.conns[c].fd != fd)
  {}

  /** A connection is alive until it is destroyed and the last functor that holds it is gone. */
  lemma HeldIff(s: System, c: nat)
    requires Inv(s) && c < |s.conns|
    ensures Held(s, c) <==>
            || s.conns[c].state != Disconnected
            || exists l: nat, f: Functor ::
                 && l < |s.loops| && f.conn == c
                 && (f in s.loops[l].pending || f in s.loops[l].todo || f in s.loops[l].done)
  {
    if s.conns[c].state != Disconnected {
      A.UndestroyedIsHeld(s, c);
    } else {
      assert ConnOk(FactsOf(s, c));
      if exists l: nat, f: Functor :: l < |s.loops| && f in References(s.loops[l]) && f.conn == c {
        var l: nat, f: Functor :| l < |s.loops| && f in References(s.loops[l]) && f.conn == c;
        assert f in s.loops[l].pending || f in s.loops[l].todo || f in s.loops[l].done;
      } else {
        forall l: nat, f: Functor | l < |s.loops| && f.conn == c
          ensures f !in s.loops[l].pending && f !in s.loops[l].todo && f !in s.loops[l].done
        {
          assert f !in References(s.loops[l]);
        }
      }
    }
  }

  /** A dispatch pass goes through its places, for any bits that `poll` can report and any answers of the callbacks. */
  lemma PassEnabledIff(s: System, l: nat, revents: bv16, read: int, flag: bool)
    requires Inv(s)
    ensures Enabled(s, Begin(l, revents)) <==>
            && AtLiberty(s, l) && s.loops[l].activity.Dispatching?
            && s.loops[l].activity.active != [] && s.loops[l].activity.active[0] != AcceptSource
            && revents != 0
            && revents & (POLLIN | POLLPRI | POLLOUT | POLLERR | POLLHUP | POLLNVAL) == revents
    ensures Enabled(s, Test(l, read, flag)) <==>
            AtLiberty(s, l) && s.loops[l].activity.Handling? && s.loops[l].activity.stage != OnEnd
    ensures Enabled(s, End(l)) <==>
            AtLiberty(s, l) && s.loops[l].activity.Handling? && s.loops[l].activity.stage == OnEnd
  {
    ReportableIff(revents);
    if l < |s.loops| {
      assert LoopOk(s, l);
      var activity := s.loops[l].activity;
      assert activity.Dispatching? && activity.active != [] ==> activity.active[0] in Active(activity);
    }
  }

  /** The functor half of a loop, and the user's own calls from callbacks. */
  lemma FunctorsEnabledIff(s: System, l: nat, shut: bool, c: nat, send: bool)
    requires Inv(s)
    ensures Enabled(s, Swap(l)) <==> AtLiberty(s, l) && s.loops[l].activity == Dispatching([])
    ensures Enabled(s, Run(l, shut)) <==> AtLiberty(s, l) && s.loops[l].activity == Calling && s.loops[l].todo != []
    ensures Enabled(s, Release(l)) <==> AtLiberty(s, l) && s.loops[l].activity == Calling && s.loops[l].todo == []
    ensures Enabled(s, PostDestroy) <==> s.erasing != None
    ensures Enabled(s, Use(l, c, send)) <==>
            && AtLiberty(s, l) && s.loops[l].activity != Polling
            && c < |s.conns| && s.conns[c].loop == l && s.conns[c].state == Connected
  {
    if l < |s.loops| {
      assert LoopOk(s, l);
      assert s.loops[l].todo != [] ==> s.loops[l].todo[0] in s.loops[l].todo;
    }
  }

  // --- what accepting does ---

  /** One connection more: named after the next id, for the accepted descriptor, on the loop whose turn it is, in the
      map under its name, and either established at once, on a server without I/O threads, or with its establishing
      queued on its loop. */
  lemma AcceptCreates(s: System, fd: int, shut: bool)
    requires Inv(s) && Enabled(s, Accept(0, fd, shut)) && 0 <= fd
    ensures var t, c := Next(s, Accept(0, fd, shut)), |s.conns|;
            && |t.conns| == c + 1 && t.conns[..c] == s.conns && |t.loops| == |s.loops| && t.failure == None
            && var k, connName := t.conns[c], s.name + "#" + Decimal(c + 1);
               && t.nextConnId == s.nextConnId + 1 && t.connections == s.connections[connName := c]
               && connName !in s.connections
               && k.name == connName && k.fd == fd && !k.handling
               && k.loop == (if |s.loops| == 1 then 0 else s.next + 1)
               && if |s.loops| == 1
                  then k.state == (if shut then Disconnecting else Connected) && k.registered && k.watched
                  else k.state == Connecting && !k.registered
                       && t.loops[k.loop].pending == s.loops[k.loop].pending + [ConnectEstablished(c)]
  {
    var c := |s.conns|;
    var s1 := SetActivity(s, 0, Dispatching(s.loops[0].activity.active[1..]));
    NameIsNotTruncated(s.name, c + 1);
    A.AcceptGood(s, 0, fd, shut);
    A.FreshName(s);
    assert s.name + "#" + Decimal(c + 1) !in s.connections;
    var k := NewConnection(s1, fd, shut).conns[c];
    assert NewConnection(s1, fd, shut).conns == s.conns + [k];
  }

  // --- what a test of a dispatch pass does ---

  /** The test runs `handleClose`: for POLLHUP without POLLIN, and when a read for POLLIN, POLLPRI or POLLRDHUP finds
      end of file. */
  predicate Closing(stage: Stage, revents: bv16, read: int) {
    || (stage == OnClose && revents & POLLHUP != 0 && revents & POLLIN == 0)
    || (stage == OnRead && read == 0 && (revents & POLLIN != 0 || revents & POLLPRI != 0 || revents & POLLRDHUP != 0))
  }

  /** A test closes exactly in these cases, and once, even if `erase` then fails. */
  lemma TestCloses(s: System, l: nat, read: int, flag: bool)
    requires Inv(s) && Enabled(s, Test(l, read, flag))
    ensures var t, h := Next(s, Test(l, read, flag)), s.loops[l].activity;
            && |t.conns| == |s.conns| && h.conn < |s.conns|
            && Closes(t.conns[h.conn]) ==
               Closes(s.conns[h.conn]) +
               (if h.stage == OnClose && h.revents & POLLHUP != 0 && h.revents & POLLIN == 0 then 1
                else if h.stage == OnRead && read == 0
                        && (h.revents & POLLIN != 0 || h.revents & POLLPRI != 0 || h.revents & POLLRDHUP != 0) then 1
                else 0)
  {
    var h := s.loops[l].activity;
    FiresIff(h.revents);
    ClosesTest(s, l, read, flag);
    TestConns(s, l, read, flag);
  }

  /** The functors that a test queues: a removal on the base loop for a close on another loop, and the write-complete
      callback on the connection's own loop when POLLOUT lets the output be finished. */
  lemma TestPosts(s: System, l: nat, read: int, flag: bool, m: nat)
    requires Inv(s) && Enabled(s, Test(l, read, flag)) && m < |s.loops|
    requires Next(s, Test(l, read, flag)).failure.None?
    ensures var t, h := Next(s, Test(l, read, flag)), s.loops[l].activity;
            && |t.loops| == |s.loops|
            && t.loops[m].pending ==
               s.loops[m].pending +
               (if l != 0 && m == 0 && Closing(h.stage, h.revents, read) then [RemoveConnectionInLoop(h.conn)]
                else if l == m && h.stage == OnWrite && h.revents & POLLOUT != 0 && flag then [WriteComplete(h.conn)]
                else [])
  {
    FiresIff(s.loops[l].activity.revents);
    TestOnLoop(s, l, read, flag, m);
  }

  /** The user's `send` that is written at once queues the write-complete callback on the connection's own loop;
      `shutdown` changes the state. Neither does anything else. */
  lemma UseDoes(s: System, l: nat, c: nat)
    requires Inv(s) && Enabled(s, Use(l, c, true))
    ensures Enabled(s, Use(l, c, false))
    ensures var sent, p := Next(s, Use(l, c, true)), s.loops[l];
            sent == s.(loops := s.loops[l := p.(pending := p.pending + [WriteComplete(c)])])
    ensures Next(s, Use(l, c, false)) == s.(conns := s.conns[c := s.conns[c].(state := Disconnecting)])
  {}

  /** The second half of a removal queues `connectDestroyed` on the connection's own loop. */
  lemma PostDestroyDoes(s: System)
    requires Inv(s) && Enabled(s, PostDestroy)
    ensures var c := s.erasing.value;
            c < |s.conns| && s.conns[c].loop < |s.loops| &&
            var p := s.loops[s.conns[c].loop];
            Next(s, PostDestroy) ==
            s.(erasing := None, loops := s.loops[s.conns[c].loop := p.(pending := p.pending + [ConnectDestroyed(c)])])
  {}

  /** A loop goes round: poll, a dispatch pass for each ready channel in turn, then the functors queued by then, in
      order, which are kept until all have run. */
  lemma LoopDoes(s: System, l: nat, ready: seq<Source>, revents: bv16, shut: bool)
    requires Inv(s) && l < |s.loops|
    ensures var p := s.loops[l];
            && (Enabled(s, Poll(l, ready)) ==>
                  Next(s, Poll(l, ready)) == s.(loops := s.loops[l := p.(activity := Dispatching(ready))]))
            && (Enabled(s, Begin(l, revents)) ==>
                  var active := p.activity.active;
                  var c := active[0].conn;
                  c < |s.conns| &&
                  Next(s, Begin(l, revents)) ==
                  s.(loops := s.loops[l := p.(activity := Handling(c, revents, OnError, active[1..]))],
                     conns := s.conns[c := s.conns[c].(handling := true)]))
            && (Enabled(s, End(l)) ==>
                  var c := p.activity.conn;
                  c < |s.conns| &&
                  Next(s, End(l)) ==
                  s.(loops := s.loops[l := p.(activity := Dispatching(p.activity.active))],
                     conns := s.conns[c := s.conns[c].(handling := false)]))
            && (Enabled(s, Swap(l)) ==>
                  Next(s, Swap(l)) == s.(loops := s.loops[l := Loop([], p.pending, [], Calling)]))
            && (Enabled(s, Run(l, shut)) ==>
                  Next(s, Run(l, shut)).loops == s.loops[l := p.(todo := p.todo[1..], done := p.done + [p.todo[0]])])
            && (Enabled(s, Release(l)) ==>
                  Next(s, Release(l)) == s.(loops := s.loops[l := p.(done := [], activity := Polling)]))
  {}

  // --- what the assertions check ---

  /** `connectEstablished` asserts the thread, the state and, in the poller, that the descriptor is new. */
  lemma EstablishedChecks(s: System, l: nat, c: nat, shut: bool)
    requires c < |s.conns| && s.failure.None?
    ensures var t, k := Established(s, l, c, shut), s.conns[c];
            t.failure.None? <==>
            && l == k.loop && k.state == Connecting && !k.registered
            && forall d: nat | d < |s.conns| && s.conns[d].registered && s.conns[d].loop == l :: s.conns[d].fd != k.fd
  {}

  /** `handleClose` and `connectDestroyed` assert the thread, one of the two established states and, in the poller,
      that the channel is known; `removeConnectionInLoop` asserts the thread and the map entry. */
  lemma RemovalChecks(s: System, l: nat, c: nat)
    requires c < |s.conns| && 0 < |s.loops| && s.failure.None?
    ensures var k := s.conns[c];
            var alive := l == k.loop && (k.state == Connected || k.state == Disconnecting) && k.registered;
            && (Destroyed(s, l, c).failure.None? <==> alive)
            && (Erased(s, l, c).failure.None? <==> l == 0 && k.name in s.connections)
            && (Closed(s, l, c).failure.None? <==> alive && (l == 0 ==> k.name in s.connections))
  {}

  /** `handleRead` of the acceptor asserts the base loop's thread. */
  lemma AcceptChecks(s: System, l: nat, fd: int)
    requires Inv(s) && Enabled(s, Accept(l, -1, false))
    ensures DoAccept(s, l, -1, false).failure.None? <==> l == 0
    ensures DoAccept(s, l, fd, false).failure.None? ==> l == 0
  {}
}
