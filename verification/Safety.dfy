/** What holds in every run of the protocol: which assertions can fail, and exactly when. */
module Safety {
  import opened Names
  import opened Options
  import opened Channels
  import opened Protocol
  import opened Invariant
  import opened DispatchSteps
  import opened FunctorSteps
  import opened AcceptSteps

  ghost predicate Inv(s: System) {
    Good(s) && NamesFollow(s)
  }

  /** The step runs `removeConnectionInLoop` for this connection. */
  ghost function RemovalBy(s: System, e: Event): Option<nat>
    requires Enabled(s, e)
  {
    match e
    case Run(l, _) => if s.loops[l].todo[0].RemoveConnectionInLoop? then Some(s.loops[l].todo[0].conn) else None
    case Test(l, read, _) =>
      var h := s.loops[l].activity;
      if l == 0 && ClosingTest(h.revents, h.stage, read) then Some(h.conn) else None
    case _ => None
  }

  /** The connection that a step works on. */
  ghost function Subject(s: System, e: Event): Option<nat>
    requires Enabled(s, e)
  {
    match e
    case Begin(l, _) => Some(s.loops[l].activity.active[0].conn)
    case Test(l, _, _) => Some(s.loops[l].activity.conn)
    case End(l) => Some(s.loops[l].activity.conn)
    case Run(l, _) => Some(s.loops[l].todo[0].conn)
    case Use(_, c, _) => Some(c)
    case _ => None
  }

  /** The fixed part of a connection, and its growing record. */
  ghost predicate Continues(k: Conn, k': Conn) {
    k'.name == k.name && k'.fd == k.fd && k'.loop == k.loop && k.trace <= k'.trace
  }

  /** At most one connection changes, and that one continues. */
  ghost predicate OnlyConn(s: System, t: System, c: nat) {
    && t.name == s.name && c < |s.conns| == |t.conns| && t.conns == s.conns[c := t.conns[c]]
    && Continues(s.conns[c], t.conns[c])
  }

  lemma ClosedConns(s: System, l: nat, c: nat)
    requires c < |s.conns| && 0 < |s.loops|
    ensures OnlyConn(s, Closed(s, l, c), c)
  {}

  lemma TestConns(s: System, l: nat, read: int, flag: bool)
    requires CanTest(s, l)
    ensures OnlyConn(s, DoTest(s, l, read, flag), s.loops[l].activity.conn)
  {
    ClosedConns(Advanced(s, l), l, s.loops[l].activity.conn);
  }

  lemma RunConns(s: System, l: nat, shut: bool)
    requires CanRun(s, l)
    ensures OnlyConn(s, DoRun(s, l, shut), s.loops[l].todo[0].conn)
  {}

  lemma AcceptConns(s: System, l: nat, fd: int, shut: bool)
    requires CanAccept(s, l, fd) && NextLoop(s) < |s.loops| && s.nextConnId == |s.conns| + 1
    ensures var t, c := DoAccept(s, l, fd, shut), |s.conns|;
            t.name == s.name
            && if l != 0 || fd < 0 then t.conns == s.conns
               else |t.conns| == c + 1 && t.conns[..c] == s.conns && t.conns[c].name == ConnName(s.name, c + 1)
                    && t.conns[c].trace in {[Create], [Create, Establish]}
  {
    if l == 0 && fd >= 0 {
      var s1 := SetActivity(s, 0, Dispatching(s.loops[0].activity.active[1..]));
      var k := NewConnection(s1, fd, shut).conns[|s.conns|];
      assert NewConnection(s1, fd, shut).conns == s.conns + [k];
      assert k.trace == [Create] || k.trace == [Create] + [Establish];
      assert [Create] + [Establish] == [Create, Establish];
    }
  }

  /** A step changes only its subject, and appends at most the connection it accepts. */
  ghost predicate ConnsStep(s: System, t: System, subject: Option<nat>, accepts: bool) {
    && t.name == s.name && |s.conns| <= |t.conns| <= |s.conns| + B(accepts)
    && (forall c: nat | c < |s.conns| :: Continues(s.conns[c], t.conns[c]))
    && (forall c: nat | c < |s.conns| && subject != Some(c) :: t.conns[c] == s.conns[c])
    && (forall c: nat | |s.conns| <= c < |t.conns| ::
          t.conns[c].name == ConnName(s.name, c + 1) && t.conns[c].trace in {[Create], [Create, Establish]})
  }

  lemma OneConn(s: System, t: System, c: nat, accepts: bool)
    requires OnlyConn(s, t, c)
    ensures ConnsStep(s, t, Some(c), accepts)
  {}

  lemma NoConn(s: System, t: System)
    requires t.name == s.name && t.conns == s.conns
    ensures ConnsStep(s, t, None, false)
  {}

  lemma NewConn(s: System, t: System)
    requires t.name == s.name && |s.conns| <= |t.conns| <= |s.conns| + 1 && t.conns[..|s.conns|] == s.conns
    requires |s.conns| < |t.conns| ==>
               && t.conns[|s.conns|].name == ConnName(s.name, |s.conns| + 1)
               && t.conns[|s.conns|].trace in {[Create], [Create, Establish]}
    ensures ConnsStep(s, t, None, true)
  {
    forall c: nat | c < |s.conns| ensures t.conns[c] == s.conns[c] {
      assert t.conns[..|s.conns|][c] == s.conns[c];
    }
  }

  lemma StepConns(s: System, e: Event)
    requires Enabled(s, e) && s.nextConnId == |s.conns| + 1
    ensures ConnsStep(s, Next(s, e), Subject(s, e), e.Accept?)
  {
    match e
    case Test(l, read, flag) =>
      TestConns(s, l, read, flag);
      OneConn(s, Next(s, e), s.loops[l].activity.conn, false);
    case Run(l, shut) =>
      RunConns(s, l, shut);
      OneConn(s, Next(s, e), s.loops[l].todo[0].conn, false);
    case Begin(l, _) => OneConn(s, Next(s, e), s.loops[l].activity.active[0].conn, false);
    case End(l) => OneConn(s, Next(s, e), s.loops[l].activity.conn, false);
    case Use(_, c, _) => OneConn(s, Next(s, e), c, false);
    case Accept(l, fd, shut) =>
      AcceptConns(s, l, fd, shut);
      NewConn(s, Next(s, e));
    case _ => NoConn(s, Next(s, e));
  }

  /** One step: the only assertion that can fail is the one on `erase`, and it fails exactly when the step
      removes a connection whose map entry is gone; otherwise the invariant holds again. */
  lemma StepSafe(s: System, e: Event)
    requires Inv(s) && Enabled(s, e)
    ensures var t, r := Next(s, e), RemovalBy(s, e);
            && NamesFollow(t)
            && (if r.Some? && r.value < |s.conns| && s.conns[r.value].name !in s.connections
                then t.failure == Some(EraseMissing) else Good(t))
  {
    StepConns(s, e);
    match e
    case Poll(l, ready) => PollGood(s, l, ready);
    case Accept(l, fd, shut) => AcceptGood(s, l, fd, shut);
    case Begin(l, revents) => BeginGood(s, l, revents);
    case Test(l, read, flag) =>
      var h := s.loops[l].activity;
      if ClosingTest(h.revents, h.stage, read) {
        ClosingTestGood(s, l, read, flag);
      } else {
        QuietTestGood(s, l, read, flag);
      }
    case End(l) => EndGood(s, l);
    case Swap(l) => SwapGood(s, l);
    case Run(l, shut) =>
      match s.loops[l].todo[0] {
        case ConnectEstablished(_) => RunEstablishedGood(s, l, shut);
        case RemoveConnectionInLoop(_) => RunErasedGood(s, l, shut);
        case ConnectDestroyed(_) => RunDestroyedGood(s, l, shut);
        case WriteComplete(_) => RunWriteCompleteGood(s, l, shut);
      }
    case Use(_, c, send) =>
      if send {
        WriteCompleteGood(s, c);
      } else {
        ShutGood(s, c);
      }
    case PostDestroy => PostDestroyGood(s);
    case Release(l) => ReleaseGood(s, l);
  }

  /** Every run: the invariant holds unless the program has aborted, and then it aborted in `erase`. */
  lemma {:induction false} RunSafe(s: System, es: seq<Event>)
    requires Inv(s) && IsRun(s, es)
    ensures var t := After(s, es);
            NamesFollow(t) && (Good(t) || t.failure == Some(EraseMissing))
    decreases |es|
  {
    if es != [] {
      var t := Next(s, es[0]);
      StepSafe(s, es[0]);
      if t.failure.None? {
        RunSafe(t, es[1..]);
      } else {
        StuckAfterFailure(t, es[1..]);
      }
    }
  }

  lemma StuckAfterFailure(s: System, es: seq<Event>)
    requires s.failure.Some? && IsRun(s, es)
    ensures es == []
  {}

  /** For any number of loops, no run fails an assertion on threads, connection states or the poller. */
  lemma OnlyEraseCanFail(s: System)
    requires Reachable(s)
    ensures s.failure.None? || s.failure == Some(EraseMissing)
    ensures s.failure.None? ==> Inv(s)
  {
    var name, threads: nat, es :| IsRun(Init(name, threads), es) && After(Init(name, threads), es) == s;
    InitGood(name, threads);
    RunSafe(Init(name, threads), es);
  }

  // --- closing once, and what happens otherwise ---

  ghost predicate AllOnce(s: System) {
    forall c: nat | c < |s.conns| :: Closes(s.conns[c]) <= 1
  }

  /** The step is the second close of one dispatch pass: the read callback of a hang-up without input finds
      end of file. */
  ghost predicate ClosesAgain(s: System, e: Event)
    requires Enabled(s, e)
  {
    e.Test? && var h := s.loops[e.loop].activity; h.stage.OnRead? && HangUpWithRead(h.revents) && e.read == 0
  }

  lemma HangUpFires(revents: bv16)
    ensures HangUpWithRead(revents) <==> Fires(revents, OnClose) && Fires(revents, OnRead)
  {
    ReadBits(revents);
  }

  /** Closing once more than before happens exactly in a closing test of that connection. */
  lemma ClosesTest(s: System, l: nat, read: int, flag: bool)
    requires Inv(s) && CanTest(s, l)
    ensures var t, h := DoTest(s, l, read, flag), s.loops[l].activity;
            Closes(t.conns[h.conn]) == Closes(s.conns[h.conn]) + B(ClosingTest(h.revents, h.stage, read))
  {
    HandledConn(s, l);
  }

  lemma ClosesRun(s: System, l: nat, shut: bool)
    requires CanRun(s, l)
    ensures var t, c := DoRun(s, l, shut), s.loops[l].todo[0].conn; Closes(t.conns[c]) == Closes(s.conns[c])
  {}

  /** Only a closing test closes. */
  lemma ClosesStep(s: System, e: Event)
    requires Inv(s) && Enabled(s, e)
    ensures var t := Next(s, e);
            && |s.conns| <= |t.conns|
            && (forall c: nat | c < |s.conns| && !(e.Test? && s.loops[e.loop].activity.conn == c) ::
                  Closes(t.conns[c]) == Closes(s.conns[c]))
            && (forall c: nat | |s.conns| <= c < |t.conns| :: Closes(t.conns[c]) == 0)
  {
    StepConns(s, e);
    if e.Run? {
      ClosesRun(s, e.loop, e.shut);
    }
  }

  /** If every connection has closed at most once and the step is not a second close, nothing fails and
      every connection has still closed at most once. */
  lemma OnceStep(s: System, e: Event)
    requires Inv(s) && AllOnce(s) && Enabled(s, e) && !ClosesAgain(s, e)
    ensures Inv(Next(s, e)) && AllOnce(Next(s, e))
  {
    StepSafe(s, e);
    ClosesStep(s, e);
    if e.Test? {
      var h := s.loops[e.loop].activity;
      ClosesTest(s, e.loop, e.read, e.flag);
      HandledConn(s, e.loop);
      HangUpFires(h.revents);
      assert ConnOk(FactsOf(s, h.conn));
    } else if e.Run? && s.loops[e.loop].todo[0].RemoveConnectionInLoop? {
      var c := s.loops[e.loop].todo[0].conn;
      RunTarget(s, e.loop);
      assert ConnOk(FactsOf(s, c));
      TakenFacts(s, e.loop, c);
    }
  }

  /** A second close is recorded, unless the step already failed. */
  lemma TwiceStep(s: System, e: Event)
    requires Inv(s) && Enabled(s, e) && ClosesAgain(s, e)
    ensures !AllOnce(Next(s, e))
  {
    var h := s.loops[e.loop].activity;
    ClosesTest(s, e.loop, e.read, e.flag);
    StepConns(s, e);
    HangUpFires(h.revents);
    HandledConn(s, e.loop);
    assert ConnOk(FactsOf(s, h.conn));
  }

  /** Some dispatch pass of the run closes its connection twice. */
  ghost predicate RunClosesAgain(s: System, es: seq<Event>)
    requires IsRun(s, es)
    decreases |es|
  {
    es != [] && (ClosesAgain(s, es[0]) || RunClosesAgain(Next(s, es[0]), es[1..]))
  }

  lemma {:induction false} OnceRun(s: System, es: seq<Event>)
    requires Inv(s) && AllOnce(s) && IsRun(s, es) && !RunClosesAgain(s, es)
    ensures Inv(After(s, es)) && AllOnce(After(s, es))
    decreases |es|
  {
    if es != [] {
      OnceStep(s, es[0]);
      OnceRun(Next(s, es[0]), es[1..]);
    }
  }

  lemma TwiceStays(s: System, e: Event)
    requires Inv(s) && Enabled(s, e) && !AllOnce(s)
    ensures !AllOnce(Next(s, e))
  {
    var c: nat :| c < |s.conns| && Closes(s.conns[c]) > 1;
    StepConns(s, e);
    var before, after := s.conns[c].trace, Next(s, e).conns[c].trace;
    assert after == before + after[|before|..];
  }

  lemma {:induction false} TwiceRun(s: System, es: seq<Event>)
    requires Inv(s) && IsRun(s, es) && (RunClosesAgain(s, es) || !AllOnce(s))
    ensures !AllOnce(After(s, es))
    decreases |es|
  {
    if es != [] {
      var t := Next(s, es[0]);
      StepSafe(s, es[0]);
      if !AllOnce(s) {
        TwiceStays(s, es[0]);
      } else if ClosesAgain(s, es[0]) {
        TwiceStep(s, es[0]);
      }
      if t.failure.Some? {
        StuckAfterFailure(t, es[1..]);
      } else {
        TwiceRun(t, es[1..]);
      }
    }
  }

  /** Nothing is left to do: every loop waits in poll with an empty queue. */
  ghost predicate Quiescent(s: System) {
    s.erasing.None? && forall l: nat | l < |s.loops| :: s.loops[l].activity.Polling? && s.loops[l].pending == []
  }

  /** In a quiescent state every connection was closed at most once, and the closed ones are erased and destroyed. */
  lemma QuiescentOnce(s: System)
    requires Inv(s) && Quiescent(s)
    ensures AllOnce(s)
    ensures forall c: nat | c < |s.conns| ::
              if Closes(s.conns[c]) == 1
              then s.conns[c].state.Disconnected? && s.conns[c].name !in s.connections && s.conns[c].trace == LIFECYCLE
              else s.conns[c].name in s.connections && s.conns[c].trace == [Create, Establish]
  {
    forall c: nat | c < |s.conns|
      ensures Closes(s.conns[c]) <= 1
      ensures if Closes(s.conns[c]) == 1
              then s.conns[c].state.Disconnected? && s.conns[c].name !in s.connections && s.conns[c].trace == LIFECYCLE
              else s.conns[c].name in s.connections && s.conns[c].trace == [Create, Establish]
    {
      assert ConnOk(FactsOf(s, c));
      assert LoopOk(s, 0) && LoopOk(s, s.conns[c].loop);
    }
  }

  /** The exact condition for `assert(n == 1)`: a run that goes on until it aborts or has nothing left to do
      aborts if and only if one of its dispatch passes closed its connection twice. */
  lemma AbortsIffClosedTwice(name: string, threads: nat, es: seq<Event>)
    requires IsRun(Init(name, threads), es)
    requires var t := After(Init(name, threads), es); t.failure.Some? || Quiescent(t)
    ensures After(Init(name, threads), es).failure.Some? <==> RunClosesAgain(Init(name, threads), es)
  {
    var s := Init(name, threads);
    var t := After(s, es);
    InitGood(name, threads);
    RunSafe(s, es);
    if RunClosesAgain(s, es) {
      TwiceRun(s, es);
      if t.failure.None? {
        QuiescentOnce(t);
      }
    } else {
      OnceRun(s, es);
    }
  }

  /** Without a double close no assertion of the program ever fails, in any run, finished or not. */
  lemma NoDoubleCloseNoFailure(name: string, threads: nat, es: seq<Event>)
    requires IsRun(Init(name, threads), es) && !RunClosesAgain(Init(name, threads), es)
    ensures After(Init(name, threads), es).failure.None? && AllOnce(After(Init(name, threads), es))
  {
    InitGood(name, threads);
    OnceRun(Init(name, threads), es);
  }
}
