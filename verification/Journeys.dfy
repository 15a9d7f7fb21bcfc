/** The runs that the other modules speak about exist: on every loop, connections are accepted, established, read to
    their end, erased by the base loop and destroyed on their own. */
module Journeys {
  import opened Names
  import opened Channels
  import opened Protocol
  import opened Invariant
  import opened Safety
  import opened Draining
  import opened Effects
  import opened Balance

  lemma FirstStep(s: System, e: Event, rest: seq<Event>)
    requires Enabled(s, e) && IsRun(Next(s, e), rest)
    ensures IsRun(s, [e] + rest) && After(s, [e] + rest) == After(Next(s, e), rest)
  {
    assert ([e] + rest)[1..] == rest;
  }

  lemma {:induction false} AppendRun(s: System, es: seq<Event>, more: seq<Event>)
    requires IsRun(s, es) && IsRun(After(s, es), more)
    ensures IsRun(s, es + more) && After(s, es + more) == After(After(s, es), more)
    decreases |es|
  {
    if es == [] {
      assert es + more == more;
    } else {
      AppendRun(Next(s, es[0]), es[1..], more);
      FirstStep(s, es[0], es[1..] + more);
      assert es + more == [es[0]] + (es[1..] + more);
    }
  }

  lemma LastStep(s: System, es: seq<Event>, e: Event)
    requires IsRun(s, es) && Enabled(After(s, es), e)
    ensures IsRun(s, es + [e]) && After(s, es + [e]) == Next(After(s, es), e)
  {
    FirstStep(After(s, es), e, []);
    assert [e] + [] == [e];
    AppendRun(s, es, [e]);
  }

  /** Connections stay, with their loops, and their records only grow. */
  lemma {:induction false} RunContinues(s: System, es: seq<Event>, c: nat)
    requires Inv(s) && IsRun(s, es) && After(s, es).failure.None? && c < |s.conns|
    ensures c < |After(s, es).conns| && Continues(s.conns[c], After(s, es).conns[c])
    decreases |es|
  {
    if es != [] {
      var t := Next(s, es[0]);
      if t.failure.Some? {
        StuckAfterFailure(t, es[1..]);
      }
      StepSafe(s, es[0]);
      StepConns(s, es[0]);
      RunContinues(t, es[1..], c);
    }
  }

  /** An environment in which reads bring data. */
  function Calm(): Answer {
    Answer(POLLIN, 1, -1, false)
  }

  lemma {:induction false} CalmRun(s: System, es: seq<Event>, env: System -> Answer)
    requires IsRun(s, es) && Follows(s, es, env) && forall t: System :: env(t) == Calm()
    ensures !RunClosesAgain(s, es)
    decreases |es|
  {
    if es != [] {
      CalmRun(Next(s, es[0]), es[1..], env);
    }
  }

  /** From every good state in which nothing was closed twice, the work that is left can be worked off. */
  lemma Settle(s: System) returns (es: seq<Event>)
    requires Inv(s) && AllOnce(s)
    ensures IsRun(s, es) && Inv(After(s, es)) && Quiescent(After(s, es))
  {
    var env := (t: System) => Calm();
    assert Reportable(POLLIN) by {
      ReportableIff(POLLIN);
      assert (1 as bv16) & 0xFFC0 == 0;
    }
    es := Drain(s, env);
    CalmRun(s, es, env);
  }

  lemma {:induction false} FreshDescriptor(conns: seq<Conn>) returns (fd: nat)
    ensures forall c: nat | c < |conns| :: conns[c].fd < fd
  {
    fd := 0;
    if conns != [] {
      var last := conns[|conns| - 1];
      fd := FreshDescriptor(conns[..|conns| - 1]);
      fd := if last.fd < fd then fd else last.fd + 1;
      forall c: nat | c < |conns| ensures conns[c].fd < fd {
        assert c < |conns| - 1 ==> conns[c] == conns[..|conns| - 1][c];
      }
    }
  }

  /** A server at rest can take one more client. */
  lemma OneMore(s: System) returns (es: seq<Event>)
    requires Inv(s) && Quiescent(s) && s.nextConnId < INT_MAX
    ensures IsRun(s, es) && Inv(After(s, es)) && Quiescent(After(s, es))
    ensures |After(s, es).conns| > |s.conns|
  {
    var fd := FreshDescriptor(s.conns);
    var poll, accept := Poll(0, [AcceptSource]), Accept(0, fd, false);
    QuiescentOnce(s);
    PollEnabledIff(s, 0, [AcceptSource]);
    var s1 := Next(s, poll);
    OnceStep(s, poll);
    AcceptEnabledIff(s1, 0, fd, false);
    var s2 := Next(s1, accept);
    OnceStep(s1, accept);
    assert |s2.conns| == |s.conns| + 1;
    var rest := Settle(s2);
    RunContinues(s2, rest, |s.conns|);
    FirstStep(s1, accept, rest);
    FirstStep(s, poll, [accept] + rest);
    es := [poll] + ([accept] + rest);
  }

  /** From Init, any number of clients can be taken. */
  lemma {:induction false} Clients(name: string, threads: nat, n: nat) returns (es: seq<Event>)
    requires n < INT_MAX - 1
    ensures IsRun(Init(name, threads), es)
    ensures var s := After(Init(name, threads), es); Inv(s) && Quiescent(s) && |s.conns| >= n
  {
    var s := Init(name, threads);
    es := [];
    InitGood(name, threads);
    if n > 0 {
      es := Clients(name, threads, n - 1);
      var t := After(s, es);
      if |t.conns| < n {
        var more := OneMore(t);
        AppendRun(s, es, more);
        es := es + more;
      }
    }
  }

  /** One test of a pass over a channel that is only readable. */
  lemma ReadableTest(s: System, l: nat)
    requires Inv(s) && AllOnce(s) && Enabled(s, Test(l, 0, false)) && s.loops[l].activity.revents == POLLIN
    ensures var t, h := Next(s, Test(l, 0, false)), s.loops[l].activity;
            && Inv(t) && AllOnce(t) && |t.loops| == |s.loops| && |t.conns| == |s.conns| && h.conn < |s.conns|
            && (l != 0 || h.stage != OnRead ==> t.erasing == s.erasing)
            && t.loops[l].activity == h.(stage := h.stage.Next())
            && t.conns[h.conn].loop == s.conns[h.conn].loop
            && Closes(t.conns[h.conn]) == Closes(s.conns[h.conn]) + if h.stage == OnRead then 1 else 0
  {
    var h := s.loops[l].activity;
    FiresIff(POLLIN);
    assert POLLIN & POLLHUP == 0 && POLLIN & POLLIN != 0 && POLLIN & POLLERR == 0 && POLLIN & POLLNVAL == 0;
    TestCloses(s, l, 0, false);
    TestConns(s, l, 0, false);
    OnceStep(s, Test(l, 0, false));
  }

  /** A pass over connection `c` on loop `l` has come to this place. */
  ghost predicate Reading(s: System, l: nat, c: nat, stage: Stage) {
    && Inv(s) && AllOnce(s) && AtLiberty(s, l) && c < |s.conns|
    && s.loops[l].activity == Handling(c, POLLIN, stage, []) && Closes(s.conns[c]) == 0
  }

  lemma BeginReading(s: System, l: nat, c: nat)
    requires Inv(s) && AllOnce(s) && AtLiberty(s, l) && s.loops[l].activity == Dispatching([ConnSource(c)])
    requires c < |s.conns| && Closes(s.conns[c]) == 0
    ensures Enabled(s, Begin(l, POLLIN)) && Reading(Next(s, Begin(l, POLLIN)), l, c, OnError)
  {
    PassEnabledIff(s, l, POLLIN, 0, false);
    OnceStep(s, Begin(l, POLLIN));
  }

  /** At rest, every open connection can be reported. */
  lemma OpenIsPolled(s: System, c: nat)
    requires Inv(s) && Quiescent(s) && c < |s.conns| && Closes(s.conns[c]) == 0
    ensures AllOnce(s) && AtLiberty(s, s.conns[c].loop) && Enabled(s, Poll(s.conns[c].loop, [ConnSource(c)]))
  {
    QuiescentOnce(s);
    assert Close !in s.conns[c].trace;
    assert ConnOk(FactsOf(s, c));
    QuiescentConn(s, c);
    PollEnabledIff(s, s.conns[c].loop, [ConnSource(c)]);
  }

  /** The channel of an open connection is reported readable, on its own loop. */
  lemma Reported(s: System, c: nat) returns (es: seq<Event>)
    requires Inv(s) && Quiescent(s) && c < |s.conns| && Closes(s.conns[c]) == 0
    ensures IsRun(s, es) && Reading(After(s, es), s.conns[c].loop, c, OnError)
  {
    var l := s.conns[c].loop;
    var poll, begin := Poll(l, [ConnSource(c)]), Begin(l, POLLIN);
    OpenIsPolled(s, c);
    OnceStep(s, poll);
    BeginReading(Next(s, poll), l, c);
    FirstStep(Next(s, poll), begin, []);
    FirstStep(s, poll, [begin] + []);
    es := [poll] + ([begin] + []);
  }

  /** Error and close callbacks are not for it. */
  lemma Passed(s: System, l: nat, c: nat, stage: Stage)
    requires Reading(s, l, c, stage) && (stage == OnError || stage == OnClose)
    ensures Enabled(s, Test(l, 0, false)) && Reading(Next(s, Test(l, 0, false)), l, c, stage.Next())
  {
    PassEnabledIff(s, l, POLLIN, 0, false);
    ReadableTest(s, l);
  }

  /** A connection that is read to its end on its own loop, whichever that is, is closed. */
  lemma ReadToEnd(s: System, c: nat) returns (es: seq<Event>)
    requires Inv(s) && Quiescent(s) && c < |s.conns| && Closes(s.conns[c]) == 0
    ensures IsRun(s, es) && Inv(After(s, es)) && AllOnce(After(s, es))
    ensures c < |After(s, es).conns| && Closes(After(s, es).conns[c]) == 1
  {
    var l, test := s.conns[c].loop, Test(s.conns[c].loop, 0, false);
    es := Reported(s, c);
    Passed(After(s, es), l, c, OnError);
    LastStep(s, es, test);
    es := es + [test];
    Passed(After(s, es), l, c, OnClose);
    LastStep(s, es, test);
    es := es + [test];
    PassEnabledIff(After(s, es), l, POLLIN, 0, false);
    ReadableTest(After(s, es), l);
    LastStep(s, es, test);
    es := es + [test];
  }

  /** From every good state at rest, every connection that is still open can come to its end: it is closed on its own
      loop, erased by the base loop and destroyed on its own loop. */
  lemma EveryConnectionCanEnd(s: System, c: nat) returns (es: seq<Event>)
    requires Inv(s) && Quiescent(s) && c < |s.conns| && Closes(s.conns[c]) == 0
    ensures IsRun(s, es) && Inv(After(s, es)) && Quiescent(After(s, es)) && c < |After(s, es).conns|
    ensures After(s, es).conns[c].loop == s.conns[c].loop && After(s, es).conns[c].trace == LIFECYCLE
  {
    var read := ReadToEnd(s, c);
    var t := After(s, read);
    RunContinues(s, read, c);
    var rest := Settle(t);
    RunContinues(t, rest, c);
    AppendRun(s, read, rest);
    es := read + rest;
    var u := After(t, rest);
    QuiescentOnce(u);
    assert u.conns[c].trace == t.conns[c].trace + u.conns[c].trace[|t.conns[c].trace|..];
  }

  /** For every number of I/O loops there is a run in which connection `c`, on the loop that its turn gives it, goes
      through the whole life cycle. */
  lemma WholeLives(name: string, threads: nat, c: nat) returns (es: seq<Event>)
    requires c < INT_MAX - 2
    ensures IsRun(Init(name, threads), es) && After(Init(name, threads), es).failure.None?
    ensures var conns := After(Init(name, threads), es).conns;
            && c < |conns| && conns[c].trace == LIFECYCLE
            && conns[c].loop == if threads == 0 then 0 else 1 + c % threads
  {
    var s := Init(name, threads);
    InitGood(name, threads);
    es := Clients(name, threads, c + 1);
    var t := After(s, es);
    QuiescentOnce(t);
    RunRoundRobin(s, es);
    if Closes(t.conns[c]) == 0 {
      var more := EveryConnectionCanEnd(t, c);
      AppendRun(s, es, more);
      es := es + more;
    }
  }
}
