/** How the protocol spreads connections over the I/O loops, in every run. */
module Balance {
  import opened Channels
  import opened Protocol
  import opened Invariant
  import opened AcceptSteps
  import opened Safety
  import opened ThreadPool

  /** The k-th connection is on the loop that round robin gives the k-th turn. */
  ghost predicate RoundRobin(s: System)
    requires 0 < |s.loops|
  {
    var n := |s.loops| - 1;
    if n == 0 then s.next == 0 && forall c: nat | c < |s.conns| :: s.conns[c].loop == 0
    else s.next == |s.conns| % n && forall c: nat | c < |s.conns| :: s.conns[c].loop == 1 + c % n
  }

  lemma TestCursor(s: System, l: nat, read: int, flag: bool)
    requires CanTest(s, l)
    ensures var t := DoTest(s, l, read, flag); t.next == s.next && |t.loops| == |s.loops| && |t.conns| == |s.conns|
  {}

  lemma RunCursor(s: System, l: nat, shut: bool)
    requires CanRun(s, l)
    ensures var t := DoRun(s, l, shut); t.next == s.next && |t.loops| == |s.loops| && |t.conns| == |s.conns|
  {}

  lemma AcceptCursor(s: System, fd: int, shut: bool)
    requires CanAccept(s, 0, fd) && NextLoop(s) < |s.loops| && 0 <= fd
    ensures var t := DoAccept(s, 0, fd, shut);
            && |t.loops| == |s.loops| && |t.conns| == |s.conns| + 1 && t.next == NextCursor(s)
            && t.conns[|s.conns|].loop == NextLoop(s)
  {}

  lemma AcceptRoundRobin(s: System, fd: int, shut: bool)
    requires Inv(s) && RoundRobin(s) && CanAccept(s, 0, fd) && NextLoop(s) < |s.loops| && 0 <= fd
    requires var t := DoAccept(s, 0, fd, shut);
             |s.conns| <= |t.conns| && forall c: nat | c < |s.conns| :: t.conns[c].loop == s.conns[c].loop
    ensures |DoAccept(s, 0, fd, shut).loops| == |s.loops| && RoundRobin(DoAccept(s, 0, fd, shut))
  {
    AcceptCursor(s, fd, shut);
    if |s.loops| > 1 {
      ModStep(|s.conns|, |s.loops| - 1);
    }
  }

  lemma StepRoundRobin(s: System, e: Event)
    requires Inv(s) && RoundRobin(s) && Enabled(s, e)
    ensures |Next(s, e).loops| == |s.loops| && RoundRobin(Next(s, e))
  {
    StepConns(s, e);
    match e
    case Test(l, read, flag) => TestCursor(s, l, read, flag);
    case Run(l, shut) => RunCursor(s, l, shut);
    case Accept(l, fd, shut) =>
      OnlyBaseAccepts(s, l, fd);
      if 0 <= fd {
        AcceptRoundRobin(s, fd, shut);
      }
    case _ =>
  }

  lemma {:induction false} RunRoundRobin(s: System, es: seq<Event>)
    requires Inv(s) && RoundRobin(s) && IsRun(s, es)
    ensures |After(s, es).loops| == |s.loops| && RoundRobin(After(s, es))
    decreases |es|
  {
    if es != [] {
      var t := Next(s, es[0]);
      StepSafe(s, es[0]);
      StepRoundRobin(s, es[0]);
      if t.failure.Some? {
        StuckAfterFailure(t, es[1..]);
      } else {
        RunRoundRobin(t, es[1..]);
      }
    }
  }

  /** The number of connections a run has put on loop `l`. */
  ghost function OnLoop(conns: seq<Conn>, l: nat): nat {
    if conns == [] then 0 else OnLoop(conns[..|conns| - 1], l) + B(conns[|conns| - 1].loop == l)
  }

  lemma {:induction false} OnLoopIsShare(conns: seq<Conn>, l: nat, n: nat)
    requires l < n && forall c: nat | c < |conns| :: conns[c].loop == 1 + c % n
    ensures OnLoop(conns, l + 1) == Share(0, |conns|, l, n)
  {
    if conns != [] {
      var k := |conns| - 1;
      OnLoopIsShare(conns[..k], l, n);
      ShareSplit(0, k, 1, l, n);
      assert Share(k, 1, l, n) == B(k % n == l) + Share(k + 1, 0, l, n);
    }
  }

  /** In every run with `threads` > 0 I/O loops the base loop gets no connection, and the I/O loops' numbers of
      connections differ by at most one, however steps interleave. */
  lemma ConnectionsAreBalanced(name: string, threads: nat, es: seq<Event>, l: nat, m: nat)
    requires IsRun(Init(name, threads), es) && 1 <= l <= threads && 1 <= m <= threads
    ensures var conns := After(Init(name, threads), es).conns;
            -1 <= OnLoop(conns, l) - OnLoop(conns, m) <= 1 && forall c: nat | c < |conns| :: conns[c].loop != 0
  {
    var s := Init(name, threads);
    InitGood(name, threads);
    RunRoundRobin(s, es);
    var conns := After(s, es).conns;
    OnLoopIsShare(conns, l - 1, threads);
    OnLoopIsShare(conns, m - 1, threads);
    SharesDifferByAtMostOne(0, |conns|, l - 1, m - 1, threads);
  }
}
