/** The dispatch half of an event loop keeps the invariant: poll, one pass over a channel, the tests that
    close, and the steps that only move a loop along. */
module DispatchSteps {
  import opened Options
  import opened Channels
  import opened Protocol
  import opened Invariant

  // --- the events that only move a loop along ---

  /** A source occurs at most once in a list without duplicates. */
  lemma {:induction false} Once(q: seq<Source>, x: Source)
    requires forall i, j | 0 <= i < j < |q| :: q[i] != q[j]
    ensures multiset(q)[x] == B(x in q)
  {
    if q != [] {
      HeadTail(q);
      Once(q[1..], x);
    }
  }

  lemma PollOk(f: Facts, active: nat)
    requires ConnOk(f) && f.pass.NoPass? && active <= B(f.conn.watched)
    ensures ConnOk(f.(active := active))
  {}

  lemma PollFacts(s: System, l: nat, ready: seq<Source>, c: nat)
    requires CanPoll(s, l, ready) && c < |s.conns| && s.conns[c].loop < |s.loops|
    ensures FactsOf(DoPoll(s, l, ready), c) ==
            if s.conns[c].loop == l then FactsOf(s, c).(active := B(ConnSource(c) in ready)) else FactsOf(s, c)
    ensures s.conns[c].loop == l ==> FactsOf(s, c).pass.NoPass? && B(ConnSource(c) in ready) <= B(s.conns[c].watched)
  {
    ActivityFacts(s, l, Dispatching(ready), c);
    Once(ready, ConnSource(c));
  }

  lemma PollConn(s: System, l: nat, ready: seq<Source>, c: nat)
    requires CanPoll(s, l, ready) && c < |s.conns| && s.conns[c].loop < |s.loops| && ConnOk(FactsOf(s, c))
    ensures ConnOk(FactsOf(DoPoll(s, l, ready), c))
  {
    PollFacts(s, l, ready, c);
    if s.conns[c].loop == l {
      PollOk(FactsOf(s, c), B(ConnSource(c) in ready));
    }
  }

  lemma PollGood(s: System, l: nat, ready: seq<Source>)
    requires Good(s) && CanPoll(s, l, ready)
    ensures Good(DoPoll(s, l, ready))
  {
    var t := DoPoll(s, l, ready);
    assert LoopOk(s, l);
    ShapeKept(s, t, l);
    DistinctKept(s, t);
    forall c: nat | c < |s.conns| { PollConn(s, l, ready, c); }
  }

  lemma SwapFacts(s: System, l: nat, c: nat)
    requires Shape(s) && CanSwap(s, l) && c < |s.conns|
    ensures FactsOf(DoSwap(s, l), c) == FactsOf(s, c)
  {
    assert LoopOk(s, l);
    assert Backlog(DoSwap(s, l).loops[l]) == Backlog(s.loops[l]);
  }

  lemma SwapGood(s: System, l: nat)
    requires Good(s) && CanSwap(s, l)
    ensures Good(DoSwap(s, l))
  {
    var t := DoSwap(s, l);
    assert LoopOk(s, l);
    ShapeKept(s, t, l);
    DistinctKept(s, t);
    forall c: nat | c < |s.conns| { SwapFacts(s, l, c); }
  }

  lemma ReleaseFacts(s: System, l: nat, c: nat)
    requires CanRelease(s, l) && c < |s.conns| && s.conns[c].loop < |s.loops|
    ensures FactsOf(DoRelease(s, l), c) == FactsOf(s, c)
  {
    assert Backlog(DoRelease(s, l).loops[l]) == Backlog(s.loops[l]);
  }

  lemma ReleaseGood(s: System, l: nat)
    requires Good(s) && CanRelease(s, l)
    ensures Good(DoRelease(s, l))
  {
    var t := DoRelease(s, l);
    assert LoopOk(s, l);
    ShapeKept(s, t, l);
    DistinctKept(s, t);
    forall c: nat | c < |s.conns| { ReleaseFacts(s, l, c); }
  }

  // --- the dispatch pass ---

  lemma BeginOk(f: Facts, revents: bv16)
    requires ConnOk(f) && 0 < f.active && f.pass.NoPass?
    ensures ConnOk(f.(conn := f.conn.(handling := true), active := 0, pass := InPass(revents, OnError)))
  {}

  lemma HeadCount(active: seq<Source>, x: Source)
    requires active != []
    ensures multiset(active)[x] == B(active[0] == x) + multiset(active[1..])[x]
  {
    HeadTail(active);
  }

  lemma BeginFacts(s: System, l: nat, revents: bv16, d: nat)
    requires CanBegin(s, l) && d < |s.conns| && s.conns[d].loop < |s.loops|
    requires s.conns[s.loops[l].activity.active[0].conn].loop == l
    requires FactsOf(s, d).active <= 1
    ensures FactsOf(DoBegin(s, l, revents), d) ==
            if d == s.loops[l].activity.active[0].conn
            then FactsOf(s, d).(conn := s.conns[d].(handling := true), active := 0, pass := InPass(revents, OnError))
            else FactsOf(s, d)
    ensures d == s.loops[l].activity.active[0].conn ==> 0 < FactsOf(s, d).active && FactsOf(s, d).pass.NoPass?
  {
    var active := s.loops[l].activity.active;
    var c := active[0].conn;
    var a := Handling(c, revents, OnError, active[1..]);
    HeadCount(active, ConnSource(d));
    ActivityFacts(s, l, a, d);
    ConnFacts(SetActivity(s, l, a), c, s.conns[c].(handling := true), d);
  }

  lemma BeginConn(s: System, l: nat, revents: bv16, d: nat)
    requires Shape(s) && CanBegin(s, l) && d < |s.conns| && ConnOk(FactsOf(s, d))
    ensures ConnOk(FactsOf(DoBegin(s, l, revents), d))
  {
    var active := s.loops[l].activity.active;
    assert s.conns[active[0].conn].loop == l by {
      assert LoopOk(s, l) && active[0] in Active(s.loops[l].activity);
    }
    BeginFacts(s, l, revents, d);
    if d == active[0].conn {
      BeginOk(FactsOf(s, d), revents);
    }
  }

  lemma BeginGood(s: System, l: nat, revents: bv16)
    requires Good(s) && CanBegin(s, l)
    ensures Good(DoBegin(s, l, revents))
  {
    var t := DoBegin(s, l, revents);
    assert LoopOk(s, l);
    ShapeKept(s, t, l);
    DistinctKept(s, t);
    forall d: nat | d < |s.conns| { BeginConn(s, l, revents, d); }
  }

  lemma EndOk(f: Facts)
    requires ConnOk(f)
    ensures ConnOk(f.(conn := f.conn.(handling := false), pass := NoPass))
  {}

  lemma EndFacts(s: System, l: nat, d: nat)
    requires CanEnd(s, l) && d < |s.conns| && s.conns[d].loop < |s.loops| && s.conns[s.loops[l].activity.conn].loop == l
    ensures FactsOf(DoEnd(s, l), d) ==
            if d == s.loops[l].activity.conn
            then FactsOf(s, d).(conn := s.conns[d].(handling := false), pass := NoPass) else FactsOf(s, d)
  {
    var h := s.loops[l].activity;
    ActivityFacts(s, l, Dispatching(h.active), d);
    ConnFacts(SetActivity(s, l, Dispatching(h.active)), h.conn, s.conns[h.conn].(handling := false), d);
  }

  lemma EndConn(s: System, l: nat, d: nat)
    requires Shape(s) && CanEnd(s, l) && d < |s.conns| && ConnOk(FactsOf(s, d))
    ensures ConnOk(FactsOf(DoEnd(s, l), d))
  {
    assert s.conns[s.loops[l].activity.conn].loop == l by { assert LoopOk(s, l); }
    EndFacts(s, l, d);
    if d == s.loops[l].activity.conn {
      EndOk(FactsOf(s, d));
    }
  }

  lemma EndGood(s: System, l: nat)
    requires Good(s) && CanEnd(s, l)
    ensures Good(DoEnd(s, l))
  {
    var t := DoEnd(s, l);
    assert LoopOk(s, l);
    ShapeKept(s, t, l);
    DistinctKept(s, t);
    forall d: nat | d < |s.conns| { EndConn(s, l, d); }
  }

  /** The tests of a pass that end in `handleClose`. */
  predicate ClosingTest(revents: bv16, stage: Stage, read: int) {
    Fires(revents, stage) && (stage.OnClose? || (stage.OnRead? && read == 0))
  }

  function Advanced(s: System, l: nat): System
    requires l < |s.loops| && s.loops[l].activity.Handling? && !s.loops[l].activity.stage.OnEnd?
  {
    SetActivity(s, l, s.loops[l].activity.(stage := s.loops[l].activity.stage.Next()))
  }

  lemma AdvancedFacts(s: System, l: nat, d: nat)
    requires Shape(s) && CanTest(s, l) && d < |s.conns|
    ensures var h, f := s.loops[l].activity, FactsOf(s, d);
            FactsOf(Advanced(s, l), d) == if d == h.conn then f.(pass := InPass(h.revents, h.stage.Next())) else f
    ensures var h := s.loops[l].activity;
            d == h.conn ==> FactsOf(s, d).pass == InPass(h.revents, h.stage) && s.conns[d].loop == l
  {
    assert LoopOk(s, l);
    ActivityFacts(s, l, s.loops[l].activity.(stage := s.loops[l].activity.stage.Next()), d);
  }

  lemma AdvancedOk(f: Facts)
    requires ConnOk(f) && f.pass.InPass? && !f.pass.stage.OnEnd?
    requires !(f.pass.stage.OnClose? && Fires(f.pass.revents, OnClose))
    ensures ConnOk(f.(pass := InPass(f.pass.revents, f.pass.stage.Next())))
  {}

  lemma AdvancedConn(s: System, l: nat, d: nat)
    requires Shape(s) && CanTest(s, l) && d < |s.conns| && ConnOk(FactsOf(s, d))
    requires var h := s.loops[l].activity; !(h.stage.OnClose? && Fires(h.revents, OnClose))
    ensures ConnOk(FactsOf(Advanced(s, l), d))
  {
    AdvancedFacts(s, l, d);
    if d == s.loops[l].activity.conn {
      AdvancedOk(FactsOf(s, d));
    }
  }

  lemma AdvancedGood(s: System, l: nat)
    requires Good(s) && CanTest(s, l)
    requires var h := s.loops[l].activity; !(h.stage.OnClose? && Fires(h.revents, OnClose))
    ensures Good(Advanced(s, l))
  {
    var t := Advanced(s, l);
    assert LoopOk(s, l);
    ShapeKept(s, t, l);
    DistinctKept(s, t);
    forall d: nat | d < |s.conns| { AdvancedConn(s, l, d); }
  }

  lemma ShutOk(f: Facts)
    requires ConnOk(f) && f.conn.state.Connected?
    ensures ConnOk(f.(conn := f.conn.(state := Disconnecting)))
  {}

  lemma ShutConn(s: System, c: nat, d: nat)
    requires Shape(s) && c < |s.conns| && d < |s.conns| && s.conns[c].state.Connected? && ConnOk(FactsOf(s, d))
    ensures ConnOk(FactsOf(SetConn(s, c, s.conns[c].(state := Disconnecting)), d))
  {
    ConnFacts(s, c, s.conns[c].(state := Disconnecting), d);
    if d == c {
      ShutOk(FactsOf(s, d));
    }
  }

  lemma ShutGood(s: System, c: nat)
    requires Good(s) && c < |s.conns| && s.conns[c].state.Connected?
    ensures Good(SetConn(s, c, s.conns[c].(state := Disconnecting)))
  {
    var t := SetConn(s, c, s.conns[c].(state := Disconnecting));
    assert LoopOk(s, 0);
    ShapeKept(s, t, 0);
    DistinctKept(s, t);
    forall d: nat | d < |s.conns| { ShutConn(s, c, d); }
  }

  lemma WriteCompleteFacts(s: System, c: nat, d: nat)
    requires Shape(s) && c < |s.conns| && d < |s.conns|
    ensures FactsOf(Post(s, s.conns[c].loop, WriteComplete(c)), d) == FactsOf(s, d)
  {
    PostFacts(s, s.conns[c].loop, WriteComplete(c), d);
  }

  lemma WriteCompleteGood(s: System, c: nat)
    requires Good(s) && c < |s.conns|
    ensures Good(Post(s, s.conns[c].loop, WriteComplete(c)))
  {
    var l := s.conns[c].loop;
    var t := Post(s, l, WriteComplete(c));
    assert LoopOk(s, l);
    ShapeKept(s, t, l);
    DistinctKept(s, t);
    forall d: nat | d < |s.conns| { WriteCompleteFacts(s, c, d); }
  }

  lemma QuietTestGood(s: System, l: nat, read: int, flag: bool)
    requires Good(s) && CanTest(s, l)
    requires var h := s.loops[l].activity; !ClosingTest(h.revents, h.stage, read)
    ensures Good(DoTest(s, l, read, flag))
    ensures var t, h := DoTest(s, l, read, flag), s.loops[l].activity;
            var shuts := && h.stage == OnRead && read > 0 && flag && s.conns[h.conn].state == Connected
                         && (h.revents & POLLIN != 0 || h.revents & POLLPRI != 0 || h.revents & POLLRDHUP != 0);
            |t.conns| == |s.conns| && t.conns[h.conn].state == if shuts then Disconnecting else s.conns[h.conn].state
  {
    FiresIff(s.loops[l].activity.revents);
    var h, s1 := s.loops[l].activity, Advanced(s, l);
    AdvancedGood(s, l);
    assert LoopOk(s, l);
    if Fires(h.revents, h.stage) {
      if h.stage.OnRead? && s1.conns[h.conn].state.Connected? {
        ShutGood(s1, h.conn);
      }
      WriteCompleteGood(s1, h.conn);
    }
  }

  /** Closing on an I/O loop: one more removal is queued on the base loop. */
  ghost function ClosePosted(f: Facts): Facts
    requires f.pass.InPass? && !f.pass.stage.OnEnd?
  {
    f.(conn := f.conn.(watched := false, trace := f.conn.trace + [Close]),
       pass := InPass(f.pass.revents, f.pass.stage.Next()), removing := f.removing + 1)
  }

  /** Closing on the base loop: the map entry is gone at once. */
  ghost function CloseErased(f: Facts): Facts
    requires f.pass.InPass? && !f.pass.stage.OnEnd?
  {
    f.(conn := f.conn.(watched := false, trace := f.conn.trace + [Close] + [Erase]),
       pass := InPass(f.pass.revents, f.pass.stage.Next()), mapped := false, erasing := true)
  }

  lemma ClosePostedOk(f: Facts, read: int)
    requires ConnOk(f) && f.active == 0 && f.pass.InPass? && ClosingTest(f.pass.revents, f.pass.stage, read)
    ensures ConnOk(ClosePosted(f))
  {}

  lemma CloseErasedOk(f: Facts, read: int)
    requires ConnOk(f) && f.active == 0 && f.pass.InPass? && ClosingTest(f.pass.revents, f.pass.stage, read)
    requires f.mapped && !f.erasing
    ensures ConnOk(CloseErased(f))
  {}

  /** The connection as `handleClose` leaves it. */
  function Marked(k: Conn): Conn {
    k.(watched := false, trace := k.trace + [Close])
  }

  /** A closing test on an I/O loop, and one on the base loop, written out. */
  function PostedClose(s: System, l: nat): System
    requires 0 < |s.loops| && l < |s.loops| && s.loops[l].activity.Handling? && !s.loops[l].activity.stage.OnEnd?
    requires s.loops[l].activity.conn < |s.conns|
  {
    Post(MarkedAdvanced(s, l), 0, RemoveConnectionInLoop(s.loops[l].activity.conn))
  }

  function InlineClose(s: System): System
    requires 0 < |s.loops| && s.loops[0].activity.Handling? && !s.loops[0].activity.stage.OnEnd?
    requires s.loops[0].activity.conn < |s.conns|
  {
    var c := s.loops[0].activity.conn;
    SetConn(Advanced(s, 0).(connections := s.connections - {s.conns[c].name}, erasing := Some(c)), c,
            Marked(s.conns[c]).(trace := s.conns[c].trace + [Close] + [Erase]))
  }

  lemma ClosingTestIs(s: System, l: nat, read: int, flag: bool)
    requires CanTest(s, l)
    requires var h := s.loops[l].activity; ClosingTest(h.revents, h.stage, read)
    requires var k := s.conns[s.loops[l].activity.conn];
             k.loop == l && k.registered && (k.state.Connected? || k.state.Disconnecting?)
    ensures var t := DoTest(s, l, read, flag);
            if l != 0 then t == PostedClose(s, l)
            else if s.conns[s.loops[0].activity.conn].name in s.connections then t == InlineClose(s)
            else t.failure == Some(EraseMissing)
  {}

  function MarkedAdvanced(s: System, l: nat): System
    requires l < |s.loops| && s.loops[l].activity.Handling? && !s.loops[l].activity.stage.OnEnd?
    requires s.loops[l].activity.conn < |s.conns|
  {
    var c := s.loops[l].activity.conn;
    SetConn(Advanced(s, l), c, Marked(s.conns[c]))
  }

  lemma MarkedAdvancedFacts(s: System, l: nat, d: nat)
    requires Shape(s) && CanTest(s, l) && d < |s.conns|
    ensures var h, f := s.loops[l].activity, FactsOf(s, d);
            FactsOf(MarkedAdvanced(s, l), d) ==
            if d == h.conn then f.(conn := Marked(s.conns[d]), pass := InPass(h.revents, h.stage.Next())) else f
    ensures var h := s.loops[l].activity; d == h.conn ==> FactsOf(s, d).pass == InPass(h.revents, h.stage)
  {
    AdvancedFacts(s, l, d);
    ConnFacts(Advanced(s, l), s.loops[l].activity.conn, Marked(s.conns[s.loops[l].activity.conn]), d);
  }

  lemma PostedCloseFacts(s: System, l: nat)
    requires Shape(s) && CanTest(s, l)
    ensures var h, c := s.loops[l].activity, s.loops[l].activity.conn;
            && s.conns[c].loop == l
            && FactsOf(s, c).pass == InPass(h.revents, h.stage)
            && FactsOf(PostedClose(s, l), c) == ClosePosted(FactsOf(s, c))
  {
    var c := s.loops[l].activity.conn;
    assert LoopOk(s, l);
    MarkedAdvancedFacts(s, l, c);
    PostFacts(MarkedAdvanced(s, l), 0, RemoveConnectionInLoop(c), c);
  }

  lemma PostedCloseFrame(s: System, l: nat, d: nat)
    requires Shape(s) && CanTest(s, l) && d < |s.conns| && d != s.loops[l].activity.conn
    ensures FactsOf(PostedClose(s, l), d) == FactsOf(s, d)
  {
    MarkedAdvancedFacts(s, l, d);
    PostFacts(MarkedAdvanced(s, l), 0, RemoveConnectionInLoop(s.loops[l].activity.conn), d);
  }

  lemma PostedCloseConn(s: System, l: nat, read: int, d: nat)
    requires Shape(s) && CanTest(s, l) && d < |s.conns| && ConnOk(FactsOf(s, d))
    requires var h := s.loops[l].activity; ClosingTest(h.revents, h.stage, read)
    ensures ConnOk(FactsOf(PostedClose(s, l), d))
  {
    if d == s.loops[l].activity.conn {
      PostedCloseFacts(s, l);
      ClosePostedOk(FactsOf(s, d), read);
    } else {
      PostedCloseFrame(s, l, d);
    }
  }

  lemma PostedCloseGood(s: System, l: nat, read: int)
    requires Good(s) && CanTest(s, l) && l != 0
    requires var h := s.loops[l].activity; ClosingTest(h.revents, h.stage, read)
    ensures Good(PostedClose(s, l))
  {
    var t, s1 := PostedClose(s, l), MarkedAdvanced(s, l);
    assert LoopOk(s1, l) by { assert LoopOk(s, l); }
    ShapeKept(s, s1, l);
    assert LoopOk(t, 0) by { assert LoopOk(s1, 0); }
    ShapeKept(s1, t, 0);
    DistinctKept(s, t);
    forall d: nat | d < |s.conns| { PostedCloseConn(s, l, read, d); }
  }

  lemma InlineCloseFacts(s: System, d: nat)
    requires Shape(s) && DistinctNames(s) && CanTest(s, 0) && d < |s.conns|
    ensures FactsOf(InlineClose(s), d) ==
            if d == s.loops[0].activity.conn
              && FactsOf(s, d).pass == InPass(s.loops[0].activity.revents, s.loops[0].activity.stage)
            then CloseErased(FactsOf(s, d)) else FactsOf(s, d)
    ensures var h := s.loops[0].activity; d == h.conn ==> FactsOf(s, d).pass == InPass(h.revents, h.stage)
  {
    var c, s1 := s.loops[0].activity.conn, Advanced(s, 0);
    AdvancedFacts(s, 0, d);
    EraseFacts(s1, c, d);
    ConnFacts(s1.(connections := s.connections - {s.conns[c].name}, erasing := Some(c)), c,
              Marked(s.conns[c]).(trace := s.conns[c].trace + [Close] + [Erase]), d);
  }

  lemma InlineCloseConn(s: System, read: int, d: nat)
    requires Shape(s) && DistinctNames(s) && CanTest(s, 0) && d < |s.conns| && ConnOk(FactsOf(s, d))
    requires var h := s.loops[0].activity;
             ClosingTest(h.revents, h.stage, read) && s.conns[h.conn].name in s.connections
    ensures ConnOk(FactsOf(InlineClose(s), d))
  {
    InlineCloseFacts(s, d);
    if d == s.loops[0].activity.conn {
      CloseErasedOk(FactsOf(s, d), read);
    }
  }

  lemma InlineCloseGood(s: System, read: int)
    requires Good(s) && CanTest(s, 0)
    requires var h := s.loops[0].activity;
             ClosingTest(h.revents, h.stage, read) && s.conns[h.conn].name in s.connections
    ensures Good(InlineClose(s))
  {
    var t := InlineClose(s);
    assert LoopOk(t, 0) by { assert LoopOk(s, 0); }
    ShapeKept(s, t, 0);
    DistinctKept(s, t);
    forall d: nat | d < |s.conns| { InlineCloseConn(s, read, d); }
  }

  /** A connection being dispatched is on its own loop and registered there. */
  lemma HandledConn(s: System, l: nat)
    requires Good(s) && l < |s.loops| && s.loops[l].activity.Handling?
    ensures var c := s.loops[l].activity.conn;
            c < |s.conns| && s.conns[c].loop == l && s.conns[c].registered && s.conns[c].handling
            && (s.conns[c].state.Connected? || s.conns[c].state.Disconnecting?)
  {
    assert LoopOk(s, l);
    assert ConnOk(FactsOf(s, s.loops[l].activity.conn));
  }

  /** A closing test either keeps the invariant or finds the name gone. */
  lemma ClosingTestGood(s: System, l: nat, read: int, flag: bool)
    requires Good(s) && CanTest(s, l)
    requires var h := s.loops[l].activity; ClosingTest(h.revents, h.stage, read)
    ensures var t, c := DoTest(s, l, read, flag), s.loops[l].activity.conn;
            if l == 0 && s.conns[c].name !in s.connections then t.failure == Some(EraseMissing) else Good(t)
  {
    HandledConn(s, l);
    ClosingTestIs(s, l, read, flag);
    if l != 0 {
      PostedCloseGood(s, l, read);
    } else if s.conns[s.loops[0].activity.conn].name in s.connections {
      InlineCloseGood(s, read);
    }
  }
}
