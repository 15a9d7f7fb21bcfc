/** The functor half of an event loop keeps the invariant: `connectEstablished`, both halves of
    `removeConnectionInLoop`, `connectDestroyed` and the write-complete callbacks. */
module FunctorSteps {
  import opened Options
  import opened Protocol
  import opened Invariant

  // --- the functors ---

  ghost function EstablishedFacts(f: Facts, shut: bool): Facts
    requires 0 < f.establishing
  {
    f.(conn := f.conn.(state := if shut then Disconnecting else Connected, registered := true, watched := true,
                       trace := f.conn.trace + [Establish]),
       establishing := f.establishing - 1)
  }

  lemma EstablishedOk(f: Facts, shut: bool)
    requires ConnOk(f) && 0 < f.establishing
    ensures ConnOk(EstablishedFacts(f, shut))
  {}

  ghost function ErasedFacts(f: Facts): Facts
    requires 0 < f.removing
  {
    f.(conn := f.conn.(trace := f.conn.trace + [Erase]), removing := f.removing - 1, mapped := false, erasing := true)
  }

  lemma ErasedOk(f: Facts)
    requires ConnOk(f) && 0 < f.removing && f.mapped && !f.erasing
    ensures ConnOk(ErasedFacts(f))
  {}

  ghost function DestroyedFacts(f: Facts): Facts
    requires 0 < f.destroying
  {
    f.(conn := f.conn.(state := Disconnected, registered := false, watched := false, trace := f.conn.trace + [Destroy]),
       destroying := f.destroying - 1)
  }

  lemma DestroyedOk(f: Facts)
    requires ConnOk(f) && 0 < f.destroying && f.pass.NoPass? && f.active == 0
    ensures ConnOk(DestroyedFacts(f))
  {}

  ghost function PostedFacts(f: Facts): Facts {
    f.(erasing := false, destroying := f.destroying + 1)
  }

  lemma PostedOk(f: Facts)
    requires ConnOk(f) && f.erasing
    ensures ConnOk(PostedFacts(f))
  {}

  // The state after the head of loop `l`'s vector has been taken and run.

  /** Running a functor leaves the facts of all other connections alone. */
  lemma RunFrame(s: System, l: nat, k: Conn, d: nat)
    requires CanRun(s, l) && d < |s.conns| && s.conns[d].loop < |s.loops| && d != s.loops[l].todo[0].conn
    requires k.loop == s.conns[s.loops[l].todo[0].conn].loop && k.name == s.conns[s.loops[l].todo[0].conn].name
    ensures FactsOf(SetConn(Taken(s, l), s.loops[l].todo[0].conn, k), d) == FactsOf(s, d)
  {
    TakenFacts(s, l, d);
    ConnFacts(Taken(s, l), s.loops[l].todo[0].conn, k, d);
  }

  function EstablishedConn(k: Conn, shut: bool): Conn {
    k.(state := if shut then Disconnecting else Connected, registered := true, watched := true,
       trace := k.trace + [Establish])
  }

  lemma RunEstablishedIs(s: System, l: nat, shut: bool)
    requires CanRun(s, l) && s.loops[l].todo[0].ConnectEstablished? && DoRun(s, l, shut).failure.None?
    ensures var c := s.loops[l].todo[0].conn;
            DoRun(s, l, shut) == SetConn(Taken(s, l), c, EstablishedConn(s.conns[c], shut)) && s.conns[c].loop == l
  {}

  lemma RunEstablishedFacts(s: System, l: nat, shut: bool)
    requires CanRun(s, l) && s.loops[l].todo[0].ConnectEstablished? && s.conns[s.loops[l].todo[0].conn].loop == l
    ensures var c := s.loops[l].todo[0].conn;
            && 0 < FactsOf(s, c).establishing
            && FactsOf(SetConn(Taken(s, l), c, EstablishedConn(s.conns[c], shut)), c) ==
               EstablishedFacts(FactsOf(s, c), shut)
  {
    var c := s.loops[l].todo[0].conn;
    TakenFacts(s, l, c);
    ConnFacts(Taken(s, l), c, EstablishedConn(s.conns[c], shut), c);
  }

  lemma RunEstablishedConn(s: System, l: nat, shut: bool, d: nat)
    requires Shape(s) && CanRun(s, l) && s.loops[l].todo[0].ConnectEstablished?
    requires d < |s.conns| && ConnOk(FactsOf(s, d))
    requires DoRun(s, l, shut).failure.None?
    ensures ConnOk(FactsOf(DoRun(s, l, shut), d))
  {
    var c := s.loops[l].todo[0].conn;
    RunEstablishedIs(s, l, shut);
    if d == c {
      RunEstablishedFacts(s, l, shut);
      EstablishedOk(FactsOf(s, d), shut);
    } else {
      RunFrame(s, l, EstablishedConn(s.conns[c], shut), d);
    }
  }

  /** A functor in the vector runs on the thread it was meant for. */
  lemma RunTarget(s: System, l: nat)
    requires Shape(s) && CanRun(s, l)
    ensures var f := s.loops[l].todo[0]; f.conn < |s.conns| && Target(s, f) == l
    ensures LoopOk(Taken(s, l), l)
  {
    assert LoopOk(s, l) && s.loops[l].todo[0] in s.loops[l].todo;
  }

  /** No assertion fails in `connectEstablished`: right thread, fresh state, and no channel of the same
      descriptor is registered. */
  lemma EstablishSucceeds(s: System, l: nat, shut: bool)
    requires Good(s) && CanRun(s, l) && s.loops[l].todo[0].ConnectEstablished?
    ensures var t, c := DoRun(s, l, shut), s.loops[l].todo[0].conn;
            && t.failure == None && |t.conns| == |s.conns|
            && t.conns[c].state == (if shut then Disconnecting else Connected)
            && t.conns[c].registered && t.conns[c].watched
  {
    var c := s.loops[l].todo[0].conn;
    RunTarget(s, l);
    QueuedIsConnecting(s, l);
    forall d: nat | d < |s.conns| && s.conns[d].registered ensures s.conns[d].fd != s.conns[c].fd {
      assert ConnOk(FactsOf(s, d));
    }
  }

  lemma QueuedIsConnecting(s: System, l: nat)
    requires Good(s) && CanRun(s, l) && s.loops[l].todo[0].ConnectEstablished?
    ensures var k := s.conns[s.loops[l].todo[0].conn]; k.state.Connecting? && !k.registered
  {
    var c := s.loops[l].todo[0].conn;
    RunTarget(s, l);
    TakenFacts(s, l, c);
    assert ConnOk(FactsOf(s, c));
  }

  lemma RunEstablishedGood(s: System, l: nat, shut: bool)
    requires Good(s) && CanRun(s, l) && s.loops[l].todo[0].ConnectEstablished?
    ensures Good(DoRun(s, l, shut))
  {
    EstablishSucceeds(s, l, shut);
    EstablishedShape(s, l, shut);
    forall d: nat | d < |s.conns| { RunEstablishedConn(s, l, shut, d); }
  }

  lemma EstablishedShape(s: System, l: nat, shut: bool)
    requires Shape(s) && DistinctNames(s) && DistinctDescriptors(s)
    requires CanRun(s, l) && s.loops[l].todo[0].ConnectEstablished? && DoRun(s, l, shut).failure.None?
    ensures var t := DoRun(s, l, shut); Shape(t) && DistinctNames(t) && DistinctDescriptors(t)
    ensures |DoRun(s, l, shut).conns| == |s.conns| && s.conns[s.loops[l].todo[0].conn].loop == l
  {
    var t := DoRun(s, l, shut);
    RunTarget(s, l);
    ShapeKept(s, t, l);
    DistinctKept(s, t);
  }

  /** The state after the map entry of the head's connection has been erased. */
  function Unmapped(s: System): System
    requires 0 < |s.loops| && s.loops[0].todo != [] && s.loops[0].todo[0].conn < |s.conns|
  {
    var c := s.loops[0].todo[0].conn;
    Taken(s, 0).(connections := s.connections - {s.conns[c].name}, erasing := Some(c))
  }

  lemma UnmappedFacts(s: System, d: nat)
    requires Shape(s) && DistinctNames(s) && CanRun(s, 0) && s.loops[0].todo[0].RemoveConnectionInLoop? && d < |s.conns|
    ensures var f, t := FactsOf(s, d), FactsOf(Unmapped(s), d);
            if d == s.loops[0].todo[0].conn
            then 0 < f.removing && t == f.(removing := f.removing - 1, mapped := false, erasing := true)
            else t == f
  {
    TakenFacts(s, 0, d);
    EraseFacts(Taken(s, 0), s.loops[0].todo[0].conn, d);
  }

  lemma RunErasedConn(s: System, d: nat)
    requires Shape(s) && DistinctNames(s) && CanRun(s, 0) && s.loops[0].todo[0].RemoveConnectionInLoop?
    requires d < |s.conns| && ConnOk(FactsOf(s, d))
    requires s.conns[s.loops[0].todo[0].conn].name in s.connections
    ensures ConnOk(FactsOf(DoRun(s, 0, false), d))
  {
    var c := s.loops[0].todo[0].conn;
    var k := s.conns[c].(trace := s.conns[c].trace + [Erase]);
    assert DoRun(s, 0, false) == SetConn(Unmapped(s), c, k);
    UnmappedFacts(s, d);
    ConnFacts(Unmapped(s), c, k, d);
    if d == c {
      ErasedOk(FactsOf(s, d));
      assert FactsOf(SetConn(Unmapped(s), c, k), d) == ErasedFacts(FactsOf(s, d));
    }
  }

  /** A removal either erases the map entry or fails the assertion, and it fails exactly when the entry is gone. */
  lemma RunErasedGood(s: System, l: nat, shut: bool)
    requires Good(s) && CanRun(s, l) && s.loops[l].todo[0].RemoveConnectionInLoop?
    ensures var t, c := DoRun(s, l, shut), s.loops[l].todo[0].conn;
            if s.conns[c].name in s.connections then Good(t) else t.failure == Some(EraseMissing)
  {
    var t, c := DoRun(s, l, shut), s.loops[l].todo[0].conn;
    RunTarget(s, l);
    if s.conns[c].name in s.connections {
      assert t == DoRun(s, 0, false);
      ShapeKept(s, t, 0);
      DistinctKept(s, t);
      forall d: nat | d < |s.conns| { RunErasedConn(s, d); }
    }
  }

  function DestroyedConn(k: Conn): Conn {
    k.(state := Disconnected, registered := false, watched := false, trace := k.trace + [Destroy])
  }

  lemma RunDestroyedIs(s: System, l: nat, shut: bool)
    requires CanRun(s, l) && s.loops[l].todo[0].ConnectDestroyed? && DoRun(s, l, shut).failure.None?
    ensures var c := s.loops[l].todo[0].conn;
            DoRun(s, l, shut) == SetConn(Taken(s, l), c, DestroyedConn(s.conns[c])) && s.conns[c].loop == l
  {}

  lemma RunDestroyedFacts(s: System, l: nat)
    requires CanRun(s, l) && s.loops[l].todo[0].ConnectDestroyed? && s.conns[s.loops[l].todo[0].conn].loop == l
    ensures var c := s.loops[l].todo[0].conn;
            var f := FactsOf(s, c);
            0 < f.destroying && f.pass.NoPass? && f.active == 0 &&
            FactsOf(SetConn(Taken(s, l), c, DestroyedConn(s.conns[c])), c) == DestroyedFacts(f)
  {
    var c := s.loops[l].todo[0].conn;
    TakenFacts(s, l, c);
    ConnFacts(Taken(s, l), c, DestroyedConn(s.conns[c]), c);
  }

  lemma RunDestroyedConn(s: System, l: nat, shut: bool, d: nat)
    requires Shape(s) && CanRun(s, l) && s.loops[l].todo[0].ConnectDestroyed? && d < |s.conns| && ConnOk(FactsOf(s, d))
    requires DoRun(s, l, shut).failure.None?
    ensures ConnOk(FactsOf(DoRun(s, l, shut), d))
  {
    var c := s.loops[l].todo[0].conn;
    RunDestroyedIs(s, l, shut);
    if d == c {
      RunDestroyedFacts(s, l);
      DestroyedOk(FactsOf(s, d));
    } else {
      RunFrame(s, l, DestroyedConn(s.conns[c]), d);
    }
  }

  lemma RunDestroyedShape(s: System, l: nat, shut: bool)
    requires Shape(s) && DistinctNames(s) && DistinctDescriptors(s)
    requires CanRun(s, l) && s.loops[l].todo[0].ConnectDestroyed? && DoRun(s, l, shut).failure.None?
    ensures var t := DoRun(s, l, shut);
            Shape(t) && DistinctNames(t) && DistinctDescriptors(t) && |t.conns| == |s.conns|
  {
    var t := DoRun(s, l, shut);
    RunDestroyedIs(s, l, shut);
    RunTarget(s, l);
    ShapeKept(s, t, l);
    DistinctKept(s, t);
  }

  /** No assertion fails in a queued `connectDestroyed`. */
  lemma DestroySucceeds(s: System, l: nat, shut: bool)
    requires Good(s) && CanRun(s, l) && s.loops[l].todo[0].ConnectDestroyed?
    ensures DoRun(s, l, shut).failure.None?
  {
    var c := s.loops[l].todo[0].conn;
    RunTarget(s, l);
    TakenFacts(s, l, c);
    assert ConnOk(FactsOf(s, c));
  }

  lemma RunDestroyedGood(s: System, l: nat, shut: bool)
    requires Good(s) && CanRun(s, l) && s.loops[l].todo[0].ConnectDestroyed?
    ensures Good(DoRun(s, l, shut))
  {
    DestroySucceeds(s, l, shut);
    RunDestroyedShape(s, l, shut);
    forall d: nat | d < |s.conns| { RunDestroyedConn(s, l, shut, d); }
  }

  lemma RunWriteCompleteFacts(s: System, l: nat, d: nat)
    requires Shape(s) && CanRun(s, l) && s.loops[l].todo[0].WriteComplete? && d < |s.conns|
    ensures FactsOf(Taken(s, l), d) == FactsOf(s, d)
  {
    TakenFacts(s, l, d);
  }

  lemma RunWriteCompleteGood(s: System, l: nat, shut: bool)
    requires Good(s) && CanRun(s, l) && s.loops[l].todo[0].WriteComplete?
    ensures Good(DoRun(s, l, shut))
  {
    RunTarget(s, l);
    ShapeKept(s, Taken(s, l), l);
    DistinctKept(s, Taken(s, l));
    forall d: nat | d < |s.conns| { RunWriteCompleteFacts(s, l, d); }
  }

  // --- the second half of removeConnectionInLoop ---

  lemma PostDestroyFacts(s: System, d: nat)
    requires Shape(s) && CanPostDestroy(s) && d < |s.conns|
    ensures FactsOf(DestroyPosted(s), d) == if d == s.erasing.value then PostedFacts(FactsOf(s, d)) else FactsOf(s, d)
  {
    var c := s.erasing.value;
    PostFacts(s.(erasing := None), s.conns[c].loop, ConnectDestroyed(c), d);
  }

  lemma PostDestroyConn(s: System, d: nat)
    requires Shape(s) && CanPostDestroy(s) && d < |s.conns| && ConnOk(FactsOf(s, d))
    ensures ConnOk(FactsOf(DestroyPosted(s), d))
  {
    PostDestroyFacts(s, d);
    if d == s.erasing.value {
      PostedOk(FactsOf(s, d));
    }
  }

  lemma PostDestroyGood(s: System)
    requires Good(s) && CanPostDestroy(s)
    ensures Good(DestroyPosted(s))
  {
    var t, l := DestroyPosted(s), s.conns[s.erasing.value].loop;
    assert LoopOk(t, l) by { assert LoopOk(s, l); }
    ShapeKept(s, t, l);
    DistinctKept(s, t);
    forall d: nat | d < |s.conns| { PostDestroyConn(s, d); }
  }
}
