/** The record of a connection in every reachable state, whether or not a pass closed it twice. */
module Records {
  import opened Protocol
  import opened Invariant
  import opened DispatchSteps
  import opened FunctorSteps
  import opened Safety
  import opened Lifetime

  /** The record without any close but the first. */
  ghost function ClosedOnce(trace: seq<LifeEvent>): seq<LifeEvent> {
    if trace == [] then []
    else
      var before, e := ClosedOnce(trace[..|trace| - 1]), trace[|trace| - 1];
      if e == Close && Close in before then before else before + [e]
  }

  lemma ClosedOnceAppend(trace: seq<LifeEvent>, e: LifeEvent)
    ensures ClosedOnce(trace + [e]) ==
            if e == Close && Close in ClosedOnce(trace) then ClosedOnce(trace) else ClosedOnce(trace) + [e]
  {
    assert (trace + [e])[..|trace|] == trace;
  }

  lemma {:induction false} ClosedOnceKeeps(trace: seq<LifeEvent>, e: LifeEvent)
    ensures e in ClosedOnce(trace) <==> e in trace
  {
    if trace != [] {
      var before, last := trace[..|trace| - 1], trace[|trace| - 1];
      ClosedOnceKeeps(before, e);
      ClosedOnceKeeps(before, Close);
      assert trace == before + [last];
    }
  }

  ghost predicate RecordOk(trace: seq<LifeEvent>) {
    IsLifecyclePrefix(ClosedOnce(trace))
  }

  /** A prefix of the life cycle is known by the last event in it. */
  lemma PrefixOf(trace: seq<LifeEvent>, p: nat)
    requires IsLifecyclePrefix(trace) && 0 < p < 5 && LIFECYCLE[p - 1] in trace && LIFECYCLE[p] !in trace
    ensures trace == LIFECYCLE[..p]
  {
    assert forall i, j | 0 <= i < j < 5 :: LIFECYCLE[i] != LIFECYCLE[j];
  }

  /** The next event of the life cycle, or a close after the first one, keeps the record in order. */
  lemma NextEvent(trace: seq<LifeEvent>, p: nat)
    requires RecordOk(trace) && 0 < p < 5 && LIFECYCLE[p - 1] in trace && LIFECYCLE[p] !in trace
    ensures RecordOk(trace + [LIFECYCLE[p]])
  {
    ClosedOnceKeeps(trace, LIFECYCLE[p - 1]);
    ClosedOnceKeeps(trace, LIFECYCLE[p]);
    ClosedOnceKeeps(trace, Close);
    ClosedOnceAppend(trace, LIFECYCLE[p]);
    PrefixOf(ClosedOnce(trace), p);
    assert LIFECYCLE[..p] + [LIFECYCLE[p]] == LIFECYCLE[..p + 1];
  }

  lemma CloseAgain(trace: seq<LifeEvent>)
    requires RecordOk(trace) && Close in trace
    ensures RecordOk(trace + [Close])
  {
    ClosedOnceKeeps(trace, Close);
    ClosedOnceAppend(trace, Close);
  }

  // --- what one step adds ---

  /** The events that are due next, given where a connection stands. */
  ghost predicate Due(k: Conn, mapped: bool, e: LifeEvent) {
    match e
    case Create => false
    case Establish => k.trace == [Create]
    case Close => Establish in k.trace && (Close in k.trace || k.trace == [Create, Establish])
    case Erase => mapped && Close in k.trace && Erase !in k.trace
    case Destroy => Erase in k.trace && Destroy !in k.trace
  }

  lemma DueKeeps(k: Conn, mapped: bool, e: LifeEvent)
    requires RecordOk(k.trace) && Due(k, mapped, e)
    ensures RecordOk(k.trace + [e])
  {
    match e
    case Establish => NextEvent(k.trace, 1);
    case Close =>
      if Close in k.trace {
        CloseAgain(k.trace);
      } else {
        NextEvent(k.trace, 2);
      }
    case Erase => NextEvent(k.trace, 3);
    case Destroy => NextEvent(k.trace, 4);
  }

  lemma ConnRecord(s: System, c: nat)
    requires Inv(s) && c < |s.conns|
    ensures var k, f := s.conns[c], FactsOf(s, c);
            && (k.state.Connecting? ==> k.trace == [Create])
            && (k.registered ==> Establish in k.trace && (Close in k.trace || k.trace == [Create, Establish]))
            && (Erase in k.trace <==> !f.mapped) && (Destroy in k.trace <==> k.state.Disconnected?)
            && (!f.mapped || 0 < f.removing ==> Close in k.trace)
  {
    var f := FactsOf(s, c);
    assert ConnOk(f);
    assert LIFECYCLE[..1] == [Create] && LIFECYCLE[..2] == [Create, Establish];
  }

  /** What a functor does to its connection is due when it is run. */
  lemma QueuedDue(s: System, l: nat)
    requires Inv(s) && CanRun(s, l)
    ensures var f := s.loops[l].todo[0];
            var k, mapped := s.conns[f.conn], s.conns[f.conn].name in s.connections;
            && (f.ConnectEstablished? ==> Due(k, mapped, Establish))
            && (f.RemoveConnectionInLoop? && mapped ==> Due(k, mapped, Erase))
            && (f.ConnectDestroyed? ==> Due(k, mapped, Destroy))
  {
    var c := s.loops[l].todo[0].conn;
    RunTarget(s, l);
    TakenFacts(s, l, c);
    ConnRecord(s, c);
    assert ConnOk(FactsOf(s, c));
  }

  lemma RunRecord(s: System, l: nat, shut: bool)
    requires Inv(s) && CanRun(s, l) && RecordOk(s.conns[s.loops[l].todo[0].conn].trace)
    ensures RecordOk(DoRun(s, l, shut).conns[s.loops[l].todo[0].conn].trace)
  {
    var f := s.loops[l].todo[0];
    var k, mapped := s.conns[f.conn], s.conns[f.conn].name in s.connections;
    QueuedDue(s, l);
    match f
    case ConnectEstablished(_) => DueKeeps(k, mapped, Establish);
    case RemoveConnectionInLoop(_) =>
      if mapped {
        DueKeeps(k, mapped, Erase);
      }
    case ConnectDestroyed(_) => DueKeeps(k, mapped, Destroy);
    case WriteComplete(_) =>
  }

  /** A close, and on the base loop the erase at once. */
  lemma ClosedRecord(s: System, l: nat, c: nat)
    requires c < |s.conns| && 0 < |s.loops| && RecordOk(s.conns[c].trace)
    requires Due(s.conns[c], s.conns[c].name in s.connections, Close)
    requires Erase in s.conns[c].trace <==> s.conns[c].name !in s.connections
    ensures RecordOk(Closed(s, l, c).conns[c].trace)
  {
    var k, mapped := s.conns[c], s.conns[c].name in s.connections;
    DueKeeps(k, mapped, Close);
    if mapped {
      DueKeeps(k.(trace := k.trace + [Close]), mapped, Erase);
    }
  }

  lemma TestRecord(s: System, l: nat, read: int, flag: bool)
    requires Inv(s) && CanTest(s, l) && RecordOk(s.conns[s.loops[l].activity.conn].trace)
    ensures RecordOk(DoTest(s, l, read, flag).conns[s.loops[l].activity.conn].trace)
  {
    var c := s.loops[l].activity.conn;
    HandledConn(s, l);
    ConnRecord(s, c);
    ClosedRecord(Advanced(s, l), l, c);
  }

  ghost predicate RecordsOk(s: System) {
    forall c: nat | c < |s.conns| :: RecordOk(s.conns[c].trace)
  }

  lemma NewRecord(trace: seq<LifeEvent>)
    requires trace in {[Create], [Create, Establish]}
    ensures RecordOk(trace)
  {
    ClosedOnceAppend([], Create);
    ClosedOnceAppend([Create], Establish);
    assert [] + [Create] == [Create] == LIFECYCLE[..1];
    assert [Create] + [Establish] == [Create, Establish] == LIFECYCLE[..2];
  }

  /** Every step, even one that fails, keeps every record in order. */
  lemma StepRecords(s: System, e: Event)
    requires Inv(s) && RecordsOk(s) && Enabled(s, e)
    ensures RecordsOk(Next(s, e))
  {
    var t := Next(s, e);
    StepConns(s, e);
    forall c: nat | c < |t.conns| ensures RecordOk(t.conns[c].trace) {
      if c >= |s.conns| {
        NewRecord(t.conns[c].trace);
      } else if e.Test? && s.loops[e.loop].activity.conn == c {
        TestRecord(s, e.loop, e.read, e.flag);
      } else if e.Run? && s.loops[e.loop].todo[0].conn == c {
        RunRecord(s, e.loop, e.shut);
      }
    }
  }

  lemma {:induction false} RunRecords(s: System, es: seq<Event>)
    requires Inv(s) && RecordsOk(s) && IsRun(s, es)
    ensures RecordsOk(After(s, es))
    decreases |es|
  {
    if es != [] {
      var t := Next(s, es[0]);
      StepRecords(s, es[0]);
      if t.failure.Some? {
        StuckAfterFailure(t, es[1..]);
      } else {
        StepSafe(s, es[0]);
        RunRecords(t, es[1..]);
      }
    }
  }

  /** In every reachable state, aborted or not, a connection goes through create, establish, close, erase, destroy
      in that order; a second close of the same pass is the only thing that may come in between. */
  lemma EventsInOrder(s: System, c: nat)
    requires Reachable(s) && c < |s.conns|
    ensures IsLifecyclePrefix(ClosedOnce(s.conns[c].trace))
    ensures forall e: LifeEvent :: e in s.conns[c].trace <==> e in ClosedOnce(s.conns[c].trace)
  {
    var name, threads: nat, es :| IsRun(Init(name, threads), es) && After(Init(name, threads), es) == s;
    InitGood(name, threads);
    RunRecords(Init(name, threads), es);
    forall e: LifeEvent { ClosedOnceKeeps(s.conns[c].trace, e); }
  }
}
