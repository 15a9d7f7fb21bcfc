/** What happens to the work that is left when nothing new comes in: every run of it ends, and how. */
module Draining {
  import opened Options
  import opened Channels
  import opened Protocol
  import opened Invariant
  import opened AcceptSteps
  import opened Safety
  import opened Accounting

  // --- the environment ---

  /** What the outside contributes to a step: the bits that `poll` has reported, what `read` returns, what
      `accept` returns, and what the user's callbacks do. */
  datatype Answer = Answer(revents: bv16, read: int, fd: int, flag: bool)

  /** The step takes its outside part from the answer; a descriptor only if the kernel may hand it out. */
  ghost predicate Takes(s: System, e: Event, a: Answer) {
    match e
    case Accept(l, fd, shut) => shut == a.flag && fd == if CanAccept(s, l, a.fd) then a.fd else -1
    case Begin(_, revents) => revents == a.revents
    case Test(_, read, flag) => read == a.read && flag == a.flag
    case Run(_, shut) => shut == a.flag
    case _ => true
  }

  /** A step that brings in nothing new, so that it only works off what is there. */
  ghost predicate Drains(s: System, e: Event) {
    Enabled(s, e) && Charge(s, e) == 0
  }

  /** Whatever the environment answers, a state with work left has a step that works some of it off. */
  lemma NotStuck(s: System, a: Answer) returns (e: Event)
    requires Inv(s) && !Quiescent(s) && Reportable(a.revents)
    ensures Drains(s, e) && Takes(s, e, a)
    ensures e.Begin? ==> e.revents == a.revents
    ensures e.Test? ==> e.read == a.read && e.flag == a.flag
    ensures e.Accept? ==> e.shut == a.flag && (e.fd == a.fd || (e.fd == -1 && !CanAccept(s, e.loop, a.fd)))
    ensures e.Run? ==> e.shut == a.flag
  {
    if s.erasing.Some? {
      e := PostDestroy;
    } else {
      var l: nat :| l < |s.loops| && !(s.loops[l].activity.Polling? && s.loops[l].pending == []);
      assert LoopOk(s, l);
      match s.loops[l].activity {
        case Polling => e := Poll(l, []);
        case Dispatching(active) =>
          if active == [] {
            e := Swap(l);
          } else {
            assert active[0] in Active(s.loops[l].activity);
            e := if active[0].ConnSource? then Begin(l, a.revents)
                 else Accept(l, if CanAccept(s, l, a.fd) then a.fd else -1, a.flag);
          }
        case Handling(_, _, stage, _) => e := if stage.OnEnd? then End(l) else Test(l, a.read, a.flag);
        case Calling =>
          if s.loops[l].todo == [] {
            e := Release(l);
          } else {
            assert s.loops[l].todo[0] in s.loops[l].todo;
            e := Run(l, a.flag);
          }
      }
    }
  }

  /** Nothing can be worked off. */
  ghost predicate AtRest(s: System) {
    forall e: Event :: !Drains(s, e)
  }

  lemma AtRestIffQuiescent(s: System)
    requires Inv(s)
    ensures AtRest(s) <==> Quiescent(s)
  {
    if !Quiescent(s) {
      var e := NotStuck(s, Answer(POLLIN, 1, -1, false));
    }
  }

  // --- every drain ---

  lemma MeasurePositive(s: System)
    requires 0 < |s.loops|
    ensures 2 <= Measure(s)
  {
    assert LoopsWeight(s.loops) >= LoopWeight(s.loops[0]) >= 2;
  }

  /** A drain is no longer than the measure, even if its last step fails. */
  lemma {:induction false} DrainLength(s: System, es: seq<Event>)
    requires Inv(s) && IsRun(s, es) && RunCharge(s, es) == 0
    ensures |es| <= Measure(s)
    decreases |es|
  {
    if es != [] {
      var t := Next(s, es[0]);
      StepSafe(s, es[0]);
      if t.failure.Some? {
        StuckAfterFailure(t, es[1..]);
        MeasurePositive(s);
      } else {
        StepWeight(s, es[0]);
        DrainLength(t, es[1..]);
      }
    }
  }

  /** Every drain is bounded, however the threads interleave and whatever the environment answers. One that has
      come to its end has either aborted in `erase` or left nothing to do, and it has aborted if and only if some
      connection was closed twice, before it or in it. */
  lemma EveryDrainEnds(s: System, es: seq<Event>)
    requires Inv(s) && IsRun(s, es) && RunCharge(s, es) == 0
    ensures |es| <= Measure(s)
    ensures var t := After(s, es);
            t.failure.Some? || AtRest(t) ==>
              && (t.failure == Some(EraseMissing) || (Inv(t) && Quiescent(t)))
              && (t.failure.Some? <==> !AllOnce(s) || RunClosesAgain(s, es))
  {
    var t := After(s, es);
    DrainLength(s, es);
    RunSafe(s, es);
    if t.failure.None? {
      AtRestIffQuiescent(t);
      if Quiescent(t) {
        QuiescentOnce(t);
      }
    }
    if AllOnce(s) && !RunClosesAgain(s, es) {
      OnceRun(s, es);
    } else {
      TwiceRun(s, es);
    }
  }

  /** After a double close the abort cannot be avoided: no drain is longer than the measure, and as long as it has
      not aborted it has a next step, whatever the environment answers. */
  lemma AbortIsInevitable(s: System, es: seq<Event>, a: Answer) returns (e: Event)
    requires Inv(s) && !AllOnce(s) && Reportable(a.revents)
    requires IsRun(s, es) && RunCharge(s, es) == 0
    ensures |es| <= Measure(s)
    ensures After(s, es).failure.None? ==> Drains(After(s, es), e) && Takes(After(s, es), e, a)
  {
    e := PostDestroy;
    DrainLength(s, es);
    RunSafe(s, es);
    TwiceRun(s, es);
    var t := After(s, es);
    if t.failure.None? {
      if Quiescent(t) {
        QuiescentOnce(t);
      }
      e := NotStuck(t, a);
    }
  }

  // --- a drain for every environment ---

  /** The environment's answers are what the run takes. */
  ghost predicate Follows(s: System, es: seq<Event>, env: System -> Answer)
    requires IsRun(s, es)
    decreases |es|
  {
    es == [] || (Takes(s, es[0], env(s)) && Follows(Next(s, es[0]), es[1..], env))
  }

  lemma {:induction false} SomeDrain(s: System, env: System -> Answer) returns (es: seq<Event>)
    requires Inv(s) && forall t: System :: Reportable(env(t).revents)
    ensures IsRun(s, es) && RunCharge(s, es) == 0 && Follows(s, es, env)
    ensures After(s, es).failure.Some? || AtRest(After(s, es))
    decreases Measure(s)
  {
    es := [];
    if Quiescent(s) {
      AtRestIffQuiescent(s);
    } else {
      var e := NotStuck(s, env(s));
      var t, rest := Next(s, e), [];
      StepSafe(s, e);
      if t.failure.None? {
        StepWeight(s, e);
        rest := SomeDrain(t, env);
      }
      es := [e] + rest;
      assert es[1..] == rest;
    }
  }

  /** Left to any environment, every good state drains within its measure: to a state with nothing left to do, or
      to the abort, and to the abort exactly if something was closed twice before or on the way. */
  lemma Drain(s: System, env: System -> Answer) returns (es: seq<Event>)
    requires Inv(s) && forall t: System :: Reportable(env(t).revents)
    ensures IsRun(s, es) && RunCharge(s, es) == 0 && Follows(s, es, env) && |es| <= Measure(s)
    ensures After(s, es).failure == Some(EraseMissing) || (Inv(After(s, es)) && Quiescent(After(s, es)))
    ensures After(s, es).failure.Some? <==> !AllOnce(s) || RunClosesAgain(s, es)
  {
    es := SomeDrain(s, env);
    EveryDrainEnds(s, es);
  }

  // --- what a drain leaves ---

  /** With nothing left to do, a destroyed connection has no reference left: it dies, and its descriptor can be used
      again. */
  lemma DestroyedAreFreed(s: System, c: nat)
    requires Inv(s) && Quiescent(s) && c < |s.conns|
    ensures Held(s, c) <==> s.conns[c].state != Disconnected
  {
    if s.conns[c].state == Disconnected {
      QuiescentConn(s, c);
      forall l: nat, f: Functor | l < |s.loops| ensures f !in References(s.loops[l]) {
        assert LoopOk(s, l);
      }
    } else {
      UndestroyedIsHeld(s, c);
    }
  }

  lemma QuiescentConn(s: System, c: nat)
    requires Inv(s) && Quiescent(s) && c < |s.conns|
    ensures var k, mapped := s.conns[c], s.conns[c].name in s.connections;
            && (k.state.Disconnected? <==> Closes(k) == 1)
            && (mapped <==> Closes(k) == 0) && (mapped <==> !k.state.Disconnected?)
  {
    assert ConnOk(FactsOf(s, c));
    assert LoopOk(s, 0) && LoopOk(s, s.conns[c].loop);
  }

  lemma QuiescentCounted(s: System, c: nat)
    requires Inv(s) && Quiescent(s) && c < |s.conns|
    ensures (c in Gone(s) <==> Closes(s.conns[c]) == 1) && (c in Mapped(s) <==> Closes(s.conns[c]) == 0)
  {
    QuiescentConn(s, c);
  }

  /** With nothing left to do, the closed connections are the destroyed ones, the others are in the map. */
  lemma QuiescentAccounts(s: System)
    requires Inv(s) && Quiescent(s)
    ensures Awaiting(s) == {}
    ensures forall c: nat | c < |s.conns| ::
              (c in Gone(s) <==> Closes(s.conns[c]) == 1) && (c in Mapped(s) <==> Closes(s.conns[c]) == 0)
  {
    if Awaiting(s) != {} {
      var c: nat :| c in Awaiting(s);
      QuiescentConn(s, c);
    }
    forall c: nat | c < |s.conns| { QuiescentCounted(s, c); }
  }

  /** However the pending work is ordered across the loops, a drain that comes to rest was no longer than the
      measure allows, and has erased and destroyed every connection that was closed, and nothing else. */
  lemma DrainedRun(s: System, es: seq<Event>)
    requires Inv(s) && IsRun(s, es) && RunCharge(s, es) == 0
    requires AtRest(After(s, es)) && After(s, es).failure.None?
    ensures |es| <= Measure(s)
    ensures var t := After(s, es);
            && Awaiting(t) == {}
            && forall c: nat | c < |t.conns| ::
                 (c in Gone(t) <==> Closes(t.conns[c]) == 1) && (c in Mapped(t) <==> Closes(t.conns[c]) == 0)
  {
    EveryDrainEnds(s, es);
    QuiescentAccounts(After(s, es));
  }
}
