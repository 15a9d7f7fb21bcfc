/** Conservation of connections, and a measure of the work that is left. */
module Accounting {
  import opened Options
  import opened Channels
  import opened Protocol
  import opened Invariant
  import opened DispatchSteps
  import opened Safety

  // --- conservation ---

  ghost function Ids(n: nat): (ids: set<nat>)
    ensures |ids| == n && forall c: nat :: c in ids <==> c < n
  {
    if n == 0 then {} else Ids(n - 1) + {n - 1}
  }

  /** Erased, but `connectDestroyed` has not run. */
  ghost function Awaiting(s: System): set<nat> {
    set c: nat | c in Ids(|s.conns|) && s.conns[c].name !in s.connections && !s.conns[c].state.Disconnected?
  }

  ghost function Gone(s: System): set<nat> {
    set c: nat | c in Ids(|s.conns|) && s.conns[c].state.Disconnected?
  }

  ghost function Mapped(s: System): set<nat> {
    set c: nat | c in Ids(|s.conns|) && s.conns[c].name in s.connections
  }

  ghost function NamesOf(s: System, ids: set<nat>): set<string>
    requires forall c | c in ids :: c < |s.conns|
  {
    set c | c in ids :: s.conns[c].name
  }

  function Image(f: nat -> string, ids: set<nat>): set<string> {
    set c | c in ids :: f(c)
  }

  /** A one-to-one function keeps the size of a set. */
  lemma {:induction false} ImageSize(f: nat -> string, ids: set<nat>)
    requires forall c, d | c in ids && d in ids && f(c) == f(d) :: c == d
    ensures |Image(f, ids)| == |ids|
  {
    if ids != {} {
      var c :| c in ids;
      ImageSize(f, ids - {c});
      assert Image(f, ids) == Image(f, ids - {c}) + {f(c)};
    }
  }

  lemma NamesOfSize(s: System, ids: set<nat>)
    requires DistinctNames(s) && forall c | c in ids :: c < |s.conns|
    ensures |NamesOf(s, ids)| == |ids|
  {
    var name := (c: nat) => if c < |s.conns| then s.conns[c].name else "";
    forall c, d | c in ids && d in ids && name(c) == name(d) ensures c == d {
      assert c < |s.conns| && d < |s.conns|;
    }
    ImageSize(name, ids);
    assert NamesOf(s, ids) == Image(name, ids) by {
      assert forall c | c in ids :: name(c) == s.conns[c].name;
    }
  }

  lemma KeysAreNames(s: System)
    requires Shape(s)
    ensures s.connections.Keys == NamesOf(s, Mapped(s))
  {
    forall n | n in s.connections ensures n in NamesOf(s, Mapped(s)) {
      assert s.connections[n] in Mapped(s);
    }
  }

  lemma MapSize(s: System)
    requires Inv(s)
    ensures |s.connections| == |Mapped(s)|
  {
    KeysAreNames(s);
    NamesOfSize(s, Mapped(s));
  }

  /** Where one connection is counted. */
  lemma Partition(s: System, c: nat)
    requires Shape(s) && c < |s.conns| && ConnOk(FactsOf(s, c))
    ensures s.conns[c].state.Disconnected? ==> s.conns[c].name !in s.connections
    ensures s.conns[c].name !in s.connections && !s.conns[c].state.Disconnected? ==>
              Backlog(s.loops[s.conns[c].loop])[ConnectDestroyed(c)] + B(s.erasing == Some(c)) == 1
  {}

  lemma ThreeParts(s: System)
    requires forall c: nat | c < |s.conns| && s.conns[c].state.Disconnected? :: s.conns[c].name !in s.connections
    ensures |Mapped(s)| + |Awaiting(s)| + |Gone(s)| == |s.conns|
  {
    assert Ids(|s.conns|) == Mapped(s) + Awaiting(s) + Gone(s);
  }

  /** No connection is lost or counted twice: the ids handed out are the map entries, the erased connections
      that still await their destruction, and the destroyed ones. */
  lemma Conservation(s: System)
    requires Inv(s)
    ensures s.nextConnId - 1 == |s.connections| + |Awaiting(s)| + |Gone(s)|
  {
    MapSize(s);
    forall c: nat | c < |s.conns| { Partition(s, c); }
    ThreeParts(s);
  }

  /** An erased connection awaits destruction through exactly one queued functor, or through the removal that
      is between its two halves. */
  lemma AwaitingIsInFlight(s: System, c: nat)
    requires Inv(s)
    ensures c in Awaiting(s) <==>
            c < |s.conns| && Backlog(s.loops[s.conns[c].loop])[ConnectDestroyed(c)] + B(s.erasing == Some(c)) == 1
    ensures c < |s.conns| && c !in Awaiting(s) ==>
            Backlog(s.loops[s.conns[c].loop])[ConnectDestroyed(c)] + B(s.erasing == Some(c)) == 0
  {
    if c < |s.conns| {
      assert ConnOk(FactsOf(s, c));
    }
  }

  // --- draining ---

  function FunctorWeight(f: Functor): nat {
    if f.RemoveConnectionInLoop? then 7 else 1
  }

  function QueueWeight(q: seq<Functor>): nat {
    if q == [] then 0 else QueueWeight(q[..|q| - 1]) + FunctorWeight(q[|q| - 1])
  }

  function SourceWeight(active: seq<Source>): nat {
    if active == [] then 0 else (if active[0].AcceptSource? then 6 else 50) + SourceWeight(active[1..])
  }

  function ActivityWeight(a: Activity): nat {
    match a
    case Polling => 2
    case Dispatching(active) => 5 + SourceWeight(active)
    case Handling(_, _, stage, active) => 6 + 12 * (4 - Rank(stage)) + SourceWeight(active)
    case Calling => 4
  }

  /** A loop that will have to come round once more because work is waiting for it. */
  function RoundWeight(loop: Loop): nat {
    if loop.pending != [] && (loop.activity.Polling? || loop.activity.Calling?) then 4 else 0
  }

  function LoopWeight(loop: Loop): nat {
    QueueWeight(loop.pending) + QueueWeight(loop.todo) + ActivityWeight(loop.activity) + RoundWeight(loop)
  }

  function LoopsWeight(loops: seq<Loop>): nat {
    if loops == [] then 0 else LoopWeight(loops[0]) + LoopsWeight(loops[1..])
  }

  /** A queued removal weighs more than the destruction it will post, a pending callback more than the removal
      it may post. */
  function Measure(s: System): nat {
    LoopsWeight(s.loops) + if s.erasing.Some? then 6 else 0
  }

  lemma {:induction false} LoopsUpdate(loops: seq<Loop>, l: nat, loop: Loop)
    requires l < |loops|
    ensures LoopsWeight(loops[l := loop]) + LoopWeight(loops[l]) == LoopsWeight(loops) + LoopWeight(loop)
  {
    var u := loops[l := loop];
    if l == 0 {
      assert u[1..] == loops[1..];
    } else {
      assert u[1..] == loops[1..][l - 1 := loop];
      LoopsUpdate(loops[1..], l - 1, loop);
    }
  }

  lemma QueueAppend(q: seq<Functor>, f: Functor)
    ensures QueueWeight(q + [f]) == QueueWeight(q) + FunctorWeight(f)
  {
    assert (q + [f])[..|q|] == q;
  }

  lemma {:induction false} QueueHead(q: seq<Functor>)
    requires q != []
    ensures QueueWeight(q) == FunctorWeight(q[0]) + QueueWeight(q[1..])
  {
    if |q| > 1 {
      QueueHead(q[..|q| - 1]);
      assert q[..|q| - 1][1..] == q[1..][..|q| - 2];
    } else {
      assert q[..0] == [] && q[1..] == [];
    }
  }

  /** Posting costs at most the functor and one more round of the target. */
  lemma PostWeight(s: System, m: nat, f: Functor)
    requires m < |s.loops|
    ensures Measure(Post(s, m, f)) <= Measure(s) + FunctorWeight(f) + 4
    ensures !s.loops[m].activity.Polling? && !s.loops[m].activity.Calling? ==>
              Measure(Post(s, m, f)) == Measure(s) + FunctorWeight(f)
  {
    var p := s.loops[m];
    LoopsUpdate(s.loops, m, p.(pending := p.pending + [f]));
    QueueAppend(p.pending, f);
  }

  lemma ActivityChange(s: System, l: nat, a: Activity)
    requires l < |s.loops|
    ensures Measure(SetActivity(s, l, a)) + ActivityWeight(s.loops[l].activity) + RoundWeight(s.loops[l]) ==
            Measure(s) + ActivityWeight(a) + RoundWeight(s.loops[l].(activity := a))
  {
    LoopsUpdate(s.loops, l, s.loops[l].(activity := a));
  }

  /** The cost of what arrives from outside: a poll that returns ready channels, or returns although nothing is
      queued, and the user's own calls. A poll that only wakes a loop up for its queue is free. */
  function Charge(s: System, e: Event): nat {
    if e.Use? then 6
    else if !e.Poll? || (e.ready == [] && e.loop < |s.loops| && s.loops[e.loop].pending != []) then 0
    else 4 + SourceWeight(e.ready)
  }

  lemma AdvancedWeight(s: System, l: nat)
    requires CanTest(s, l)
    ensures Measure(Advanced(s, l)) + 12 == Measure(s)
  {
    ActivityChange(s, l, s.loops[l].activity.(stage := s.loops[l].activity.stage.Next()));
  }

  lemma ClosedWeight(s: System, l: nat, c: nat)
    requires c < |s.conns| && 0 < |s.loops| && l < |s.loops| && Closed(s, l, c).failure.None?
    ensures Measure(Closed(s, l, c)) <= Measure(s) + 11
  {
    var s1 := SetConn(s, c, Marked(s.conns[c]));
    if l == 0 {
      assert Closed(s, l, c).loops == s.loops;
    } else {
      assert Closed(s, l, c) == Post(s1, 0, RemoveConnectionInLoop(c));
      PostWeight(s1, 0, RemoveConnectionInLoop(c));
    }
  }

  lemma TestWeight(s: System, l: nat, read: int, flag: bool)
    requires CanTest(s, l) && DoTest(s, l, read, flag).failure.None?
    ensures Measure(DoTest(s, l, read, flag)) < Measure(s)
  {
    var h, s1 := s.loops[l].activity, Advanced(s, l);
    AdvancedWeight(s, l);
    if Fires(h.revents, h.stage) {
      if ClosingTest(h.revents, h.stage, read) {
        ClosedWeight(s1, l, h.conn);
      } else {
        PostWeight(s1, l, WriteComplete(h.conn));
      }
    }
  }

  lemma TakenWeight(s: System, l: nat)
    requires l < |s.loops| && s.loops[l].todo != []
    ensures Measure(Taken(s, l)) + FunctorWeight(s.loops[l].todo[0]) == Measure(s)
  {
    var p := s.loops[l];
    LoopsUpdate(s.loops, l, p.(todo := p.todo[1..], done := p.done + [p.todo[0]]));
    QueueHead(p.todo);
  }

  /** Running a functor posts nothing at once; a removal leaves its post to be done. */
  lemma ExecuteLoops(s: System, l: nat, f: Functor, shut: bool)
    requires f.conn < |s.conns| && 0 < |s.loops|
    ensures Execute(s, l, f, shut).loops == s.loops
    ensures Execute(s, l, f, shut).erasing.Some? ==> s.erasing.Some? || f.RemoveConnectionInLoop?
  {}

  lemma RunWeight(s: System, l: nat, shut: bool)
    requires CanRun(s, l)
    ensures Measure(DoRun(s, l, shut)) < Measure(s)
  {
    TakenWeight(s, l);
    ExecuteLoops(Taken(s, l), l, s.loops[l].todo[0], shut);
  }

  lemma AcceptWeight(s: System, fd: int, shut: bool)
    requires CanAccept(s, 0, fd) && NextLoop(s) < |s.loops|
    ensures Measure(DoAccept(s, 0, fd, shut)) < Measure(s)
  {
    var active := s.loops[0].activity.active;
    var s1 := SetActivity(s, 0, Dispatching(active[1..]));
    ActivityChange(s, 0, Dispatching(active[1..]));
    assert Measure(s1) + 6 == Measure(s);
    if fd >= 0 && NextLoop(s) != 0 {
      PostWeight(Created(s1, fd), NextLoop(s), ConnectEstablished(|s.conns|));
    }
  }

  /** Every step that is not charged makes the measure smaller, whatever the loops and their order. */
  lemma StepWeight(s: System, e: Event)
    requires Enabled(s, e) && Next(s, e).failure.None?
    ensures Measure(Next(s, e)) + 1 <= Measure(s) + Charge(s, e)
  {
    match e
    case Poll(l, ready) => ActivityChange(s, l, Dispatching(ready));
    case Accept(_, fd, shut) => AcceptWeight(s, fd, shut);
    case Begin(l, revents) =>
      var active := s.loops[l].activity.active;
      ActivityChange(s, l, Handling(active[0].conn, revents, OnError, active[1..]));
    case Test(l, read, flag) => TestWeight(s, l, read, flag);
    case End(l) => ActivityChange(s, l, Dispatching(s.loops[l].activity.active));
    case Swap(l) => LoopsUpdate(s.loops, l, Loop([], s.loops[l].pending, [], Calling));
    case Run(l, shut) => RunWeight(s, l, shut);
    case Use(l, c, _) => PostWeight(s, l, WriteComplete(c));
    case PostDestroy =>
      PostWeight(s.(erasing := None), s.conns[s.erasing.value].loop, ConnectDestroyed(s.erasing.value));
    case Release(l) => LoopsUpdate(s.loops, l, s.loops[l].(done := [], activity := Polling));
  }

  /** What a run was charged in all. */
  ghost function RunCharge(s: System, es: seq<Event>): nat
    requires IsRun(s, es)
    decreases |es|
  {
    if es == [] then 0 else Charge(s, es[0]) + RunCharge(Next(s, es[0]), es[1..])
  }

  /** Work per input is bounded: a run is no longer than its starting measure and its charges allow. */
  lemma {:induction false} RunLength(s: System, es: seq<Event>)
    requires IsRun(s, es) && After(s, es).failure.None?
    ensures |es| + Measure(After(s, es)) <= Measure(s) + RunCharge(s, es)
    decreases |es|
  {
    if es != [] {
      var t := Next(s, es[0]);
      if t.failure.Some? {
        StuckAfterFailure(t, es[1..]);
      }
      StepWeight(s, es[0]);
      RunLength(t, es[1..]);
    }
  }
}
