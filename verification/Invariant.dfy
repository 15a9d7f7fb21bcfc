/** The invariant of the lifecycle protocol, and its preservation by every step. */
module Invariant {
  import opened Names
  import opened Options
  import opened Channels
  import opened Protocol

  /** A dispatch pass in progress, as one connection sees it. */
  datatype Pass = NoPass | InPass(revents: bv16, stage: Stage)

  /** Everything the protocol remembers about one connection. */
  datatype Facts = Facts(conn: Conn, mapped: bool, erasing: bool, establishing: nat, removing: nat,
                         destroying: nat, active: nat, pass: Pass)

  /** The functors a loop has not run yet. */
  ghost function Backlog(loop: Loop): multiset<Functor> {
    multiset(loop.todo) + multiset(loop.pending)
  }

  ghost function PassOf(activity: Activity, c: nat): Pass {
    if activity.Handling? && activity.conn == c then InPass(activity.revents, activity.stage) else NoPass
  }

  ghost function FactsOf(s: System, c: nat): Facts
    requires c < |s.conns| && s.conns[c].loop < |s.loops|
  {
    var loop := s.loops[s.conns[c].loop];
    Facts(s.conns[c], s.conns[c].name in s.connections, s.erasing == Some(c),
          Backlog(loop)[ConnectEstablished(c)], Backlog(s.loops[0])[RemoveConnectionInLoop(c)],
          Backlog(loop)[ConnectDestroyed(c)],
          multiset(Active(loop.activity))[ConnSource(c)], PassOf(loop.activity, c))
  }

  ghost function Count(trace: seq<LifeEvent>, e: LifeEvent): nat {
    multiset(trace)[e]
  }

  /** How often `handleClose` has run. */
  ghost function Closes(k: Conn): nat {
    Count(k.trace, Close)
  }

  /** How often the pass may have closed the connection before the given stage. */
  ghost predicate PassOk(revents: bv16, stage: Stage, closes: nat) {
    match stage
    case OnError => closes == 0
    case OnClose => closes == 0
    case OnRead => closes == B(Fires(revents, OnClose))
    case _ => closes <= B(Fires(revents, OnClose)) + B(Fires(revents, OnRead))
  }

  /** The stage of the life cycle that the other facts amount to. */
  ghost function Progress(f: Facts): nat {
    if f.conn.state.Connecting? then 1
    else if f.conn.state.Disconnected? then 5
    else if Closes(f.conn) == 0 then 2
    else if f.mapped then 3
    else 4
  }

  ghost predicate ConnOk(f: Facts) {
    var k, closes := f.conn, Closes(f.conn);
    && f.establishing == B(k.state.Connecting?)
    && (k.registered <==> k.state.Connected? || k.state.Disconnecting?)
    && (k.watched <==> k.registered && closes == 0)
    && f.destroying + B(f.erasing) + B(k.state.Disconnected?) == B(!f.mapped)
    && closes == f.removing + B(!f.mapped)
    && (k.state.Connecting? ==> closes == 0)
    && closes <= 2
    && (k.handling <==> f.pass.InPass?)
    && (k.handling ==> k.registered && f.active == 0 && PassOk(f.pass.revents, f.pass.stage, closes))
    && f.active <= B(k.watched)
    && (closes <= 1 ==> k.trace == LIFECYCLE[..Progress(f)])
    && (2 <= |k.trace| ==> k.trace[..2] == [Create, Establish])
    && Count(k.trace, Create) == 1
    && Count(k.trace, Establish) == B(!k.state.Connecting?)
    && Count(k.trace, Erase) == B(!f.mapped)
    && Count(k.trace, Destroy) == B(k.state.Disconnected?)
  }

  /** The loop whose thread must run a functor. */
  function Target(s: System, f: Functor): nat
    requires f.conn < |s.conns|
  {
    if f.RemoveConnectionInLoop? then 0 else s.conns[f.conn].loop
  }

  ghost predicate LoopOk(s: System, l: nat)
    requires l < |s.loops|
  {
    var loop := s.loops[l];
    && (forall f | f in loop.pending || f in loop.todo :: f.conn < |s.conns| && Target(s, f) == l)
    && (forall f | f in loop.done :: f.conn < |s.conns|)
    && (!loop.activity.Calling? ==> loop.todo == [] && loop.done == [])
    && (loop.activity.Handling? ==> loop.activity.conn < |s.conns| && s.conns[loop.activity.conn].loop == l)
    && (forall src | src in Active(loop.activity) ::
          if src.AcceptSource? then l == 0 else src.conn < |s.conns| && s.conns[src.conn].loop == l)
  }

  ghost predicate Shape(s: System) {
    && 0 < |s.loops|
    && s.nextConnId == |s.conns| + 1 <= INT_MAX
    && (if |s.loops| == 1 then s.next == 0 else s.next < |s.loops| - 1)
    && (forall c: nat | c < |s.conns| :: s.conns[c].loop < |s.loops|)
    && (forall l: nat | l < |s.loops| :: LoopOk(s, l))
    && (forall n | n in s.connections :: s.connections[n] < |s.conns| && s.conns[s.connections[n]].name == n)
    && (s.erasing.Some? ==> s.erasing.value < |s.conns|)
  }

  /** No two connections ever created share a name. */
  ghost predicate DistinctNames(s: System) {
    forall c: nat, d: nat | c < d < |s.conns| :: s.conns[c].name != s.conns[d].name
  }

  /** Connections that have not been destroyed have different descriptors. */
  ghost predicate DistinctDescriptors(s: System) {
    forall c: nat, d: nat | c < d < |s.conns| :: s.conns[c].fd == s.conns[d].fd ==>
      s.conns[c].state.Disconnected? || s.conns[d].state.Disconnected?
  }

  ghost predicate Good(s: System) {
    && s.failure.None?
    && Shape(s)
    && DistinctNames(s)
    && DistinctDescriptors(s)
    && forall c: nat | c < |s.conns| :: ConnOk(FactsOf(s, c))
  }

  lemma InitGood(name: string, threads: nat)
    ensures Good(Init(name, threads))
  {}

  lemma HeadTail<T>(q: seq<T>)
    requires q != []
    ensures multiset(q) == multiset{q[0]} + multiset(q[1..])
  {
    assert q == [q[0]] + q[1..];
  }

  /** `Shape` only looks at one loop at a time. */
  lemma ShapeKept(s: System, t: System, l: nat)
    requires Shape(s) && l < |s.loops|
    requires |t.loops| == |s.loops| && |t.conns| == |s.conns|
    requires t.nextConnId == s.nextConnId && t.next == s.next
    requires forall c: nat | c < |s.conns| :: t.conns[c].loop == s.conns[c].loop && t.conns[c].name == s.conns[c].name
    requires forall m: nat | m < |s.loops| && m != l :: t.loops[m] == s.loops[m]
    requires t.connections.Keys <= s.connections.Keys
    requires forall n | n in t.connections :: t.connections[n] == s.connections[n]
    requires t.erasing.Some? ==> t.erasing.value < |t.conns|
    requires LoopOk(t, l)
    ensures Shape(t)
  {
    forall m: nat | m < |t.loops| ensures LoopOk(t, m) {
      assert LoopOk(s, m);
    }
  }

  /** Names and descriptors never change, and a destroyed connection stays destroyed. */
  lemma DistinctKept(s: System, t: System)
    requires DistinctNames(s) && DistinctDescriptors(s)
    requires |t.conns| == |s.conns|
    requires forall c: nat | c < |s.conns| ::
               && t.conns[c].name == s.conns[c].name && t.conns[c].fd == s.conns[c].fd
               && (s.conns[c].state.Disconnected? ==> t.conns[c].state.Disconnected?)
    ensures DistinctNames(t) && DistinctDescriptors(t)
  {}

  // --- what the primitive updates do to the facts of one connection ---

  lemma ActivityFacts(s: System, l: nat, a: Activity, d: nat)
    requires l < |s.loops| && d < |s.conns| && s.conns[d].loop < |s.loops|
    ensures FactsOf(SetActivity(s, l, a), d) ==
            if s.conns[d].loop == l
            then FactsOf(s, d).(active := multiset(Active(a))[ConnSource(d)], pass := PassOf(a, d))
            else FactsOf(s, d)
  {}

  lemma ConnFacts(s: System, c: nat, k: Conn, d: nat)
    requires c < |s.conns| && d < |s.conns| && s.conns[d].loop < |s.loops| && 0 < |s.loops|
    requires k.loop == s.conns[c].loop && k.name == s.conns[c].name
    ensures FactsOf(SetConn(s, c, k), d) == if d == c then FactsOf(s, c).(conn := k) else FactsOf(s, d)
  {}

  lemma PostFacts(s: System, m: nat, g: Functor, d: nat)
    requires m < |s.loops| && d < |s.conns| && s.conns[d].loop < |s.loops|
    ensures var f, t := FactsOf(s, d), FactsOf(Post(s, m, g), d);
            t == f.(establishing := t.establishing, removing := t.removing, destroying := t.destroying)
    ensures var f, t := FactsOf(s, d), FactsOf(Post(s, m, g), d);
            && t.establishing == f.establishing + B(g == ConnectEstablished(d) && m == f.conn.loop)
            && t.removing == f.removing + B(g == RemoveConnectionInLoop(d) && m == 0)
            && t.destroying == f.destroying + B(g == ConnectDestroyed(d) && m == f.conn.loop)
  {
    PostBacklog(s, m, g, s.conns[d].loop);
    PostBacklog(s, m, g, 0);
  }

  /** A post adds its functor to the target's backlog and leaves the other loops alone. */
  lemma PostBacklog(s: System, m: nat, g: Functor, l: nat)
    requires m < |s.loops| && l < |s.loops|
    ensures var before, after := s.loops[l], Post(s, m, g).loops[l];
            && (l != m ==> after == before)
            && after.activity == before.activity
            && Backlog(after) == Backlog(before) + if l == m then multiset{g} else multiset{}
  {}

  lemma TakenBacklog(s: System, l: nat)
    requires l < |s.loops| && s.loops[l].todo != []
    ensures Backlog(s.loops[l]) == multiset{s.loops[l].todo[0]} + Backlog(Taken(s, l).loops[l])
  {
    HeadTail(s.loops[l].todo);
  }

  lemma TakenFacts(s: System, l: nat, d: nat)
    requires l < |s.loops| && s.loops[l].todo != [] && d < |s.conns| && s.conns[d].loop < |s.loops|
    ensures var g, f := s.loops[l].todo[0], FactsOf(s, d);
            var t := FactsOf(Taken(s, l), d);
            && t == f.(establishing := t.establishing, removing := t.removing, destroying := t.destroying)
            && f.establishing == t.establishing + B(g == ConnectEstablished(d) && l == f.conn.loop)
            && f.removing == t.removing + B(g == RemoveConnectionInLoop(d) && l == 0)
            && f.destroying == t.destroying + B(g == ConnectDestroyed(d) && l == f.conn.loop)
  {
    TakenBacklog(s, l);
  }

  lemma EraseFacts(s: System, c: nat, d: nat)
    requires c < |s.conns| && d < |s.conns| && s.conns[d].loop < |s.loops| && 0 < |s.loops|
    requires DistinctNames(s) && s.erasing.None?
    ensures FactsOf(s.(connections := s.connections - {s.conns[c].name}, erasing := Some(c)), d) ==
            if d == c then FactsOf(s, d).(mapped := false, erasing := true) else FactsOf(s, d)
  {}
}
