/** The two step systems joined: every step of a run of `Protocol` is, for each loop, a fixed block of steps of
    `Wakeups`, in which every push is followed by its write where `queueInLoop` writes. So each loop of the protocol
    runs what is posted to it, once and in order, and is woken for it. */
module LoopRuns {
  import opened Channels
  import opened Protocol
  import opened Safety
  import W = Wakeups

  function PhaseOf(activity: Activity): W.Phase {
    match activity
    case Polling => W.Waiting
    case Dispatching(_) => W.Dispatching(false)
    case Handling(_, _, _, _) => W.Dispatching(false)
    case Calling => W.Calling
  }

  /** The loop as `Protocol` sees it, between the steps of `Wakeups` that it takes as one. */
  ghost predicate Matches(p: Loop, w: W.State<Functor>) {
    && w.phase == PhaseOf(p.activity) && w.pending == p.pending && w.todo == p.todo
    && w.owed == 0 && !w.selfOwes && !w.quit
  }

  // --- what one step posts to a loop, and what it runs there ---

  function If(b: bool, f: Functor): seq<Functor> {
    if b then [f] else []
  }

  /** The functors that event `e` posts to loop `l`, read off the event. */
  ghost function Posted(s: System, e: Event, l: nat): seq<Functor>
    requires Enabled(s, e)
  {
    match e
    case Accept(_, fd, _) => If(0 <= fd && l != 0 && l == NextLoop(s), ConnectEstablished(|s.conns|))
    case Test(m, read, flag) =>
      var h := s.loops[m].activity;
      var closes := h.stage.OnClose? || (h.stage.OnRead? && read == 0);
      if !Fires(h.revents, h.stage) then []
      else If(closes && m != 0 && l == 0, RemoveConnectionInLoop(h.conn))
           + If(h.stage.OnWrite? && flag && l == m, WriteComplete(h.conn))
    case Use(m, c, send) => If(send && l == m, WriteComplete(c))
    case PostDestroy => If(l == s.conns[s.erasing.value].loop, ConnectDestroyed(s.erasing.value))
    case _ => []
  }

  /** The functor that event `e` runs on loop `l`. */
  ghost function Ran(s: System, e: Event, l: nat): seq<Functor>
    requires Enabled(s, e)
  {
    if e.Run? && e.loop == l then [s.loops[l].todo[0]] else []
  }

  ghost function PostedBy(s: System, es: seq<Event>, l: nat): seq<Functor>
    requires IsRun(s, es)
    decreases |es|
  {
    if es == [] then [] else Posted(s, es[0], l) + PostedBy(Next(s, es[0]), es[1..], l)
  }

  ghost function RanBy(s: System, es: seq<Event>, l: nat): seq<Functor>
    requires IsRun(s, es)
    decreases |es|
  {
    if es == [] then [] else Ran(s, es[0], l) + RanBy(Next(s, es[0]), es[1..], l)
  }

  // --- the block of `Wakeups` steps that one event is for a loop ---

  /** A step of the loop's own thread that changes its place in `loop()` or its vector. */
  ghost predicate Moves(e: Event, l: nat) {
    (e.Poll? || e.Swap? || e.Run? || e.Release?) && e.loop == l
  }

  ghost function Block(s: System, e: Event, l: nat, w: W.State<Functor>): seq<W.Event<Functor>>
    requires Enabled(s, e) && l < |s.loops|
  {
    if Moves(e, l) then
      match e
      case Poll(_, _) => if 0 < w.counter then [W.Wake, W.Read] else [W.Ready]
      case Swap(_) => [W.Swap]
      case Run(_, _) => [W.Run]
      case _ => [W.Finish]
    else
      PushBlock(Posted(s, e, l), ThreadOf(e) == l, s.loops[l].activity)
  }

  /** Another thread writes after its push; the loop's own thread only inside `doPendingFunctors`. */
  function PushBlock(posted: seq<Functor>, own: bool, activity: Activity): seq<W.Event<Functor>> {
    if posted == [] then []
    else if !own then [W.Push(posted[0]), W.Write]
    else if activity.Calling? then [W.OwnPush(posted[0]), W.OwnWrite]
    else [W.OwnPush(posted[0])]
  }

  /** Step by step, the blocks are possible one after the other and lead to states that match the loop. */
  ghost predicate Simulates(s: System, es: seq<Event>, l: nat, w: W.State<Functor>)
    requires IsRun(s, es)
    decreases |es|
  {
    && l < |s.loops| && Matches(s.loops[l], w)
    && (es != [] ==>
          var block := Block(s, es[0], l, w);
          W.IsRun(w, block) && Simulates(Next(s, es[0]), es[1..], l, W.After(w, block)))
  }

  /** All blocks of a run. */
  ghost function Trace(s: System, es: seq<Event>, l: nat, w: W.State<Functor>): seq<W.Event<Functor>>
    requires IsRun(s, es) && Simulates(s, es, l, w)
    decreases |es|
  {
    if es == [] then []
    else
      var block := Block(s, es[0], l, w);
      block + Trace(Next(s, es[0]), es[1..], l, W.After(w, block))
  }

  // --- what one step does to one loop ---

  ghost predicate Pushed(p: Loop, q: Loop, fs: seq<Functor>) {
    q.pending == p.pending + fs && q.todo == p.todo && PhaseOf(q.activity) == PhaseOf(p.activity)
  }

  /** A removal between its two halves is inside a callback or a functor of the base loop. */
  ghost predicate ErasingBusy(s: System) {
    s.erasing.Some? && 0 < |s.loops| ==> !s.loops[0].activity.Polling?
  }

  lemma RunOnLoop(s: System, l: nat, shut: bool)
    requires CanRun(s, l)
    ensures DoRun(s, l, shut).loops == Taken(s, l).loops
    ensures DoRun(s, l, shut).erasing == s.erasing || l == 0
  {}

  lemma PostOnLoop(s: System, l: nat, f: Functor, m: nat)
    requires l < |s.loops| && m < |s.loops|
    ensures |Post(s, l, f).loops| == |s.loops| && Pushed(s.loops[m], Post(s, l, f).loops[m], If(l == m, f))
  {}

  lemma ClosedOnLoop(s: System, l: nat, c: nat, m: nat)
    requires c < |s.conns| && l < |s.loops| && m < |s.loops| && Closed(s, l, c).failure.None?
    ensures var t := Closed(s, l, c);
            && |t.loops| == |s.loops| && (t.erasing == s.erasing || l == 0)
            && Pushed(s.loops[m], t.loops[m], If(l != 0 && m == 0, RemoveConnectionInLoop(c)))
  {
    PostOnLoop(SetConn(s, c, s.conns[c].(watched := false, trace := s.conns[c].trace + [Close])), 0,
               RemoveConnectionInLoop(c), m);
  }

  lemma TestOnLoop(s: System, l: nat, read: int, flag: bool, m: nat)
    requires CanTest(s, l) && m < |s.loops| && DoTest(s, l, read, flag).failure.None?
    ensures var t := DoTest(s, l, read, flag);
            && |t.loops| == |s.loops| && (t.erasing == s.erasing || l == 0)
            && Pushed(s.loops[m], t.loops[m], Posted(s, Test(l, read, flag), m))
  {
    var h := s.loops[l].activity;
    var s1 := SetActivity(s, l, h.(stage := h.stage.Next()));
    if Fires(h.revents, h.stage) {
      if h.stage.OnClose? || (h.stage.OnRead? && read == 0) {
        ClosedOnLoop(s1, l, h.conn, m);
      } else if h.stage.OnWrite? {
        PostOnLoop(s1, l, WriteComplete(h.conn), m);
      }
    }
  }

  lemma AcceptOnLoop(s: System, fd: int, shut: bool, m: nat)
    requires CanAccept(s, 0, fd) && NextLoop(s) < |s.loops| && m < |s.loops|
    ensures var t := DoAccept(s, 0, fd, shut);
            && |t.loops| == |s.loops| && t.erasing == s.erasing
            && Pushed(s.loops[m], t.loops[m], Posted(s, Accept(0, fd, shut), m))
  {}

  /** Any step that is not a move of the loop appends what it posts and leaves the rest alone, and the loop's own
      thread posts only from a callback or a functor. */
  lemma OtherStep(s: System, e: Event, l: nat)
    requires Enabled(s, e) && Next(s, e).failure.None? && l < |s.loops| && !Moves(e, l) && ErasingBusy(s)
    ensures |Next(s, e).loops| == |s.loops|
    ensures Pushed(s.loops[l], Next(s, e).loops[l], Posted(s, e, l)) && |Posted(s, e, l)| <= 1
    ensures ThreadOf(e) == l && Posted(s, e, l) != [] ==> !s.loops[l].activity.Polling?
  {
    match e
    case Test(m, read, flag) => TestOnLoop(s, m, read, flag, l);
    case Run(m, shut) => RunOnLoop(s, m, shut);
    case Accept(_, fd, shut) => AcceptOnLoop(s, fd, shut, l);
    case _ =>
  }

  lemma StepErasing(s: System, e: Event)
    requires Enabled(s, e) && Next(s, e).failure.None? && ErasingBusy(s)
    ensures ErasingBusy(Next(s, e))
  {
    match e
    case Test(m, read, flag) =>
      if 0 < |s.loops| {
        TestOnLoop(s, m, read, flag, 0);
      }
    case Run(m, shut) => RunOnLoop(s, m, shut);
    case Accept(_, fd, shut) => AcceptOnLoop(s, fd, shut, 0);
    case _ =>
  }

  // --- the simulation ---

  /** What a block achieves: it is possible and announced, leads to a state that matches the loop `q`, and has
      pushed and run the given functors. */
  ghost predicate Achieves(w: W.State<Functor>, block: seq<W.Event<Functor>>, q: Loop, posted: seq<Functor>,
                           ran: seq<Functor>)
  {
    && W.IsRun(w, block) && W.AllAnnounced(w, block)
    && var v := W.After(w, block);
       && Matches(q, v) && W.Assured(v) && v.pushed == w.pushed + posted && v.ran == w.ran + ran
  }

  lemma PushRun(w: W.State<Functor>, p: Loop, q: Loop, posted: seq<Functor>, own: bool)
    requires Matches(p, w) && W.Assured(w) && Pushed(p, q, posted) && |posted| <= 1
    requires own && posted != [] ==> !p.activity.Polling?
    ensures Achieves(w, PushBlock(posted, own, p.activity), q, posted, [])
  {
    if posted != [] {
      var f := posted[0];
      assert posted == [f];
      if own && p.activity.Calling? {
        W.Two(w, W.OwnPush(f), W.OwnWrite);
      } else if own {
        W.One(w, W.OwnPush(f));
      } else {
        W.Two(w, W.Push(f), W.Write);
      }
    }
  }

  lemma MoveRun(s: System, e: Event, l: nat, w: W.State<Functor>)
    requires Enabled(s, e) && Moves(e, l) && l < |s.loops| && Matches(s.loops[l], w) && W.Assured(w)
    ensures |Next(s, e).loops| == |s.loops| && Posted(s, e, l) == []
    ensures Achieves(w, Block(s, e, l, w), Next(s, e).loops[l], [], Ran(s, e, l))
  {
    match e
    case Poll(_, _) =>
      if 0 < w.counter {
        W.Two(w, W.Wake, W.Read);
      } else {
        W.One(w, W.Ready);
      }
    case Swap(_) => W.One(w, W.Swap);
    case Run(_, shut) =>
      RunOnLoop(s, l, shut);
      W.One(w, W.Run);
    case Release(_) => W.One(w, W.Finish);
  }

  lemma StepRun(s: System, e: Event, l: nat, w: W.State<Functor>)
    requires Enabled(s, e) && Next(s, e).failure.None? && l < |s.loops| && ErasingBusy(s)
    requires Matches(s.loops[l], w) && W.Assured(w)
    ensures |Next(s, e).loops| == |s.loops|
    ensures Achieves(w, Block(s, e, l, w), Next(s, e).loops[l], Posted(s, e, l), Ran(s, e, l))
  {
    if Moves(e, l) {
      MoveRun(s, e, l, w);
    } else {
      OtherStep(s, e, l);
      PushRun(w, s.loops[l], Next(s, e).loops[l], Posted(s, e, l), ThreadOf(e) == l);
    }
  }

  lemma Compose(w: W.State<Functor>, first: seq<W.Event<Functor>>, rest: seq<W.Event<Functor>>, p: Loop, q: Loop,
                posted: seq<Functor>, more: seq<Functor>, ran: seq<Functor>, next: seq<Functor>)
    requires Achieves(w, first, p, posted, ran) && Achieves(W.After(w, first), rest, q, more, next)
    ensures Achieves(w, first + rest, q, posted + more, ran + next)
  {
    W.Append(w, first, rest);
    assert w.pushed + posted + more == w.pushed + (posted + more) && w.ran + ran + next == w.ran + (ran + next);
  }

  lemma {:induction false} RunFrom(s: System, es: seq<Event>, l: nat, w: W.State<Functor>)
    requires IsRun(s, es) && After(s, es).failure.None? && l < |s.loops| && ErasingBusy(s)
    requires Matches(s.loops[l], w) && W.Assured(w)
    ensures |After(s, es).loops| == |s.loops| && Simulates(s, es, l, w)
    ensures Achieves(w, Trace(s, es, l, w), After(s, es).loops[l], PostedBy(s, es, l), RanBy(s, es, l))
    decreases |es|
  {
    if es != [] {
      var t, block := Next(s, es[0]), Block(s, es[0], l, w);
      if t.failure.Some? {
        StuckAfterFailure(t, es[1..]);
      }
      StepErasing(s, es[0]);
      StepRun(s, es[0], l, w);
      var v := W.After(w, block);
      RunFrom(t, es[1..], l, v);
      Compose(w, block, Trace(t, es[1..], l, v), t.loops[l], After(t, es[1..]).loops[l], Posted(s, es[0], l),
              PostedBy(t, es[1..], l), Ran(s, es[0], l), RanBy(t, es[1..], l));
    }
  }

  /** A loop as its constructor leaves it, once `loop()` has been entered. */
  function Entered(): W.State<Functor> {
    W.Next(W.Init(), W.Start)
  }

  /** Each loop's part of a run of `Protocol`, block by block, is a run of `Wakeups`: no push in it goes unannounced,
      it pushes and runs exactly what the run posts to the loop and runs there, and a loop that waits in `poll` with
      functors queued is woken. */
  lemma EveryLoopRuns(name: string, threads: nat, es: seq<Event>, l: nat)
    requires IsRun(Init(name, threads), es) && After(Init(name, threads), es).failure.None? && l <= threads
    ensures |After(Init(name, threads), es).loops| == threads + 1 && Simulates(Init(name, threads), es, l, Entered())
    ensures var s := Init(name, threads);
            var p, trace := After(s, es).loops[l], Trace(s, es, l, Entered());
            && Achieves(Entered(), trace, p, PostedBy(s, es, l), RanBy(s, es, l))
            && (p.activity.Polling? && p.pending != [] ==> W.Enabled(W.After(Entered(), trace), W.Wake))
  {
    RunFrom(Init(name, threads), es, l, Entered());
  }

  /** In every run of `Protocol` each loop runs what is posted to it, by whatever thread, once and in order: what was
      posted is what has run, then the rest of the current vector, then the queue. */
  lemma PostsRunOnceInOrder(name: string, threads: nat, es: seq<Event>, l: nat)
    requires IsRun(Init(name, threads), es) && After(Init(name, threads), es).failure.None? && l <= threads
    ensures |After(Init(name, threads), es).loops| == threads + 1
    ensures var s := Init(name, threads);
            var p := After(s, es).loops[l];
            PostedBy(s, es, l) == RanBy(s, es, l) + p.todo + p.pending
  {
    var s := Init(name, threads);
    EveryLoopRuns(name, threads, es, l);
    var trace := Trace(s, es, l, Entered());
    W.RunOrdered(Entered(), trace);
    assert PostedBy(s, es, l) == W.After(Entered(), trace).pushed;
    assert RanBy(s, es, l) == W.After(Entered(), trace).ran;
  }
}
