/** One `EventLoop` and the threads that queue functors on it: the queue, the eventfd that wakes `poll`, and
    `quit`. A push and the write that follows it are two steps, so other threads come in between. */
module Wakeups {
  /** Where the loop's thread is: before `loop()`, in `poll`, in a dispatch pass (`woken` while the wake-up
      channel still has to be read), in `doPendingFunctors`, or after `loop()`. */
  datatype Phase = Idle | Waiting | Dispatching(woken: bool) | Calling | Stopped

  /** `pending` is `pendingFunctors_`, `todo` the rest of the vector being run; `counter` is the eventfd; `owed`
      counts the other threads, and `selfOwes` says whether the loop's own thread, that have not come to their
      write yet. `pushed` and `ran` are the functors queued and run so far. */
  datatype State<F> = State(phase: Phase, pending: seq<F>, todo: seq<F>, counter: nat, owed: nat, selfOwes: bool,
                            quit: bool, pushed: seq<F>, ran: seq<F>)

  datatype Event<F> =
    | Push(f: F) | Quit | Write                                       // other threads
    | OwnPush(own: F) | OwnQuit                                       // callbacks and functors on the loop's thread
    | Ready                                                           // poll returns for another reason
    | Start | Wake | Read | Swap | Run | OwnWrite | Finish            // the loop's thread

  function Init<F>(): State<F> {
    State(Idle, [], [], 0, 0, false, false, [], [])
  }

  predicate Enabled<F>(s: State<F>, e: Event<F>) {
    match e
    case Push(_) => true
    case Quit => true
    case Write => 0 < s.owed
    case OwnPush(_) => !s.selfOwes && !s.phase.Waiting?
    case OwnQuit => !s.selfOwes && !s.phase.Waiting?
    case Ready => s.phase.Waiting?
    case Start => s.phase.Idle?
    case Wake => s.phase.Waiting? && 0 < s.counter
    case Read => s.phase.Dispatching? && s.phase.woken
    case Swap => s.phase.Dispatching? && !s.phase.woken
    case Run => s.phase.Calling? && !s.selfOwes && |s.todo| > 0
    case OwnWrite => s.selfOwes
    case Finish => s.phase.Calling? && !s.selfOwes && |s.todo| == 0
  }

  function Next<F>(s: State<F>, e: Event<F>): State<F>
    requires Enabled(s, e)
  {
    match e
    case Push(f) => s.(pending := s.pending + [f], pushed := s.pushed + [f], owed := s.owed + 1)
    case Quit => s.(quit := true, owed := s.owed + 1)
    case Write => s.(owed := s.owed - 1, counter := s.counter + 1)
    case OwnPush(f) => s.(pending := s.pending + [f], pushed := s.pushed + [f], selfOwes := s.phase.Calling?)
    case OwnQuit => s.(quit := true)
    case Ready => s.(phase := Dispatching(0 < s.counter))
    case Start => s.(phase := Waiting, quit := false)
    case Wake => s.(phase := Dispatching(true))
    case Read => s.(phase := Dispatching(false), counter := 0)
    case Swap => s.(phase := Calling, todo := s.pending, pending := [])
    case Run => s.(todo := s.todo[1..], ran := s.ran + [s.todo[0]])
    case OwnWrite => s.(selfOwes := false, counter := s.counter + 1)
    case Finish => s.(phase := if s.quit then Stopped else Waiting)
  }

  predicate IsRun<F>(s: State<F>, es: seq<Event<F>>)
    decreases |es|
  {
    |es| == 0 || (Enabled(s, es[0]) && IsRun(Next(s, es[0]), es[1..]))
  }

  function After<F>(s: State<F>, es: seq<Event<F>>): State<F>
    requires IsRun(s, es)
    decreases |es|
  {
    if |es| == 0 then s else After(Next(s, es[0]), es[1..])
  }

  /** Nothing keeps other threads from queueing and quitting at any time, in `poll` or not, before `loop()` or after
      it; each of their writes comes some time after; and `poll` may return whenever the loop is in it. */
  lemma AnyTime<F>(s: State<F>, f: F)
    ensures Enabled(s, Push(f)) && Enabled(s, Quit)
    ensures Enabled(s, Write) <==> s.owed > 0
    ensures Enabled(s, Ready) <==> s.phase == Waiting
    ensures Enabled(s, Wake) <==> s.phase == Waiting && s.counter > 0
    ensures s.phase != Waiting && !s.selfOwes ==> Enabled(s, OwnPush(f)) && Enabled(s, OwnQuit)
    ensures Next(s, Push(f)).owed == s.owed + 1 && Next(s, Push(f)).counter == s.counter
    ensures Next(s, Quit).owed == s.owed + 1 && Next(s, Quit).quit
  {}

  // --- every functor runs once, in the order of the pushes ---

  ghost predicate Ordered<F>(s: State<F>) {
    && s.pushed == s.ran + s.todo + s.pending
    && (|s.todo| > 0 || s.selfOwes ==> s.phase.Calling?)
  }

  lemma StepOrdered<F>(s: State<F>, e: Event<F>)
    requires Ordered(s) && Enabled(s, e)
    ensures Ordered(Next(s, e))
  {
    var t := Next(s, e);
    if |s.todo| > 0 {
      assert s.ran + s.todo == s.ran + [s.todo[0]] + s.todo[1..];
    }
    assert e.Push? ==> t.ran + t.todo + t.pending == s.ran + s.todo + s.pending + [e.f];
    assert e.OwnPush? ==> t.ran + t.todo + t.pending == s.ran + s.todo + s.pending + [e.own];
  }

  /** What was pushed is what has run, then what is left of the current batch, then what is queued. */
  lemma {:induction false} RunOrdered<F>(s: State<F>, es: seq<Event<F>>)
    requires Ordered(s) && IsRun(s, es)
    ensures Ordered(After(s, es))
    decreases |es|
  {
    if |es| > 0 {
      StepOrdered(s, es[0]);
      RunOrdered(Next(s, es[0]), es[1..]);
    }
  }

  lemma FunctorsRunOnceInOrder<F>(es: seq<Event<F>>)
    requires IsRun(Init(), es)
    ensures var s := After(Init(), es); s.pushed == s.ran + s.todo + s.pending
  {
    RunOrdered(Init<F>(), es);
  }

  // --- no functor is left behind while the loop sleeps ---

  /** `poll` returns at once, or somebody is about to make it. */
  predicate WakeComes<F>(s: State<F>) {
    0 < s.counter || 0 < s.owed || s.selfOwes
  }

  /** Whatever is queued will be looked at: in a dispatch pass because the queue is taken at its end, otherwise
      because of a wake-up; the same for a request to quit. */
  ghost predicate Assured<F>(s: State<F>) {
    && (|s.pending| > 0 && !s.phase.Dispatching? ==> WakeComes(s))
    && (s.quit && s.phase.Waiting? ==> WakeComes(s))
    && (s.selfOwes ==> s.phase.Calling?)
  }

  /** The calls of `queueInLoop` that do not write: on the loop's own thread, outside `doPendingFunctors`. They
      are harmless in a dispatch pass, but not before `loop()` or after it. */
  predicate Unannounced<F>(s: State<F>, e: Event<F>) {
    e.OwnPush? && (s.phase.Idle? || s.phase.Stopped?)
  }

  lemma StepAssured<F>(s: State<F>, e: Event<F>)
    requires Assured(s) && Enabled(s, e) && !Unannounced(s, e)
    ensures Assured(Next(s, e))
  {}

  predicate AllAnnounced<F>(s: State<F>, es: seq<Event<F>>)
    requires IsRun(s, es)
    decreases |es|
  {
    |es| == 0 || (!Unannounced(s, es[0]) && AllAnnounced(Next(s, es[0]), es[1..]))
  }

  /** Two runs one after the other. */
  lemma {:induction false} Append<F>(s: State<F>, es: seq<Event<F>>, more: seq<Event<F>>)
    requires IsRun(s, es) && IsRun(After(s, es), more)
    ensures IsRun(s, es + more) && After(s, es + more) == After(After(s, es), more)
    ensures AllAnnounced(s, es) && AllAnnounced(After(s, es), more) ==> AllAnnounced(s, es + more)
    decreases |es|
  {
    if |es| == 0 {
      assert es + more == more;
    } else {
      assert (es + more)[1..] == es[1..] + more;
      Append(Next(s, es[0]), es[1..], more);
    }
  }

  lemma One<F>(s: State<F>, e: Event<F>)
    requires Enabled(s, e) && !Unannounced(s, e)
    ensures IsRun(s, [e]) && AllAnnounced(s, [e]) && After(s, [e]) == Next(s, e)
  {
    assert [e][1..] == [];
  }

  lemma Two<F>(s: State<F>, e: Event<F>, e': Event<F>)
    requires Enabled(s, e) && !Unannounced(s, e) && Enabled(Next(s, e), e') && !Unannounced(Next(s, e), e')
    ensures IsRun(s, [e, e']) && AllAnnounced(s, [e, e']) && After(s, [e, e']) == Next(Next(s, e), e')
  {
    One(Next(s, e), e');
    assert [e, e'][1..] == [e'];
  }

  lemma {:induction false} RunAssured<F>(s: State<F>, es: seq<Event<F>>)
    requires Assured(s) && IsRun(s, es) && AllAnnounced(s, es)
    ensures Assured(After(s, es))
    decreases |es|
  {
    if |es| > 0 {
      StepAssured(s, es[0]);
      RunAssured(Next(s, es[0]), es[1..]);
    }
  }

  /** However the pushes, the writes and the loop interleave, the loop never sleeps on a functor. */
  lemma NoFunctorIsStranded<F>(es: seq<Event<F>>)
    requires IsRun(Init(), es) && AllAnnounced(Init(), es)
    ensures var s := After(Init(), es); s.phase.Waiting? && |s.pending| > 0 ==> 0 < s.counter || 0 < s.owed
  {
    RunAssured(Init<F>(), es);
  }

  /** A functor queued on the loop's own thread before `loop()` is not announced: the loop goes to sleep on it. */
  lemma EarlyFunctorIsStranded<F>(f: F) returns (es: seq<Event<F>>)
    ensures IsRun(Init(), es)
    ensures var s := After(Init(), es); s.phase.Waiting? && s.pending == [f] && Settled(s)
  {
    var start: seq<Event<F>> := [Start];
    es := [OwnPush(f)] + start;
    var s1 := Next(Init(), es[0]);
    assert es[1..] == start && start[1..] == [];
    assert IsRun(s1, start) && After(s1, start) == Next(s1, Start);
  }

  // --- what is queued is run, and a request to quit is met, in a bounded number of steps ---

  /** The steps that need nothing from outside. */
  predicate Internal<F>(e: Event<F>) {
    e.Write? || e.Start? || e.Wake? || e.Read? || e.Swap? || e.Run? || e.OwnWrite? || e.Finish?
  }

  /** None of them is possible. */
  predicate Settled<F>(s: State<F>) {
    && !Enabled(s, Write) && !Enabled(s, Start) && !Enabled(s, Wake) && !Enabled(s, Read) && !Enabled(s, Swap)
    && !Enabled(s, Run) && !Enabled(s, OwnWrite) && !Enabled(s, Finish)
  }

  function PhaseRank(phase: Phase): nat {
    match phase
    case Stopped => 0
    case Waiting => 0
    case Calling => 1
    case Dispatching(woken) => if woken then 3 else 2
    case Idle => 1
  }

  /** A write may cost one more round; a counter that the current round is about to read costs none. */
  function Measure<F>(s: State<F>): nat {
    6 * s.owed + (if s.selfOwes then 6 else 0) + (if 0 < s.counter && s.phase != Dispatching(true) then 5 else 0)
    + |s.todo| + |s.pending| + PhaseRank(s.phase)
  }

  lemma StepMeasure<F>(s: State<F>, e: Event<F>)
    requires Ordered(s) && Enabled(s, e) && Internal(e)
    ensures Measure(Next(s, e)) < Measure(s)
  {}

  /** Without pushes, quits and other readiness the loop comes to rest. */
  lemma {:induction false} InternalRunEnds<F>(s: State<F>, es: seq<Event<F>>)
    requires Ordered(s) && Assured(s) && IsRun(s, es) && forall e | e in es :: Internal(e)
    ensures |es| + Measure(After(s, es)) <= Measure(s)
    ensures Ordered(After(s, es)) && Assured(After(s, es)) && After(s, es).pushed == s.pushed
    ensures s.phase.Idle? || (s.quit <==> After(s, es).quit)
    decreases |es|
  {
    if |es| > 0 {
      assert es[0] in es;
      StepOrdered(s, es[0]);
      StepAssured(s, es[0]);
      StepMeasure(s, es[0]);
      InternalRunEnds(Next(s, es[0]), es[1..]);
    }
  }

  /** At rest, a loop that was not told to quit has run every functor ever pushed, in order. */
  lemma EveryFunctorRuns<F>(s: State<F>, es: seq<Event<F>>)
    requires Ordered(s) && Assured(s) && !s.phase.Stopped? && (s.phase.Idle? || !s.quit)
    requires IsRun(s, es) && (forall e | e in es :: Internal(e)) && Settled(After(s, es))
    ensures |es| <= Measure(s)
    ensures After(s, es).phase.Waiting? && After(s, es).ran == s.pushed
  {
    InternalRunEnds(s, es);
    NotStoppedWithoutQuit(s, es);
    var t := After(s, es);
    assert t.ran + t.todo + t.pending == t.ran;
  }

  lemma {:induction false} NotStoppedWithoutQuit<F>(s: State<F>, es: seq<Event<F>>)
    requires !s.phase.Stopped? && (s.phase.Idle? || !s.quit)
    requires IsRun(s, es) && forall e | e in es :: Internal(e)
    ensures !After(s, es).phase.Stopped?
    decreases |es|
  {
    if |es| > 0 {
      assert es[0] in es;
      NotStoppedWithoutQuit(Next(s, es[0]), es[1..]);
    }
  }

  // --- which functors are followed up, exactly ---

  /** Some internal step, if there is one. */
  function Choice<F>(s: State<F>): Event<F> {
    if Enabled(s, Write) then Write else if Enabled(s, Start) then Start else if Enabled(s, Wake) then Wake
    else if Enabled(s, Read) then Read else if Enabled(s, Swap) then Swap else if Enabled(s, Run) then Run
    else if Enabled(s, OwnWrite) then OwnWrite else Finish
  }

  lemma {:induction false} ToRest<F>(s: State<F>) returns (es: seq<Event<F>>)
    requires Ordered(s)
    ensures IsRun(s, es) && (forall e | e in es :: Internal(e)) && Settled(After(s, es))
    decreases Measure(s)
  {
    if Settled(s) {
      es := [];
    } else {
      var e := Choice(s);
      StepOrdered(s, e);
      StepMeasure(s, e);
      var rest := ToRest(Next(s, e));
      es := [e] + rest;
      assert es[1..] == rest;
    }
  }

  /** Left to itself the loop runs everything that has been queued, whatever the order of its steps. */
  ghost predicate FollowedUp<F(!new)>(s: State<F>) {
    forall es: seq<Event<F>> ::
      IsRun(s, es) && (forall e | e in es :: Internal(e)) && Settled(After(s, es)) ==> After(s, es).ran == s.pushed
  }

  /** The queue will be taken again: never after `loop()`, not by a loop that leaves `loop()` after this batch, and
      otherwise at the end of the current pass or when `poll` is woken. */
  predicate QueueIsTaken<F>(s: State<F>) {
    match s.phase
    case Stopped => false
    case Calling => !s.quit && WakeComes(s)
    case Dispatching(_) => true
    case _ => WakeComes(s)
  }

  lemma {:induction false} TakenRun<F>(s: State<F>, es: seq<Event<F>>)
    requires Ordered(s) && (|s.pending| > 0 ==> QueueIsTaken(s))
    requires IsRun(s, es) && forall e | e in es :: Internal(e)
    ensures var t := After(s, es); Ordered(t) && (|t.pending| > 0 ==> QueueIsTaken(t)) && t.pushed == s.pushed
    decreases |es|
  {
    if |es| > 0 {
      assert es[0] in es;
      StepOrdered(s, es[0]);
      TakenRun(Next(s, es[0]), es[1..]);
    }
  }

  lemma {:induction false} LostRun<F>(s: State<F>, es: seq<Event<F>>)
    requires Ordered(s) && |s.pending| > 0 && !QueueIsTaken(s)
    requires IsRun(s, es) && forall e | e in es :: Internal(e)
    ensures var t := After(s, es); Ordered(t) && |t.pending| > 0 && t.pushed == s.pushed
    decreases |es|
  {
    if |es| > 0 {
      assert es[0] in es;
      StepOrdered(s, es[0]);
      LostRun(Next(s, es[0]), es[1..]);
    }
  }

  /** What is queued is followed up if and only if the queue will be taken again. */
  lemma FollowedUpIff<F(!new)>(s: State<F>)
    requires Ordered(s)
    ensures FollowedUp(s) <==> (|s.pending| > 0 ==> QueueIsTaken(s))
  {
    if |s.pending| > 0 && !QueueIsTaken(s) {
      var es := ToRest(s);
      LostRun(s, es);
      assert |After(s, es).ran| < |s.pushed|;
    } else {
      forall es: seq<Event<F>> | IsRun(s, es) && (forall e | e in es :: Internal(e)) && Settled(After(s, es))
        ensures After(s, es).ran == s.pushed
      {
        TakenRun(s, es);
        var t := After(s, es);
        assert t.ran + t.todo + t.pending == t.ran;
      }
    }
  }

  /** A functor passed to `queueInLoop`, by any thread at any time, is followed up exactly in these cases: before
      `loop()` if the call writes or some other wake-up is on its way, in `poll` and in a dispatch pass always, in
      `doPendingFunctors` unless `quit` was called, and after `loop()` never. */
  lemma PushIsFollowedUpIff<F(!new)>(s: State<F>, e: Event<F>)
    requires Ordered(s) && Enabled(s, e) && (e.Push? || e.OwnPush?)
    ensures FollowedUp(Next(s, e)) <==>
            match s.phase
            case Idle => e.Push? || WakeComes(s)
            case Waiting => true
            case Dispatching(_) => true
            case Calling => !s.quit
            case Stopped => false
  {
    StepOrdered(s, e);
    FollowedUpIff(Next(s, e));
  }

  // --- quitting, exactly ---

  /** The loop's thread leaves `loop()`, whatever else comes in: no run comes to rest before that. */
  ghost predicate QuitIsMet<F(!new)>(s: State<F>) {
    forall es: seq<Event<F>> :: IsRun(s, es) && Settled(After(s, es)) ==> After(s, es).phase.Stopped?
  }

  /** A request to quit that has been seen, or will be seen when `poll` is woken. */
  predicate Quitting<F>(s: State<F>) {
    s.phase.Stopped? || (s.quit && !s.phase.Idle? && (s.phase.Waiting? ==> WakeComes(s)))
  }

  lemma {:induction false} QuittingRun<F>(s: State<F>, es: seq<Event<F>>)
    requires Quitting(s) && (s.selfOwes ==> s.phase.Calling?) && IsRun(s, es)
    ensures Quitting(After(s, es)) && (After(s, es).selfOwes ==> After(s, es).phase.Calling?)
    decreases |es|
  {
    if |es| > 0 {
      QuittingRun(Next(s, es[0]), es[1..]);
    }
  }

  /** A `quit` from another thread ends the loop, whatever is queued or becomes ready meanwhile, exactly when
      `loop()` has already begun: `loop()` resets the flag, so an earlier request is forgotten, and a thread that
      then joins the loop's thread waits for ever. */
  lemma QuitIsMetIff<F(!new)>(s: State<F>)
    requires Ordered(s)
    ensures QuitIsMet(Next(s, Quit)) <==> !s.phase.Idle?
  {
    var t := Next(s, Quit);
    StepOrdered(s, Quit);
    if s.phase.Idle? {
      var es := ToRest(t);
      NotStoppedWithoutQuit(t, es);
      assert !QuitIsMet(t);
    } else {
      forall es: seq<Event<F>> | IsRun(t, es) && Settled(After(t, es)) ensures After(t, es).phase.Stopped? {
        QuittingRun(t, es);
      }
    }
  }

  // --- losing a functor ---

  /** A functor that another thread queues after the loop has been left is dropped, although its push was
      announced. */
  lemma LateFunctorIsDropped<F>(f: F) returns (es: seq<Event<F>>)
    ensures IsRun(Init(), es) && AllAnnounced(Init(), es)
    ensures var s := After(Init(), es); s.phase.Stopped? && Settled(s) && s.pending == [f] && s.ran == []
  {
    es := [];
    var todo: seq<Event<F>> := [Start, Ready, OwnQuit, Swap, Finish, Push(f), Write];
    for i := 0 to |todo|
      invariant IsRun(Init(), es) && AllAnnounced(Init(), es)
      invariant i <= 7 && After(Init(), es) == Stages(f)[i]
    {
      var next := [todo[i]];
      One(Stages(f)[i], todo[i]);
      Append(Init(), es, next);
      es := es + next;
    }
  }

  function Stages<F>(f: F): (stages: seq<State<F>>)
    ensures |stages| == 8
  {
    var s := Init<F>();
    [s, s.(phase := Waiting), s.(phase := Dispatching(false)), s.(phase := Dispatching(false), quit := true),
     s.(phase := Calling, quit := true), s.(phase := Stopped, quit := true),
     s.(phase := Stopped, quit := true, pending := [f], pushed := [f], owed := 1),
     s.(phase := Stopped, quit := true, pending := [f], pushed := [f], counter := 1)]
  }
}
