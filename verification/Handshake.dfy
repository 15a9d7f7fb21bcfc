/** The start-up handshake of `EventLoopThread`: the creator in `startLoop` and the new thread in `threadFunc`
    meet through a mutex, a condition variable and the shared pointer `loop_`. */
module Handshake {
  import opened Options

  /** Where the creator is in `startLoop`. */
  datatype Creator<P> =
    | Fresh                    // before thread_.start()
    | Started                  // about to lock
    | Checking                 // holds the mutex, about to test loop_
    | Asleep                   // in cond_.wait()
    | Woken                    // woken up, about to lock again
    | Unlocked                 // past the lock scope, about to read loop_
    | Returned(loop: Option<P>)

  /** Where the new thread is in `threadFunc`. */
  datatype Worker =
    | NotStarted
    | Building                 // about to construct its EventLoop
    | Built                    // about to lock
    | Locked                   // about to assign loop_
    | Assigned                 // about to notify
    | Notified                 // about to unlock
    | Looping                  // in loop.loop()

  datatype Owner = Free | ByCreator | ByWorker

  /** `stack` is the loop the new thread built, `loop` the shared `loop_` (None for null), `seen` what the
      creator last read under the mutex, `writes` the number of assignments to `loop_`. */
  datatype State<P> = State(creator: Creator<P>, worker: Worker, owner: Owner,
                            stack: Option<P>, loop: Option<P>, seen: Option<P>, writes: nat)

  datatype Event<P> =
    | Start | Lock | Check | Wake | Relock | Read                    // creator; Wake is a spurious wakeup
    | Build(p: P) | WorkerLock | Assign | Notify | WorkerUnlock      // new thread

  function Init<P>(): State<P> {
    State(Fresh, NotStarted, Free, None, None, None, 0)
  }

  predicate Enabled<P>(s: State<P>, e: Event<P>) {
    match e
    case Start => s.creator.Fresh? && s.worker.NotStarted?
    case Lock => s.creator.Started? && s.owner.Free?
    case Check => s.creator.Checking?
    case Wake => s.creator.Asleep?
    case Relock => s.creator.Woken? && s.owner.Free?
    case Read => s.creator.Unlocked?
    case Build(_) => s.worker.Building?
    case WorkerLock => s.worker.Built? && s.owner.Free?
    case Assign => s.worker.Locked?
    case Notify => s.worker.Assigned?
    case WorkerUnlock => s.worker.Notified?
  }

  /** `pthread_cond_wait` releases the mutex and blocks in one step; a signal without a waiter is lost. */
  function Next<P>(s: State<P>, e: Event<P>): State<P>
    requires Enabled(s, e)
  {
    match e
    case Start => s.(creator := Started, worker := Building)
    case Lock => s.(creator := Checking, owner := ByCreator)
    case Check => s.(creator := if s.loop.None? then Asleep else Unlocked, owner := Free, seen := s.loop)
    case Wake => s.(creator := Woken)
    case Relock => s.(creator := Checking, owner := ByCreator)
    case Read => s.(creator := Returned(s.loop))
    case Build(p) => s.(worker := Built, stack := Some(p))
    case WorkerLock => s.(worker := Locked, owner := ByWorker)
    case Assign => s.(worker := Assigned, loop := s.stack, writes := s.writes + 1)
    case Notify => s.(worker := Notified, creator := if s.creator.Asleep? then Woken else s.creator)
    case WorkerUnlock => s.(worker := Looping, owner := Free)
  }

  ghost predicate Inv<P>(s: State<P>) {
    && (s.owner.ByCreator? <==> s.creator.Checking?)
    && (s.owner.ByWorker? <==> s.worker.Locked? || s.worker.Assigned? || s.worker.Notified?)
    && (s.creator.Fresh? <==> s.worker.NotStarted?)
    && (s.stack.None? <==> s.worker.NotStarted? || s.worker.Building?)
    && s.loop == (if s.worker.Assigned? || s.worker.Notified? || s.worker.Looping? then s.stack else None)
    && s.writes == (if s.loop.None? then 0 else 1)
    && (s.creator.Asleep? ==> !s.worker.Notified? && !s.worker.Looping?)
    && (s.creator.Unlocked? || s.creator.Returned? ==> s.worker.Looping? && s.seen == s.loop)
    && (s.creator.Returned? ==> s.creator.loop == s.loop)
  }

  predicate IsRun<P>(s: State<P>, es: seq<Event<P>>)
    decreases |es|
  {
    es == [] || (Enabled(s, es[0]) && IsRun(Next(s, es[0]), es[1..]))
  }

  function After<P>(s: State<P>, es: seq<Event<P>>): State<P>
    requires IsRun(s, es)
    decreases |es|
  {
    if es == [] then s else After(Next(s, es[0]), es[1..])
  }

  lemma StepInv<P>(s: State<P>, e: Event<P>)
    requires Inv(s) && Enabled(s, e)
    ensures Inv(Next(s, e))
  {}

  lemma {:induction false} RunInv<P>(s: State<P>, es: seq<Event<P>>)
    requires Inv(s) && IsRun(s, es)
    ensures Inv(After(s, es))
    decreases |es|
  {
    if es != [] {
      StepInv(s, es[0]);
      RunInv(Next(s, es[0]), es[1..]);
    }
  }

  /** In every interleaving `startLoop` returns the loop that the new thread built; the unlocked read agrees
      with the value seen under the mutex, because `loop_` is assigned once and never again. */
  lemma StartLoopReturnsTheLoop<P>(es: seq<Event<P>>)
    requires IsRun(Init(), es)
    ensures var s := After(Init(), es);
            && s.writes <= 1
            && (s.creator.Returned? ==>
                  s.worker.Looping? && s.creator.loop.Some? && s.creator.loop == s.seen == s.loop == s.stack)
  {
    RunInv(Init(), es);
  }

  /** The creator is never asleep once the only notify has gone by. */
  lemma NoLostWakeup<P>(es: seq<Event<P>>)
    requires IsRun(Init(), es)
    ensures var s := After(Init(), es);
            s.creator.Asleep? ==> !s.worker.Notified? && !s.worker.Looping?
  {
    RunInv(Init(), es);
  }

  /** Until `startLoop` returns some thread can step without a spurious wakeup. */
  lemma SomeThreadCanStep<P>(s: State<P>, p: P) returns (e: Event<P>)
    requires Inv(s) && !s.creator.Returned?
    ensures Enabled(s, e) && !e.Wake?
    ensures e.Build? ==> e.p == p
  {
    match s.worker
    case NotStarted => e := Start;
    case Building => e := Build(p);
    case Built => e := if s.owner.Free? then WorkerLock else Check;
    case Locked => e := Assign;
    case Assigned => e := Notify;
    case Notified => e := WorkerUnlock;
    case Looping =>
      match s.creator
      case Started => e := Lock;
      case Checking => e := Check;
      case Woken => e := Relock;
      case Unlocked => e := Read;
  }

  function CreatorRank<P>(c: Creator<P>): nat {
    match c
    case Fresh => 7
    case Started => 6
    case Woken => 5
    case Checking => 4
    case Asleep => 3
    case Unlocked => 1
    case Returned(_) => 0
  }

  function WorkerRank(w: Worker): nat {
    match w
    case NotStarted => 6
    case Building => 5
    case Built => 4
    case Locked => 3
    case Assigned => 2
    case Notified => 1
    case Looping => 0
  }

  function Measure<P>(s: State<P>): nat {
    CreatorRank(s.creator) + 4 * WorkerRank(s.worker)
  }

  /** Every step is progress, except a spurious wakeup. */
  lemma StepMeasure<P>(s: State<P>, e: Event<P>)
    requires Inv(s) && Enabled(s, e)
    ensures if e.Wake? then Measure(Next(s, e)) == Measure(s) + 2 else Measure(Next(s, e)) < Measure(s)
  {}

  function SpuriousWakeups<P>(es: seq<Event<P>>): nat {
    if es == [] then 0 else (if es[0].Wake? then 1 else 0) + SpuriousWakeups(es[1..])
  }

  lemma {:induction false} RunMeasure<P>(s: State<P>, es: seq<Event<P>>)
    requires Inv(s) && IsRun(s, es)
    ensures |es| + Measure(After(s, es)) <= Measure(s) + 3 * SpuriousWakeups(es)
    decreases |es|
  {
    if es != [] {
      StepInv(s, es[0]);
      StepMeasure(s, es[0]);
      RunMeasure(Next(s, es[0]), es[1..]);
    }
  }

  /** The handshake ends: no run is longer than 31 steps plus three for each spurious wakeup, and it can go
      on without one exactly until `startLoop` has returned; by then the new thread is in its loop. */
  lemma HandshakeTerminates<P>(es: seq<Event<P>>, p: P)
    requires IsRun(Init(), es)
    ensures |es| <= 31 + 3 * SpuriousWakeups(es)
    ensures (forall e: Event<P> | e == Start || e == Lock || e == Check || e == Relock || e == Read || e == Build(p)
                                  || e == WorkerLock || e == Assign || e == Notify || e == WorkerUnlock ::
               !Enabled(After(Init(), es), e))
            <==> After(Init(), es).creator.Returned?
  {
    RunInv(Init(), es);
    RunMeasure(Init(), es);
    var s := After(Init(), es);
    if !s.creator.Returned? {
      var e := SomeThreadCanStep(s, p);
    }
  }
}
