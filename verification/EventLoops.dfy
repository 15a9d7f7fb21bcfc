/** The event loop object and the thread that owns it. */
module EventLoops {
  import opened Options
  import opened Protocol
  import H = Handshake

  /** Threads are numbered; the base thread is 0 and the pool's thread i is i + 1. */
  class EventLoop {
    const threadId: nat
    var pendingFunctors: seq<Functor>
    var todo: seq<Functor>
    var done: seq<Functor>
    var activity: Activity

    constructor (threadId: nat)
      ensures this.threadId == threadId && Value() == Loop([], [], [], Polling)
    {
      this.threadId := threadId;
      pendingFunctors, todo, done, activity := [], [], [], Polling;
    }

    /** The loop of the step system that this object stands for. */
    function Value(): Loop
      reads this
    {
      Loop(pendingFunctors, todo, done, activity)
    }

    predicate IsInLoopThread(thread: nat) {
      thread == threadId
    }

    method QueueInLoop(cb: Functor)
      modifies this`pendingFunctors
      ensures Value() == old(Value()).(pending := old(Value()).pending + [cb])
    {
      pendingFunctors := pendingFunctors + [cb];
    }
  }

  /** `EventLoopThread`. The two threads are played by `StartLoop`, which takes any enabled step of either
      until the creator returns. */
  class EventLoopThread {
    const threadId: nat
    var loop: EventLoop?
    // the positions of the two threads, the owner of the mutex, the new thread's own EventLoop, and what the
    // creator last saw under the mutex
    var creator: H.Creator<EventLoop>
    var worker: H.Worker
    var owner: H.Owner
    var stack: EventLoop?
    var seen: EventLoop?
    var writes: nat

    constructor (threadId: nat)
      ensures this.threadId == threadId && State() == H.Init()
    {
      this.threadId := threadId;
      loop, stack, seen, writes := null, null, null, 0;
      creator, worker, owner := H.Fresh, H.NotStarted, H.Free;
    }

    function Pointer(p: EventLoop?): Option<EventLoop> {
      if p == null then None else Some(p)
    }

    function State(): H.State<EventLoop>
      reads this
    {
      H.State(creator, worker, owner, Pointer(stack), Pointer(loop), Pointer(seen), writes)
    }

    /** One atomic step of either thread, on the shared fields. */
    method Step(e: H.Event<EventLoop>)
      requires H.Enabled(State(), e)
      modifies this
      ensures State() == H.Next(old(State()), e)
    {
      match e
      case Start => creator, worker := H.Started, H.Building;
      case Lock => creator, owner := H.Checking, H.ByCreator;
      case Check =>
        seen := loop;
        creator, owner := if loop == null then H.Asleep else H.Unlocked, H.Free;
      case Wake => creator := H.Woken;
      case Relock => creator, owner := H.Checking, H.ByCreator;
      case Read => creator := H.Returned(Pointer(loop));
      case Build(p) => stack, worker := p, H.Built;
      case WorkerLock => worker, owner := H.Locked, H.ByWorker;
      case Assign =>
        loop := stack;
        worker, writes := H.Assigned, writes + 1;
      case Notify =>
        if creator.Asleep? {
          creator := H.Woken;
        }
        worker := H.Notified;
      case WorkerUnlock => worker, owner := H.Looping, H.Free;
    }

    /** However the two threads interleave, and however often `wait` returns for no reason, the caller gets the
        non-null loop that the new thread has just built. */
    method StartLoop() returns (result: EventLoop)
      requires State() == H.Init()
      modifies this
      ensures fresh(result) && result == loop == stack
      ensures result.threadId == threadId && result.Value() == Loop([], [], [], Polling)
      ensures creator == H.Returned(Some(result)) && worker == H.Looping && writes == 1
    {
      var spurious: nat := *;
      while !creator.Returned?
        invariant H.Inv(State())
        invariant stack != null ==>
                    fresh(stack) && stack.threadId == threadId && stack.Value() == Loop([], [], [], Polling)
        decreases spurious, H.Measure(State())
      {
        var e: H.Event<EventLoop>;
        if {
          case creator.Asleep? && 0 < spurious => spurious, e := spurious - 1, H.Wake;
          case creator.Fresh? => e := H.Start;
          case creator.Started? && owner.Free? => e := H.Lock;
          case creator.Checking? => e := H.Check;
          case creator.Woken? && owner.Free? => e := H.Relock;
          case creator.Unlocked? => e := H.Read;
          case worker.Building? =>
            var mine := new EventLoop(threadId);
            e := H.Build(mine);
          case worker.Built? && owner.Free? => e := H.WorkerLock;
          case worker.Locked? => e := H.Assign;
          case worker.Assigned? => e := H.Notify;
          case worker.Notified? => e := H.WorkerUnlock;
        }
        H.StepInv(State(), e);
        H.StepMeasure(State(), e);
        Step(e);
      }
      result := loop;
    }
  }
}
