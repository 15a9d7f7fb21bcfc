/** `EventLoopThreadPool`: starting the I/O threads, and handing their loops out in turn. */
module ThreadPool {
  import opened Protocol
  import opened EventLoops

  // --- round robin on numbers ---

  /** How many of the `calls` consecutive calls that start with call `from` go to loop `l` of `n`. */
  ghost function Share(from: nat, calls: nat, l: nat, n: nat): nat
    requires l < n
    decreases calls
  {
    if calls == 0 then 0 else (if from % n == l then 1 else 0) + Share(from + 1, calls - 1, l, n)
  }

  lemma {:induction false} ShareSplit(from: nat, first: nat, second: nat, l: nat, n: nat)
    requires l < n
    ensures Share(from, first + second, l, n) == Share(from, first, l, n) + Share(from + first, second, l, n)
    decreases first
  {
    if first > 0 {
      ShareSplit(from + 1, first - 1, second, l, n);
    }
  }

  lemma ModStep(k: nat, n: nat)
    requires 0 < n
    ensures (k + 1) % n == if k % n + 1 >= n then 0 else k % n + 1
  {
    var q, r := k / n, k % n;
    assert k == n * q + r;
    if r + 1 >= n {
      assert k + 1 == n * (q + 1);
      ModUnique(k + 1, q + 1, 0, n);
    } else {
      ModUnique(k + 1, q, r + 1, n);
    }
  }

  lemma {:induction false} MultipleAtLeast(n: nat, d: nat)
    requires 0 < d
    ensures n <= n * d
  {
    if d > 1 {
      MultipleAtLeast(n, d - 1);
      assert n * d == n * (d - 1) + n;
    }
  }

  lemma ModUnique(x: nat, q: nat, r: nat, n: nat)
    requires r < n && x == n * q + r
    ensures x % n == r
  {
    var p := x / n;
    assert x == n * p + x % n;
    if p < q {
      assert n * q == n * p + n * (q - p);
      MultipleAtLeast(n, q - p);
    } else if q < p {
      assert n * p == n * q + n * (p - q);
      MultipleAtLeast(n, p - q);
    }
  }

  /** Fewer than `n` consecutive calls reach a loop when it comes up before they end. */
  lemma {:induction false} ShortWindow(from: nat, m: nat, l: nat, n: nat)
    requires l < n && m <= n
    ensures Share(from, m, l, n) == if (if l >= from % n then l - from % n else l + n - from % n) < m then 1 else 0
    decreases m
  {
    if m > 0 {
      ModStep(from, n);
      ShortWindow(from + 1, m - 1, l, n);
    }
  }

  /** Every `n` consecutive calls reach each of the `n` loops exactly once. */
  lemma FullRound(from: nat, l: nat, n: nat)
    requires l < n
    ensures Share(from, n, l, n) == 1
  {
    ShortWindow(from, n, l, n);
  }

  /** Over any window a loop gets the quotient of the calls, or one more. */
  lemma {:induction false} WindowShare(from: nat, rounds: nat, rest: nat, l: nat, n: nat)
    requires l < n && rest < n
    ensures rounds <= Share(from, rounds * n + rest, l, n) <= rounds + 1
    decreases rounds
  {
    if rounds == 0 {
      ShortWindow(from, rest, l, n);
    } else {
      assert rounds * n + rest == n + ((rounds - 1) * n + rest);
      ShareSplit(from, n, (rounds - 1) * n + rest, l, n);
      FullRound(from, l, n);
      WindowShare(from + n, rounds - 1, rest, l, n);
    }
  }

  /** Fairness: over any window of calls the shares of two loops differ by at most one. */
  lemma SharesDifferByAtMostOne(from: nat, calls: nat, l: nat, m: nat, n: nat)
    requires l < n && m < n
    ensures -1 <= Share(from, calls, l, n) - Share(from, calls, m, n) <= 1
  {
    var rounds, rest := calls / n, calls % n;
    assert calls == rounds * n + rest;
    WindowShare(from, rounds, rest, l, n);
    WindowShare(from, rounds, rest, m, n);
  }

  // --- the pool ---

  class EventLoopThreadPool {
    const baseLoop: EventLoop
    var started: bool
    var numThreads: int
    var next: nat
    var threads: seq<EventLoopThread>
    var loops: seq<EventLoop>

    /** Before the start both tables are empty; afterwards they are equally long, and entry i runs on thread
        i + 1. The cursor is always a valid index. */
    ghost predicate Valid()
      reads this
    {
      && baseLoop.threadId == 0
      && |threads| == |loops|
      && (!started ==> loops == [])
      && (if loops == [] then next == 0 else next < |loops|)
      && (forall i | 0 <= i < |loops| :: loops[i].threadId == i + 1)
    }

    constructor (baseLoop: EventLoop)
      requires baseLoop.threadId == 0
      ensures Valid() && this.baseLoop == baseLoop && !started
      ensures numThreads == 0 && next == 0 && loops == [] && threads == []
    {
      this.baseLoop := baseLoop;
      started, numThreads, next, threads, loops := false, 0, 0, [], [];
    }

    method SetThreadNum(numThreads: int)
      modifies this`numThreads
      ensures this.numThreads == numThreads
    {
      this.numThreads := numThreads;
    }

    /** Starts `numThreads` threads (none for a negative number), one handshake after the other. All loops are
        new, hence different from the base loop, and different from each other because their threads are. */
    method Start(thread: nat)
      requires Valid() && !started && baseLoop.IsInLoopThread(thread)
      modifies this`started, this`threads, this`loops
      ensures Valid() && started
      ensures |loops| == |threads| == if numThreads < 0 then 0 else numThreads
      ensures forall i | 0 <= i < |loops| ::
                fresh(loops[i]) && fresh(threads[i]) && loops[i].Value() == Loop([], [], [], Polling)
      ensures forall i, j | 0 <= i < j < |loops| :: loops[i] != loops[j]
      ensures forall i | 0 <= i < |loops| ::
                threads[i].worker.Looping? && threads[i].loop == threads[i].stack == loops[i] && loops[i] != baseLoop
    {
      started := true;
      var i := 0;
      while i < numThreads
        invariant 0 <= i && (i <= numThreads || i == 0)
        invariant started && |threads| == |loops| == i && next == 0
        invariant forall k | 0 <= k < i :: fresh(loops[k]) && fresh(threads[k])
        invariant forall k | 0 <= k < i ::
                    && loops[k].threadId == k + 1 && loops[k].Value() == Loop([], [], [], Polling)
                    && threads[k].loop == loops[k] && threads[k].stack == loops[k] && threads[k].worker.Looping?
      {
        var t := new EventLoopThread(i + 1);
        threads := threads + [t];
        var loop := t.StartLoop();
        loops := loops + [loop];
        i := i + 1;
      }
    }

    method GetNextLoop(thread: nat) returns (loop: EventLoop)
      requires Valid() && baseLoop.IsInLoopThread(thread)
      modifies this`next
      ensures Valid()
      ensures loop == if loops == [] then baseLoop else loops[old(next)]
      ensures next == if loops == [] || old(next) + 1 >= |loops| then 0 else old(next) + 1
    {
      loop := baseLoop;
      if loops != [] {
        loop := loops[next];
        next := next + 1;
        if next >= |loops| {
          next := 0;
        }
      }
    }

    /** A whole run of calls: starting from the first, call k gets loop k mod n, or always the base loop. */
    method GetLoops(thread: nat, calls: nat) returns (picks: seq<EventLoop>)
      requires Valid() && baseLoop.IsInLoopThread(thread) && next == 0
      modifies this`next
      ensures Valid() && |picks| == calls
      ensures forall k | 0 <= k < calls :: picks[k] == if loops == [] then baseLoop else loops[k % |loops|]
      ensures loops != [] ==> next == calls % |loops|
    {
      picks := [];
      var k := 0;
      while k < calls
        invariant 0 <= k <= calls && |picks| == k
        invariant Valid()
        invariant forall j | 0 <= j < k :: picks[j] == if loops == [] then baseLoop else loops[j % |loops|]
        invariant loops != [] ==> next == k % |loops|
      {
        if loops != [] {
          ModStep(k, |loops|);
        }
        var loop := GetNextLoop(thread);
        picks := picks + [loop];
        k := k + 1;
      }
    }
  }
}
