/**
 * The thread pool of bs_thread_pool.h as a state machine: every step is one critical section under the tasks mutex, one
 * notification, or one wake-up of a condition variable.  Wake-ups may be spurious, and notify_one() happens after the
 * mutex is released.
 */
module ThreadPools {
  import opened Naturals

  /**
   * A worker runs its initialisation, holds a task, sleeps on task_available_cv, or has been woken and will take the
   * mutex to look at the queue again.
   */
  datatype Worker = Starting | Holding(task: nat) | Sleeping | Woken {
    predicate Busy() {
      Starting? || Holding?
    }
  }

  /** The caller of wait(): outside it, asleep on tasks_done_cv, or woken to check again. */
  datatype Waiter = Away | Blocked | Notified

  /** Tasks are numbered in the order of submission. */
  datatype Pool = Pool(queue: seq<nat>, workers: seq<Worker>, running: int, waiting: bool, waiter: Waiter,
                       notifies: nat, submitted: nat, finished: set<nat>)

  datatype Event =
    | Submit                 // detach_task() pushes a task and still has to notify
    | NotifyOne(w: nat)      // Its notify_one() wakes a sleeping worker
    | NotifyNone             // ... or finds none asleep
    | Return(w: nat)         // A worker takes the mutex after its initialisation or its task
    | Recheck(w: nat)        // A woken worker takes the mutex
    | WakeWorker(w: nat)     // Spurious
    | CallWait               // wait() takes the mutex
    | RecheckWaiter          // The woken caller of wait() takes the mutex
    | WakeWaiter             // Spurious

  /** create_threads() */
  function Created(threads: nat): Pool {
    Pool([], seq(threads, _ => Starting), threads, false, Away, 0, 0, {})
  }

  predicate Done(p: Pool) {
    p.running == 0 && p.queue == []
  }

  predicate Enabled(p: Pool, e: Event) {
    match e
    case Submit => true
    case NotifyOne(w) => p.notifies > 0 && w < |p.workers| && p.workers[w].Sleeping?
    case NotifyNone => p.notifies > 0 && forall w :: 0 <= w < |p.workers| ==> !p.workers[w].Sleeping?
    case Return(w) => w < |p.workers| && p.workers[w].Busy()
    case Recheck(w) => w < |p.workers| && p.workers[w].Woken?
    case WakeWorker(w) => w < |p.workers| && p.workers[w].Sleeping?
    case CallWait => p.waiter.Away?
    case RecheckWaiter => p.waiter.Notified?
    case WakeWaiter => p.waiter.Blocked?
  }

  /** The end of a worker's critical section: pop a task, or sleep. */
  function Look(p: Pool, w: nat): Pool
    requires w < |p.workers|
  {
    if p.queue != [] then
      p.(queue := p.queue[1..], running := p.running + 1, workers := p.workers[w := Holding(p.queue[0])])
    else p.(workers := p.workers[w := Sleeping])
  }

  /** The start of the critical section of a returning worker: count down, and tell wait() once nothing is left. */
  function CountDown(p: Pool, w: nat): Pool
    requires w < |p.workers|
  {
    var q := p.(running := p.running - 1,
                finished := if p.workers[w].Holding? then p.finished + {p.workers[w].task} else p.finished);
    if q.waiting && Done(q) && q.waiter.Blocked? then q.(waiter := Notified) else q
  }

  /** The predicate of tasks_done_cv: return, or sleep. */
  function CheckDone(p: Pool): Pool {
    if Done(p) then p.(waiter := Away, waiting := false) else p.(waiter := Blocked)
  }

  function Step(p: Pool, e: Event): Pool
    requires Enabled(p, e)
  {
    match e
    case Submit => p.(queue := p.queue + [p.submitted], submitted := p.submitted + 1, notifies := p.notifies + 1)
    case NotifyOne(w) => p.(notifies := p.notifies - 1, workers := p.workers[w := Woken])
    case NotifyNone => p.(notifies := p.notifies - 1)
    case Return(w) => Look(CountDown(p, w), w)
    case Recheck(w) => Look(p, w)
    case WakeWorker(w) => p.(workers := p.workers[w := Woken])
    case CallWait => CheckDone(p.(waiting := true))
    case RecheckWaiter => CheckDone(p)
    case WakeWaiter => p.(waiter := Notified)
  }

  // ---------------------------------------------------------------- counting workers

  function CountBusy(ws: seq<Worker>): nat {
    if ws == [] then 0 else One(ws[0].Busy()) + CountBusy(ws[1..])
  }

  function CountAsleep(ws: seq<Worker>): nat {
    if ws == [] then 0 else One(ws[0].Sleeping?) + CountAsleep(ws[1..])
  }

  function CountWoken(ws: seq<Worker>): nat {
    if ws == [] then 0 else One(ws[0].Woken?) + CountWoken(ws[1..])
  }

  lemma {:induction false} CountsUpdate(ws: seq<Worker>, w: nat, x: Worker)
    requires w < |ws|
    ensures CountBusy(ws[w := x]) == CountBusy(ws) - One(ws[w].Busy()) + One(x.Busy())
    ensures CountAsleep(ws[w := x]) == CountAsleep(ws) - One(ws[w].Sleeping?) + One(x.Sleeping?)
    ensures CountWoken(ws[w := x]) == CountWoken(ws) - One(ws[w].Woken?) + One(x.Woken?)
  {
    if w == 0 {
      assert ws[w := x][1..] == ws[1..];
    } else {
      CountsUpdate(ws[1..], w - 1, x);
      assert ws[w := x][1..] == ws[1..][w - 1 := x];
    }
  }

  lemma {:induction false} CountsMean(ws: seq<Worker>)
    ensures CountBusy(ws) == 0 <==> forall w :: 0 <= w < |ws| ==> !ws[w].Busy()
    ensures CountAsleep(ws) == 0 <==> forall w :: 0 <= w < |ws| ==> !ws[w].Sleeping?
    ensures CountBusy(ws) + CountAsleep(ws) + CountWoken(ws) == |ws|
  {
    if ws == [] {
    } else {
      CountsMean(ws[1..]);
      assert forall w :: 1 <= w < |ws| ==> ws[w] == ws[1..][w - 1];
      if CountBusy(ws) == 0 {
        forall w | 0 <= w < |ws|
          ensures !ws[w].Busy()
        {
          if w > 0 {
            assert !ws[1..][w - 1].Busy();
          }
        }
      }
      if CountAsleep(ws) == 0 {
        forall w | 0 <= w < |ws|
          ensures !ws[w].Sleeping?
        {
          if w > 0 {
            assert !ws[1..][w - 1].Sleeping?;
          }
        }
      }
    }
  }

  // ---------------------------------------------------------------- invariant

  /** tasks_running is the number of workers starting up or holding a task. */
  ghost predicate Counted(p: Pool) {
    p.running == CountBusy(p.workers)
  }

  /** The first task that has not been popped: the queue holds the others in order. */
  function Launched(p: Pool): int {
    p.submitted - |p.queue|
  }

  ghost predicate Queued(p: Pool) {
    Launched(p) >= 0 && forall k :: 0 <= k < |p.queue| ==> p.queue[k] == Launched(p) + k
  }

  ghost predicate HeldBy(p: Pool, t: nat, w: nat) {
    w < |p.workers| && p.workers[w] == Holding(t)
  }

  ghost predicate Held(p: Pool, t: nat) {
    exists w :: 0 <= w < |p.workers| && HeldBy(p, t, w)
  }

  /** Every popped task is held or finished, and not both; no two workers hold the same. */
  ghost predicate Accounted(p: Pool) {
    && (forall t: nat :: t < Launched(p) ==> (Held(p, t) <==> t !in p.finished))
    && (forall t :: t in p.finished ==> t < Launched(p))
    && (forall w :: 0 <= w < |p.workers| && p.workers[w].Holding? ==> p.workers[w].task < Launched(p))
    && (forall v, w :: 0 <= v < w < |p.workers| && p.workers[v].Holding? && p.workers[w].Holding? ==>
                         p.workers[v].task != p.workers[w].task)
  }

  /** Every queued task, or else every sleeper, has a wake-up in flight. */
  ghost predicate NoTaskForgotten(p: Pool) {
    CountWoken(p.workers) + p.notifies >= |p.queue| || p.notifies >= CountAsleep(p.workers)
  }

  /** A blocked caller of wait() has something left to wait for, whose worker will notify it. */
  ghost predicate WaiterServed(p: Pool) {
    (p.waiting <==> !p.waiter.Away?) && (p.waiter.Blocked? ==> !Done(p))
  }

  ghost predicate Inv(p: Pool) {
    Counted(p) && Queued(p) && Accounted(p) && NoTaskForgotten(p) && WaiterServed(p)
  }

  lemma CreatedInv(threads: nat)
    ensures Inv(Created(threads))
  {
    AllStarting(threads);
  }

  lemma {:induction false} AllStarting(threads: nat)
    ensures CountBusy(seq<Worker>(threads, _ => Starting)) == threads
  {
    if threads > 0 {
      AllStarting(threads - 1);
      assert seq<Worker>(threads, _ => Starting)[1..] == seq<Worker>(threads - 1, _ => Starting);
    }
  }

  lemma LookCounts(p: Pool, w: nat)
    requires w < |p.workers|
    ensures var q := Look(p, w);
            if p.queue != [] then
              && q.running == p.running + 1 && |q.queue| == |p.queue| - 1
              && CountBusy(q.workers) == CountBusy(p.workers) - One(p.workers[w].Busy()) + 1
              && CountAsleep(q.workers) == CountAsleep(p.workers) - One(p.workers[w].Sleeping?)
              && CountWoken(q.workers) == CountWoken(p.workers) - One(p.workers[w].Woken?)
            else
              && q.running == p.running && q.queue == p.queue
              && CountBusy(q.workers) == CountBusy(p.workers) - One(p.workers[w].Busy())
              && CountAsleep(q.workers) == CountAsleep(p.workers) - One(p.workers[w].Sleeping?) + 1
              && CountWoken(q.workers) == CountWoken(p.workers) - One(p.workers[w].Woken?)
  {
    hide CountBusy, CountAsleep, CountWoken;
    CountsUpdate(p.workers, w, if p.queue != [] then Holding(p.queue[0]) else Sleeping);
  }

  lemma StepCounted(p: Pool, e: Event)
    requires Counted(p) && Enabled(p, e)
    ensures Counted(Step(p, e))
  {
    hide CountBusy, CountAsleep, CountWoken, Look;
    match e
    case NotifyOne(w) => CountsUpdate(p.workers, w, Woken);
    case WakeWorker(w) => CountsUpdate(p.workers, w, Woken);
    case Return(w) => LookCounts(CountDown(p, w), w);
    case Recheck(w) => LookCounts(p, w);
    case _ =>
  }

  lemma LookKeeps(p: Pool, w: nat)
    requires w < |p.workers|
    ensures var q := Look(p, w); q.waiter == p.waiter && q.waiting == p.waiting && q.notifies == p.notifies
  {
  }

  lemma StepNotForgotten(p: Pool, e: Event)
    requires NoTaskForgotten(p) && Enabled(p, e)
    ensures NoTaskForgotten(Step(p, e))
  {
    hide CountBusy, CountAsleep, CountWoken, Look;
    match e
    case NotifyOne(w) => CountsUpdate(p.workers, w, Woken);
    case NotifyNone => CountsMean(p.workers);
    case WakeWorker(w) => CountsUpdate(p.workers, w, Woken);
    case Return(w) =>
      LookCounts(CountDown(p, w), w);
      LookKeeps(CountDown(p, w), w);
    case Recheck(w) =>
      LookCounts(p, w);
      LookKeeps(p, w);
    case _ =>
  }

  lemma StepQueued(p: Pool, e: Event)
    requires Queued(p) && Enabled(p, e)
    ensures Queued(Step(p, e))
  {
  }

  lemma StepServed(p: Pool, e: Event)
    requires WaiterServed(p) && Counted(p) && Enabled(p, e)
    ensures WaiterServed(Step(p, e))
  {
    hide CountBusy;
    RunningNat(p.workers);
    if e.Return? {
      BusyCounts(p.workers, e.w);
    }
  }

  lemma BusyCounts(ws: seq<Worker>, w: nat)
    requires w < |ws| && ws[w].Busy()
    ensures CountBusy(ws) > 0
  {
    CountsMean(ws);
  }

  lemma RunningNat(ws: seq<Worker>)
    ensures CountBusy(ws) >= 0
  {
  }

  // ---------------------------------------------------------------- no task is lost or done twice

  /** A worker that does not hold a task takes the first of the queue. */
  lemma LookAccounted(p: Pool, w: nat)
    requires Queued(p) && w < |p.workers|
    requires (forall t: nat :: t < Launched(p) ==>
              (t !in p.finished <==> exists v :: 0 <= v < |p.workers| && v != w && HeldBy(p, t, v)))
    requires forall t :: t in p.finished ==> t < Launched(p)
    requires forall v :: 0 <= v < |p.workers| && v != w && p.workers[v].Holding? ==> p.workers[v].task < Launched(p)
    requires forall u, v :: 0 <= u < v < |p.workers| && u != w && v != w ==>
                              p.workers[u].Holding? && p.workers[v].Holding? ==> p.workers[u].task != p.workers[v].task
    ensures Accounted(Look(p, w))
  {
    var q := Look(p, w);
    forall t: nat | t < Launched(q)
      ensures Held(q, t) <==> t !in q.finished
    {
      if t < Launched(p) {
        if t !in p.finished {
          var v :| 0 <= v < |p.workers| && v != w && HeldBy(p, t, v);
          assert HeldBy(q, t, v);
        }
        if Held(q, t) {
          var v :| 0 <= v < |q.workers| && HeldBy(q, t, v);
          assert v != w;
          assert HeldBy(p, t, v);
        }
      } else {
        assert HeldBy(q, t, w);
      }
    }
  }

  /** Everyone but w accounts for the other tasks: w's own one, if any, has just been finished. */
  lemma OthersAccount(p: Pool, w: nat)
    requires Accounted(p) && w < |p.workers|
    ensures var q := CountDown(p, w);
            && (forall t: nat :: t < Launched(q) ==>
                  (t !in q.finished <==> exists v :: 0 <= v < |q.workers| && v != w && HeldBy(q, t, v)))
            && (forall t :: t in q.finished ==> t < Launched(q))
  {
    var q := CountDown(p, w);
    forall t: nat | t < Launched(q)
      ensures t !in q.finished <==> exists v :: 0 <= v < |q.workers| && v != w && HeldBy(q, t, v)
    {
      if t !in q.finished {
        assert Held(p, t);
        var v :| 0 <= v < |p.workers| && HeldBy(p, t, v);
        assert v != w && HeldBy(q, t, v);
      }
      if exists v :: 0 <= v < |q.workers| && v != w && HeldBy(q, t, v) {
        var v :| 0 <= v < |q.workers| && v != w && HeldBy(q, t, v);
        assert HeldBy(p, t, v);
      }
    }
  }

  lemma SameHeld(p: Pool, q: Pool)
    requires Accounted(p) && p.finished == q.finished && Launched(p) == Launched(q) && |p.workers| == |q.workers|
    requires forall w :: 0 <= w < |p.workers| ==>
              (p.workers[w].Holding? || q.workers[w].Holding? ==> p.workers[w] == q.workers[w])
    ensures Accounted(q)
  {
    forall t: nat | t < Launched(q)
      ensures Held(q, t) <==> t !in q.finished
    {
      if Held(p, t) {
        var w :| 0 <= w < |p.workers| && HeldBy(p, t, w);
        assert HeldBy(q, t, w);
      }
      if Held(q, t) {
        var w :| 0 <= w < |q.workers| && HeldBy(q, t, w);
        assert HeldBy(p, t, w);
      }
    }
  }

  lemma RecheckAccounts(p: Pool, w: nat)
    requires Accounted(p) && w < |p.workers| && !p.workers[w].Holding?
    ensures forall t: nat :: t < Launched(p) ==>
                               (t !in p.finished <==> exists v :: 0 <= v < |p.workers| && v != w && HeldBy(p, t, v))
  {
    forall t: nat | t < Launched(p)
      ensures t !in p.finished <==> exists v :: 0 <= v < |p.workers| && v != w && HeldBy(p, t, v)
    {
      assert Held(p, t) <==> t !in p.finished;
      if Held(p, t) {
        var v :| 0 <= v < |p.workers| && HeldBy(p, t, v);
        assert v != w;
      }
    }
  }

  lemma StepAccounted(p: Pool, e: Event)
    requires Queued(p) && Accounted(p) && Enabled(p, e)
    ensures Accounted(Step(p, e))
  {
    match e
    case Return(w) =>
      OthersAccount(p, w);
      LookAccounted(CountDown(p, w), w);
    case Recheck(w) =>
      RecheckAccounts(p, w);
      LookAccounted(p, w);
    case _ => SameHeld(p, Step(p, e));
  }

  /** Every step keeps the invariant. */
  lemma StepInv(p: Pool, e: Event)
    requires Inv(p) && Enabled(p, e)
    ensures Inv(Step(p, e))
  {
    hide Counted, Queued, Accounted, NoTaskForgotten, WaiterServed, Step, Enabled;
    StepCounted(p, e);
    StepQueued(p, e);
    StepAccounted(p, e);
    StepNotForgotten(p, e);
    StepServed(p, e);
  }

  // ---------------------------------------------------------------- runs

  ghost predicate Runs(p: Pool, es: seq<Event>)
    decreases |es|, 0
  {
    es == [] || (Runs(p, es[..|es| - 1]) && Enabled(After(p, es[..|es| - 1]), es[|es| - 1]))
  }

  function After(p: Pool, es: seq<Event>): Pool
    requires Runs(p, es)
    decreases |es|, 1
  {
    if es == [] then p else Step(After(p, es[..|es| - 1]), es[|es| - 1])
  }

  /** The invariant holds after every run of a new pool. */
  lemma {:induction false} AlwaysInv(threads: nat, es: seq<Event>)
    requires Runs(Created(threads), es)
    ensures Inv(After(Created(threads), es))
    decreases |es|
  {
    hide Inv, Step, Enabled, Created;
    if es == [] {
      CreatedInv(threads);
    } else {
      AlwaysInv(threads, es[..|es| - 1]);
      StepInv(After(Created(threads), es[..|es| - 1]), es[|es| - 1]);
    }
  }

  /** The step lets the caller of wait() return. */
  predicate WaitReturns(p: Pool, e: Event)
    requires Enabled(p, e)
  {
    (e.CallWait? || e.RecheckWaiter?) && Step(p, e).waiter.Away?
  }

  lemma NotHeld(p: Pool, t: nat)
    requires forall w :: 0 <= w < |p.workers| ==> !p.workers[w].Holding?
    ensures !Held(p, t)
  {
  }

  /** wait() returns only when every submitted task is finished: none is queued, none is held, no worker is starting. */
  lemma WaitReturnsDone(p: Pool, e: Event)
    requires Inv(p) && Enabled(p, e) && WaitReturns(p, e)
    ensures p.queue == [] && forall w :: 0 <= w < |p.workers| ==> !p.workers[w].Busy()
    ensures forall t: nat :: t < p.submitted ==> t in p.finished
  {
    CountsMean(p.workers);
    forall t: nat | t < p.submitted
      ensures t in p.finished
    {
      NotHeld(p, t);
    }
  }

  /** Every submitted task is in exactly one of queued, held and finished, and held by at most one worker. */
  lemma ExactlyOnePlace(p: Pool, t: nat)
    requires Inv(p) && t < p.submitted
    ensures One(t in p.queue) + One(Held(p, t)) + One(t in p.finished) == 1
    ensures forall v, w :: 0 <= v < |p.workers| && 0 <= w < |p.workers| && HeldBy(p, t, v) && HeldBy(p, t, w) ==> v == w
  {
    if t >= Launched(p) {
      assert p.queue[t - Launched(p)] == t;
    }
  }

  // ---------------------------------------------------------------- progress

  /** Steps that nobody outside the pool has to take. */
  predicate Internal(e: Event) {
    e.NotifyOne? || e.NotifyNone? || e.Return? || e.Recheck? || e.RecheckWaiter?
  }

  function Rank(p: Pool): nat {
    2 * |p.queue| + 2 * CountBusy(p.workers) + CountWoken(p.workers) + 2 * p.notifies + One(p.waiter.Notified?)
  }

  /** Without new tasks, calls and spurious wake-ups, every step brings the pool closer to rest. */
  lemma InternalProgress(p: Pool, e: Event)
    requires Enabled(p, e) && Internal(e)
    ensures Rank(Step(p, e)) < Rank(p)
  {
    hide CountBusy, CountAsleep, CountWoken, Look;
    match e
    case NotifyOne(w) => CountsUpdate(p.workers, w, Woken);
    case Return(w) =>
      LookCounts(CountDown(p, w), w);
      LookKeeps(CountDown(p, w), w);
    case Recheck(w) =>
      LookCounts(p, w);
      LookKeeps(p, w);
    case _ =>
  }

  /**
   * At rest every task is finished and nobody waits: neither a queued task nor a blocked caller of wait() can have
   * missed its wake-up.
   */
  lemma RestIsDone(p: Pool)
    requires Inv(p) && |p.workers| > 0 && forall e :: Internal(e) ==> !Enabled(p, e)
    ensures p.queue == [] && p.waiter.Away? && forall t: nat :: t < p.submitted ==> t in p.finished
  {
    hide CountBusy, CountAsleep, CountWoken;
    forall w | 0 <= w < |p.workers|
      ensures p.workers[w].Sleeping?
    {
      assert !Enabled(p, Return(w)) && !Enabled(p, Recheck(w)) && !Enabled(p, NotifyOne(w));
    }
    assert !Enabled(p, NotifyNone) && !Enabled(p, RecheckWaiter);
    assert !Enabled(p, NotifyOne(0));
    CountsMean(p.workers);
    NoneWoken(p.workers);
    forall t: nat | t < p.submitted
      ensures t in p.finished
    {
      NotHeld(p, t);
    }
  }

  lemma {:induction false} NoneWoken(ws: seq<Worker>)
    requires forall w :: 0 <= w < |ws| ==> ws[w].Sleeping?
    ensures CountWoken(ws) == 0 && CountAsleep(ws) == |ws|
  {
    if ws != [] {
      assert ws[0].Sleeping?;
      forall w | 0 <= w < |ws| - 1
        ensures ws[1..][w].Sleeping?
      {
        assert ws[w + 1].Sleeping?;
      }
      NoneWoken(ws[1..]);
    }
  }
}
