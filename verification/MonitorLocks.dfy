/**
 Mutual exclusion and freedom from deadlock for the two mutexes, and no lost
 wake-up for the condition variable.
 */
module MonitorLocks {
  import opened Options
  import opened FileDb
  import opened Timers
  import opened Monitor

  predicate AHoldsMutex(a: APc) { a.AQueueL? || a.AGetL? || a.ASetL? || a.AForgetL? }
  predicate AHoldsCallbacks(a: APc) { a.ACancelL? || a.AAddL? }

  /** Who holds what, by program counter. */
  ghost predicate LockInv(s: State)
  {
    && (s.mutex.Analysis? <==> AHoldsMutex(s.a))
    && (s.mutex.TimerThread? <==> s.t.TPushL?)
    && (s.mutex.Watcher? <==> s.w.WPushL?)
    && (s.callbacksMutex.Analysis? <==> AHoldsCallbacks(s.a))
    && (s.callbacksMutex.TimerThread? <==> !s.t.TIdle?)
    && !s.callbacksMutex.Watcher?
    && (s.t.TPushL? ==> s.t.called < UpperBound(s.pending, s.t.now))
    && (s.t.TPass? ==> s.t.called <= UpperBound(s.pending, s.t.now))
    && (!s.started ==> s.t.TIdle? && s.w.WIdle? && s.queue == [] && !s.a.AWait? && !s.a.AQueueL?)
    && (s.a == AWait(false) ==> s.queue == [])
  }

  lemma LockWatch(s: State, step: WatchStep)
    requires LockInv(s) && WatchEnabled(s, step)
    ensures LockInv(WatchNext(s, step))
  {
  }

  lemma LockFire(s: State, step: FireStep)
    requires LockInv(s) && FireEnabled(s, step)
    ensures LockInv(FireNext(s, step))
  {
  }

  lemma LockTake(s: State, step: TakeStep)
    requires LockInv(s) && TakeEnabled(s, step)
    ensures LockInv(TakeNext(s, step))
  {
  }

  lemma LockNew(s: State, step: NewStep)
    requires LockInv(s) && NewEnabled(s, step)
    ensures LockInv(NewNext(s, step))
  {
  }

  lemma LockDelay(s: State, step: DelayStep)
    requires LockInv(s) && DelayEnabled(s, step)
    ensures LockInv(DelayNext(s, step))
  {
  }

  lemma LockCheck(s: State, step: CheckStep)
    requires LockInv(s) && CheckEnabled(s, step)
    ensures LockInv(CheckNext(s, step))
  {
  }

  lemma LockStep(s: State, step: Step)
    requires LockInv(s) && Enabled(s, step)
    ensures LockInv(Apply(s, step))
  {
    hide LockInv;
    match step
    case ByWatch(x) => LockWatch(s, x);
    case ByFire(x) => LockFire(s, x);
    case ByTake(x) => LockTake(s, x);
    case ByNew(x) => LockNew(s, x);
    case ByDelay(x) => LockDelay(s, x);
    case ByCheck(x) => LockCheck(s, x);
  }

  datatype Thread = WatcherT | AnalysisT | TimerT

  /** Which thread owns a mutex. */
  function ThreadOf(o: Owner): Option<Thread>
  {
    match o
    case Free => None
    case Watcher => Some(WatcherT)
    case Analysis => Some(AnalysisT)
    case TimerThread => Some(TimerT)
  }

  /** A thread stands before a lock call on `mutex`. */
  ghost predicate WantsMutex(s: State, x: Thread)
  {
    match x
    case WatcherT => s.w.WPush?
    case AnalysisT => (s.started && s.a.AIdle?) || s.a.AWait? || s.a.AGet? || s.a.ASet? || s.a.AForget?
    case TimerT => s.t.TPass? && s.t.called < UpperBound(s.pending, s.t.now)
  }

  /** A thread stands before a lock call on `callbacks_mutex`. */
  ghost predicate WantsCallbacks(s: State, x: Thread)
  {
    match x
    case WatcherT => false
    case AnalysisT => s.a.ACancel? || s.a.AAdd?
    case TimerT => s.started && s.t.TIdle?
  }

  /** x waits for a mutex that y holds; x == y would be a self-deadlock. */
  ghost predicate WaitsFor(s: State, x: Thread, y: Thread)
  {
    || (WantsMutex(s, x) && ThreadOf(s.mutex) == Some(y))
    || (WantsCallbacks(s, x) && ThreadOf(s.callbacksMutex) == Some(y))
  }

  /** The lock order callbacks_mutex before mutex, as a rank that every wait lowers. */
  function Rank(s: State, x: Thread): nat
  {
    if ThreadOf(s.mutex) == Some(x) then 0
    else if ThreadOf(s.callbacksMutex) == Some(x) then 1
    else 2
  }

  lemma WaitLowersRank(s: State, x: Thread, y: Thread)
    requires LockInv(s) && WaitsFor(s, x, y)
    ensures Rank(s, y) < Rank(s, x)
  {
  }

  ghost predicate WaitChain(s: State, chain: seq<Thread>)
  {
    forall i :: 0 <= i < |chain| - 1 ==> WaitsFor(s, chain[i], chain[i + 1])
  }

  lemma {:induction false} ChainLowersRank(s: State, chain: seq<Thread>)
    requires LockInv(s) && |chain| >= 2 && WaitChain(s, chain)
    ensures Rank(s, chain[|chain| - 1]) < Rank(s, chain[0])
    decreases |chain|
  {
    var n := |chain|;
    assert WaitsFor(s, chain[n - 2], chain[n - 2 + 1]);
    WaitLowersRank(s, chain[n - 2], chain[n - 1]);
    if n > 2 {
      assert WaitChain(s, chain[..n - 1]);
      ChainLowersRank(s, chain[..n - 1]);
    }
  }

  lemma InitLocked(s: State)
    requires Init(s)
    ensures LockInv(s)
  {
  }

  lemma {:induction false} LockRun(s: State, steps: seq<Step>)
    requires LockInv(s) && CanRun(s, steps)
    ensures LockInv(Run(s, steps))
    decreases |steps|
  {
    if steps != [] {
      LockStep(s, steps[0]);
      LockRun(Apply(s, steps[0]), steps[1..]);
    }
  }

  /**
   Deadlock freedom over every run: no cycle of mutex waits of any length, the
   timer thread alone ever holds both mutexes, and the analysis thread never
   sleeps unsignalled while the queue holds a node.
   */
  lemma NoDeadlock(s0: State, steps: seq<Step>, chain: seq<Thread>)
    requires Init(s0) && CanRun(s0, steps)
    ensures
      var s := Run(s0, steps);
      && (|chain| >= 2 && WaitChain(s, chain) ==> chain[0] != chain[|chain| - 1])
      && (s.mutex == s.callbacksMutex ==> s.mutex.Free? || s.mutex.TimerThread?)
      && (s.a == AWait(false) ==> s.queue == [])
  {
    InitLocked(s0);
    LockRun(s0, steps);
    var s := Run(s0, steps);
    if |chain| >= 2 && WaitChain(s, chain) {
      ChainLowersRank(s, chain);
    }
  }
}
