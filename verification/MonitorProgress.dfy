/**
 Progress: from every reachable state in which a file is delayed, the threads can
 go on to a full check of that file.
 */
module MonitorProgress {
  import opened Options
  import opened FileDb
  import opened Timers
  import opened Monitor
  import opened MonitorLocks
  import opened MonitorTimers
  import opened MonitorFiles
  import opened MonitorDelays
  import opened MonitorExample

  /** The analysis thread is in the full check of f. */
  predicate Checking(a: APc, f: string)
  {
    BusyWith(a, f) &&
    (a.ACheck? || a.AGone? || a.ADelete? || a.AUpdate? || a.AChanged? || a.AForget? || a.AForgetL?)
  }

  /** What is known of every state on the way. */
  ghost predicate OnWay(s: State, f: string)
  {
    Inv(s) && LostInv(s, f) && f in s.h.delayed
  }

  lemma WatchKeeps(s: State, x: WatchStep, f: string)
    requires f in s.h.delayed && WatchEnabled(s, x)
    ensures f in WatchNext(s, x).h.delayed
  {
  }

  lemma FireKeeps(s: State, x: FireStep, f: string)
    requires f in s.h.delayed && FireEnabled(s, x)
    ensures f in FireNext(s, x).h.delayed
  {
  }

  lemma TakeKeeps(s: State, x: TakeStep, f: string)
    requires f in s.h.delayed && TakeEnabled(s, x)
    ensures f in TakeNext(s, x).h.delayed
  {
  }

  lemma NewKeeps(s: State, x: NewStep, f: string)
    requires f in s.h.delayed && NewEnabled(s, x)
    ensures f in NewNext(s, x).h.delayed
  {
  }

  lemma DelayKeeps(s: State, x: DelayStep, f: string)
    requires f in s.h.delayed && DelayEnabled(s, x)
    ensures f in DelayNext(s, x).h.delayed
  {
  }

  lemma CheckKeeps(s: State, x: CheckStep, f: string)
    requires f in s.h.delayed && CheckEnabled(s, x) && !Checking(s.a, f)
    ensures f in CheckNext(s, x).h.delayed
  {
  }

  /** A delayed file stays delayed until its full check ends. */
  lemma StaysDelayed(s: State, step: Step, f: string)
    requires f in s.h.delayed && Enabled(s, step) && !Checking(s.a, f)
    ensures f in Apply(s, step).h.delayed
  {
    hide WatchNext, FireNext, TakeNext, NewNext, DelayNext, CheckNext, Checking;
    match step
    case ByWatch(x) => WatchKeeps(s, x, f);
    case ByFire(x) => FireKeeps(s, x, f);
    case ByTake(x) => TakeKeeps(s, x, f);
    case ByNew(x) => NewKeeps(s, x, f);
    case ByDelay(x) => DelayKeeps(s, x, f);
    case ByCheck(x) => CheckKeeps(s, x, f);
  }

  lemma WayStep(s0: State, s: State, step: Step, f: string)
    requires Reaches(s0, s) && OnWay(s, f) && Enabled(s, step) && !Checking(s.a, f)
    ensures Reaches(s0, Apply(s, step)) && OnWay(Apply(s, step), f)
  {
    hide Reaches, Inv, LostInv, Enabled, Apply;
    Then(s0, s, step);
    InvStep(s, step);
    LostStep(s, step, f);
    StaysDelayed(s, step, f);
  }

  // ---------------------------------------------------------------------
  // The analysis thread finishes what it is doing.
  // ---------------------------------------------------------------------

  /** How far the analysis thread is from the end of do_analysis. */
  function Left(a: APc): nat
  {
    match a
    case AStart(_) => 30 case AFind(_, _) => 29
    case AGet(_, _, _) => 20 case AGetL(_, _, _) => 19
    case ACancel(_, _, _, _) => 18 case ACancelL(_, _, _, _) => 17
    case AAdd(_, _, _) => 16 case AAddL(_, _, _) => 15 case ASet(_, _) => 14 case ASetL(_, _) => 13
    case ANew(_) => 12 case AInsert(_, _) => 11 case ACreated(_, _) => 10
    case ACheck(_, _) => 9 case AGone(_, _) => 8 case ADelete(_) => 7
    case AUpdate(_, _, _) => 6 case AChanged(_, _, _) => 5 case AForget(_) => 4 case AForgetL(_) => 3
    case AIdle => 0 case AQueueL => 0 case AWait(_) => 0
  }

  /** The next step of do_analysis. */
  ghost function NextStep(s: State): Step
    requires Working(s.a).Some?
  {
    match s.a
    case AStart(item) => ByTake(if item.node.name in s.ignored then AFilter else ANow)
    case AFind(_, _) => ByTake(ALookup)
    case AGet(_, _, _) => ByDelay(ALockGet)
    case AGetL(_, _, _) => ByDelay(AReadTask)
    case ACancel(_, _, _, _) => ByDelay(ALockCancel)
    case ACancelL(_, _, _, _) => ByDelay(ACancelTimer)
    case AAdd(_, _, _) => ByDelay(ALockAdd)
    case AAddL(_, _, _) => ByDelay(AAddTimer)
    case ASet(_, _) => ByDelay(ALockSet)
    case ASetL(_, _) => ByDelay(ASetTask)
    case ANew(_) => ByNew(AObserveNew(Missing))
    case AInsert(_, _) => ByNew(AInsertRow)
    case ACreated(_, _) => ByNew(AAlertCreated)
    case ACheck(_, _) => ByCheck(AObserve(Missing))
    case AGone(_, _) => ByCheck(AAlertDeleted)
    case ADelete(_) => ByCheck(ADeleteRow)
    case AUpdate(_, _, _) => ByCheck(AUpdateRow)
    case AChanged(_, _, _) => ByCheck(AAlertChanged)
    case AForget(_) => ByCheck(ALockForget)
    case AForgetL(_) => ByCheck(AForgetTask)
  }

  /** No other thread holds a mutex, and the timer thread sleeps. */
  predicate Alone(s: State)
  {
    && (s.mutex.Free? || s.mutex.Analysis?) && (s.callbacksMutex.Free? || s.callbacksMutex.Analysis?)
    && s.t.TIdle?
  }

  lemma NextEnabled(s: State)
    requires Inv(s) && Alone(s) && Working(s.a).Some?
    ensures Enabled(s, NextStep(s))
  {
    hide TimerInv, TaskIds, FileInv, Unique;
    LocksFree(s);
  }

  /** A mutex that only the analysis thread can hold is free unless it is in the critical section. */
  lemma LocksFree(s: State)
    requires Inv(s) && Alone(s)
    ensures s.mutex.Free? || AHoldsMutex(s.a)
    ensures s.callbacksMutex.Free? || AHoldsCallbacks(s.a)
  {
    hide TimerInv, TaskIds, FileInv, Unique;
  }

  /** One step closer to the end of do_analysis; nothing else moves. */
  ghost predicate Closer(s: State, s': State)
  {
    && Alone(s') && Left(s'.a) < Left(s.a) && (Working(s'.a).None? ==> s'.a.AIdle?)
    && s'.queue == s.queue && s'.clock == s.clock && s'.started == s.started && s'.interval == s.interval
    && (Working(s'.a).Some? ==> Working(s'.a) == Working(s.a))
  }

  lemma DelayCloser(s: State, x: DelayStep)
    requires DelayEnabled(s, x) && Alone(s)
    ensures Closer(s, DelayNext(s, x))
  {
    hide Timers.Insert, Remove, IndexOf;
  }

  lemma CheckCloser(s: State, x: CheckStep)
    requires CheckEnabled(s, x) && Alone(s)
    ensures Closer(s, CheckNext(s, x))
  {
    hide Update, Delete;
  }

  lemma NewCloser(s: State, x: NewStep)
    requires NewEnabled(s, x) && Alone(s)
    ensures Closer(s, NewNext(s, x))
  {
    hide FileDb.Insert;
  }

  lemma TakeCloser(s: State, x: TakeStep)
    requires TakeEnabled(s, x) && Alone(s) && Working(s.a).Some?
    ensures Closer(s, TakeNext(s, x))
  {
    hide Find;
  }

  lemma NextCloser(s: State)
    requires Working(s.a).Some? && Enabled(s, NextStep(s)) && Alone(s)
    ensures Closer(s, Apply(s, NextStep(s)))
  {
    hide Closer, Alone, DelayNext, CheckNext, NewNext, TakeNext, DelayEnabled, CheckEnabled, NewEnabled, TakeEnabled;
    match NextStep(s)
    case ByDelay(x) => DelayCloser(s, x);
    case ByCheck(x) => CheckCloser(s, x);
    case ByNew(x) => NewCloser(s, x);
    case ByTake(x) => TakeCloser(s, x);
  }

  lemma NextRows(s: State, f: string)
    requires Inv(s) && Working(s.a).Some? && Enabled(s, NextStep(s)) && !BusyWith(s.a, f)
    ensures Find(Apply(s, NextStep(s)).rows, f) == Find(s.rows, f)
  {
    hide Inv, WorkInv, DelayNext, CheckNext, NewNext, TakeNext, DelayEnabled, CheckEnabled, NewEnabled, TakeEnabled, Find;
    WorkIn(s);
    match NextStep(s)
    case ByDelay(x) => DelayFrame(s, x, f);
    case ByCheck(x) => CheckFind(s, x, f);
    case ByNew(x) => NewRows(s, x, f);
    case ByTake(x) => TakeRows(s, x);
  }

  lemma NewRows(s: State, x: NewStep, f: string)
    requires WorkInv(s) && NewEnabled(s, x) && !BusyWith(s.a, f)
    ensures Find(NewNext(s, x).rows, f) == Find(s.rows, f)
  {
    hide WorkInv, Find, FileDb.Insert;
    WorkRow(s);
    if x.AInsertRow? {
      FindAfterInsert(s.rows, s.a.item.node.name, s.a.sum, s.clock, f);
    }
  }

  lemma TakeRows(s: State, x: TakeStep)
    requires TakeEnabled(s, x)
    ensures TakeNext(s, x).rows == s.rows
  {
    hide Find;
  }

  lemma WorkIn(s: State)
    requires Inv(s)
    ensures WorkInv(s)
  {
    hide Global, Core, PendingInv;
    if Working(s.a).Some? {
      WorkOf(s, Working(s.a).value.node.name);
    }
  }

  lemma WorkOf(s: State, f: string)
    requires Inv(s)
    ensures PcInv(s, f)
  {
    hide Global, PendingInv, RowInv, TrackedInv, PcInv;
    InvOf(s, f);
  }

  /** What do_analysis leaves as it was. */
  ghost predicate Aside(s: State, s': State, f: string)
  {
    && Alone(s') && s'.queue == s.queue && s'.clock == s.clock && s'.started == s.started
    && s'.interval == s.interval
    && (!BusyWith(s.a, f) ==> Find(s'.rows, f) == Find(s.rows, f))
  }

  /** Left to itself, the analysis thread ends its work, unless it comes to the full check of f first. */
  lemma {:induction false} FinishAnalysis(s0: State, s: State, f: string) returns (s': State)
    requires Reaches(s0, s) && OnWay(s, f) && Alone(s)
    ensures Reaches(s0, s') && OnWay(s', f) && Aside(s, s', f)
    ensures Checking(s'.a, f) || (Working(s'.a).None? && (Working(s.a).Some? ==> s'.a.AIdle?))
    ensures Working(s.a).None? ==> s' == s
    decreases Left(s.a)
  {
    hide Reaches, Inv, LostInv, Enabled, Apply, NextStep, Alone, Find;
    s' := s;
    if Working(s.a).Some? && !Checking(s.a, f) {
      NextEnabled(s);
      NextCloser(s);
      if !BusyWith(s.a, f) {
        NextRows(s, f);
      }
      var next := Apply(s, NextStep(s));
      WayStep(s0, s, NextStep(s), f);
      s' := FinishAnalysis(s0, next, f);
    }
  }

  // ---------------------------------------------------------------------
  // The other threads let go.
  // ---------------------------------------------------------------------

  /** Whoever is inside a critical section of the queue leaves it. */
  lemma FreeMutex(s0: State, s: State, f: string) returns (s': State)
    requires Reaches(s0, s) && OnWay(s, f) && !Checking(s.a, f)
    ensures Reaches(s0, s') && OnWay(s', f) && s'.mutex.Free?
    ensures s'.clock == s.clock && s'.started == s.started
    ensures s'.t.TIdle? <==> s.t.TIdle?
  {
    hide Reaches, Inv, LostInv;
    HeldBy(s);
    s' := s;
    if s.mutex.Watcher? {
      WayStep(s0, s, ByWatch(WEnqueue), f);
      s' := WatchNext(s, WEnqueue);
    } else if s.mutex.TimerThread? {
      WayStep(s0, s, ByFire(TCall), f);
      s' := FireNext(s, TCall);
    } else if s.mutex.Analysis? {
      var step := ReleaseStep(s);
      WayStep(s0, s, step, f);
      s' := Apply(s, step);
    }
  }

  lemma HeldBy(s: State)
    requires Inv(s)
    ensures LockInv(s)
    ensures s.t.TPushL? ==> s.t.called < |s.pending|
  {
    hide TimerInv, TaskIds, FileInv, Unique;
  }

  /** The step by which the analysis thread releases the mutex. */
  ghost function ReleaseStep(s: State): Step
    requires AHoldsMutex(s.a)
  {
    match s.a
    case AQueueL => ByTake(if s.queue == [] then ASleep else APop)
    case AGetL(_, _, _) => ByDelay(AReadTask)
    case ASetL(_, _) => ByDelay(ASetTask)
    case AForgetL(_) => ByCheck(AForgetTask)
  }

  /** A pass of the timer thread runs to its end. */
  lemma {:induction false} FinishPass(s0: State, s: State, f: string) returns (s': State)
    requires Reaches(s0, s) && OnWay(s, f) && !Checking(s.a, f) && s.mutex.Free? && s.t.TPass?
    ensures Reaches(s0, s') && OnWay(s', f) && !Checking(s'.a, f) && s'.mutex.Free? && s'.t.TIdle?
    ensures s'.clock == s.clock && s'.started == s.started && s'.rows == s.rows && s'.interval == s.interval
    ensures Working(s'.a) == Working(s.a)
    ensures InQueue(s, f) ==> InQueue(s', f)
    ensures forall j :: s.t.called <= j < UpperBound(s.pending, s.t.now) && s.pending[j].node.name == f ==> InQueue(s', f)
    decreases |s.pending| - s.t.called
  {
    hide Reaches, Inv, LostInv, UpperBound;
    HeldBy(s);
    if s.t.called == UpperBound(s.pending, s.t.now) {
      WayStep(s0, s, ByFire(TErase), f);
      s' := FireNext(s, TErase);
    } else {
      var k := s.t.called;
      WayStep(s0, s, ByFire(TLockQueue), f);
      var s1 := FireNext(s, TLockQueue);
      WayStep(s0, s1, ByFire(TCall), f);
      var s2 := FireNext(s1, TCall);
      Enqueued(s.queue, Item(s.pending[k].node, Fired(s.pending[k])), f);
      s' := FinishPass(s0, s2, f);
    }
  }

  /** An item at the end of the queue. */
  lemma Enqueued(queue: seq<Item>, item: Item, f: string)
    ensures
      (exists i :: 0 <= i < |queue + [item]| && (queue + [item])[i].node.name == f) <==>
      item.node.name == f || exists i :: 0 <= i < |queue| && queue[i].node.name == f
  {
    var q := queue + [item];
    assert q[|queue|] == item && forall i :: 0 <= i < |queue| ==> q[i] == queue[i];
  }

  /** All threads are between two pieces of work. */
  predicate Settled(s: State)
  {
    s.mutex.Free? && s.callbacksMutex.Free? && s.t.TIdle? && (s.a.AIdle? || s.a.AWait?)
  }

  lemma Settle(s0: State, s: State, f: string) returns (s': State)
    requires Reaches(s0, s) && OnWay(s, f)
    ensures Reaches(s0, s') && OnWay(s', f) && (Checking(s'.a, f) || Settled(s'))
  {
    hide Reaches, Inv, LostInv, UpperBound;
    s' := s;
    if !Checking(s'.a, f) {
      s' := FreeMutex(s0, s', f);
    }
    if !Checking(s'.a, f) && !s'.t.TIdle? {
      HeldBy(s');
      s' := FinishPass(s0, s', f);
    }
    if !Checking(s'.a, f) {
      HeldBy(s');
      s' := FinishAnalysis(s0, s', f);
      HeldBy(s');
      LocksFree(s');
    }
  }

  // ---------------------------------------------------------------------
  // From a settled state to the check.
  // ---------------------------------------------------------------------

  /** The queue is worked off until the file's turn comes; by then its row is old enough. */
  lemma {:induction false} WorkOff(s0: State, s: State, f: string) returns (s': State)
    requires Reaches(s0, s) && OnWay(s, f) && Settled(s) && s.started && InQueue(s, f)
    requires Find(s.rows, f).Some? && s.clock >= Find(s.rows, f).value.timestamp + s.interval
    ensures Reaches(s0, s') && Checking(s'.a, f)
    decreases |s.queue|
  {
    hide Reaches, Inv, LostInv, Find;
    var lock := if s.a.AIdle? then ALockQueue else AWake;
    WayStep(s0, s, ByTake(lock), f);
    var s1 := TakeNext(s, lock);
    WayStep(s0, s1, ByTake(APop), f);
    var s2 := TakeNext(s1, APop);
    if s.queue[0].node.name == f {
      NotIgnored(s2, f);
      WayStep(s0, s2, ByTake(ANow), f);
      var s3 := TakeNext(s2, ANow);
      WayStep(s0, s3, ByTake(ALookup), f);
      s' := TakeNext(s3, ALookup);
    } else {
      var s3 := FinishAnalysis(s0, s2, f);
      if Checking(s3.a, f) {
        s' := s3;
      } else {
        HeldBy(s3);
        LocksFree(s3);
        Popped(s.queue, f);
        s' := WorkOff(s0, s3, f);
      }
    }
  }

  lemma NotIgnored(s: State, f: string)
    requires OnWay(s, f)
    ensures f !in s.ignored
  {
    hide Inv, Alive;
  }

  lemma Popped(queue: seq<Item>, f: string)
    requires queue != [] && queue[0].node.name != f
    requires exists i :: 0 <= i < |queue| && queue[i].node.name == f
    ensures exists i :: 0 <= i < |queue[1..]| && queue[1..][i].node.name == f
  {
    var i :| 0 <= i < |queue| && queue[i].node.name == f;
    assert queue[1..][i - 1] == queue[i];
  }

  /** In a settled state a delayed file has a row, and its timer is pending or its node queued. */
  lemma DelayedHas(s: State, f: string)
    requires OnWay(s, f) && Settled(s)
    ensures Find(s.rows, f).Some? && f in s.tasks && s.tasks[f].node.name == f
    ensures s.tasks[f] in s.pending || InQueue(s, f)
  {
    hide Inv, Find;
    InvOf(s, f);
    TimerNames(s, f);
    assert Waiting(s) == s.pending;
  }

  lemma SettledCheck(s0: State, s: State, f: string) returns (s': State)
    requires Reaches(s0, s) && OnWay(s, f) && Settled(s)
    ensures Reaches(s0, s') && Checking(s'.a, f)
  {
    hide Reaches, Inv, LostInv, Find, UpperBound, InQueue;
    DelayedHas(s, f);
    HeldBy(s);
    var s1 := s;
    if !s.started {
      WayStep(s0, s, ByWatch(Start), f);
      s1 := WatchNext(s, Start);
    }
    var due := Later(Find(s.rows, f).value.timestamp + s.interval, s.tasks[f].expiration);
    var d := if due > s1.clock then due - s1.clock else 0;
    WayStep(s0, s1, ByWatch(Tick(d)), f);
    var s2 := WatchNext(s1, Tick(d));
    SameQueue(s, s2, f);
    if InQueue(s2, f) {
      s' := WorkOff(s0, s2, f);
    } else {
      WayStep(s0, s2, ByFire(TLock), f);
      var s3 := FireNext(s2, TLock);
      PendingDue(s3, s.tasks[f]);
      var s4 := FinishPass(s0, s3, f);
      HeldBy(s4);
      HeldBy(s3);
      s' := WorkOff(s0, s4, f);
    }
  }

  function Later(x: int, y: int): int { if x > y then x else y }

  lemma SameQueue(s: State, s': State, f: string)
    requires s'.queue == s.queue
    ensures InQueue(s', f) == InQueue(s, f)
  {
  }

  /** A timer that is due will be called by the pass. */
  lemma PendingDue(s: State, t: Timer)
    requires Inv(s) && s.t.TPass? && t in s.pending && t.expiration <= s.t.now
    ensures exists j :: 0 <= j < UpperBound(s.pending, s.t.now) && s.pending[j] == t
  {
    hide FileInv, LockInv, TaskIds, Unique, Ledger;
    var j :| 0 <= j < |s.pending| && s.pending[j] == t;
  }

  /**
   In every run, a file that has been delayed can still be checked in full: some continuation
   by the clock and the threads leads to its check.
   */
  lemma CheckCanFollow(s0: State, steps: seq<Step>, f: string)
    requires Init(s0) && CanRun(s0, steps) && f in Run(s0, steps).h.delayed
    ensures exists s :: Reaches(Run(s0, steps), s) && Checking(s.a, f)
  {
    hide Init, CanRun, Run, Inv, LostInv, Reaches;
    var s := Run(s0, steps);
    InvInit(s0);
    InitLost(s0, f);
    InvRun(s0, steps);
    LostRun(s0, steps, f);
    Reflexive(s);
    var s1 := Settle(s, s, f);
    if Checking(s1.a, f) {
      assert Reaches(s, s1);
    } else {
      var s2 := SettledCheck(s, s1, f);
      assert Reaches(s, s2);
    }
  }
}
