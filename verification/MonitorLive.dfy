/**
 Which timers of a file can be live at once: the one of its current row, and one
 that a full check forgot without cancelling it.
 */
module MonitorLive {
  import opened Options
  import opened FileDb
  import opened Timers
  import opened Monitor
  import opened MonitorLocks
  import opened MonitorTimers
  import opened MonitorFiles
  import opened MonitorDelays

  // ---------------------------------------------------------------------
  // Every pending timer is tracked, being recorded, or forgotten.
  // ---------------------------------------------------------------------

  /** The old task has been taken out of the multimap and the new one is not recorded yet. */
  predicate Between(a: APc, f: string)
  {
    BusyWith(a, f) && (a.AAdd? || a.AAddL? || Setting(a))
  }

  /** The timer that is being recorded for f. */
  function Recording(a: APc, f: string): Option<Timer>
  {
    if BusyWith(a, f) && Setting(a) then Some(a.timer) else None
  }

  ghost predicate OwnInv(s: State, f: string)
  {
    forall t :: t in s.pending && t.node.name == f ==>
      || t in s.h.forgotten
      || (f in s.tasks && s.tasks[f] == t && !Between(s.a, f))
      || Recording(s.a, f) == Some(t)
  }

  lemma OwnSame(s: State, s': State, f: string)
    requires OwnInv(s, f) && SameEntry(s.tasks, s'.tasks, f) && s.h.forgotten <= s'.h.forgotten
    requires forall t :: t in s'.pending && t.node.name == f ==> t in s.pending
    requires Between(s'.a, f) == Between(s.a, f) && Recording(s'.a, f) == Recording(s.a, f)
    ensures OwnInv(s', f)
  {
    hide Between, Recording;
  }

  lemma OwnWatch(s: State, x: WatchStep, f: string)
    requires OwnInv(s, f) && WatchEnabled(s, x)
    ensures OwnInv(WatchNext(s, x), f)
  {
    hide OwnInv;
    OwnSame(s, WatchNext(s, x), f);
  }

  lemma OwnFire(s: State, x: FireStep, f: string)
    requires OwnInv(s, f) && FireEnabled(s, x)
    ensures OwnInv(FireNext(s, x), f)
  {
    hide OwnInv;
    OwnSame(s, FireNext(s, x), f);
  }

  lemma OwnTake(s: State, x: TakeStep, f: string)
    requires OwnInv(s, f) && TakeEnabled(s, x)
    ensures OwnInv(TakeNext(s, x), f)
  {
    hide OwnInv;
    OwnSame(s, TakeNext(s, x), f);
  }

  lemma OwnNew(s: State, x: NewStep, f: string)
    requires OwnInv(s, f) && NewEnabled(s, x)
    ensures OwnInv(NewNext(s, x), f)
  {
    hide OwnInv;
    OwnSame(s, NewNext(s, x), f);
  }

  lemma OwnCheck(s: State, x: CheckStep, f: string)
    requires OwnInv(s, f) && CheckEnabled(s, x)
    ensures OwnInv(CheckNext(s, x), f)
  {
    hide OwnInv;
    if x.AForgetTask? {
      OwnForget(s, f);
    } else {
      OwnSame(s, CheckNext(s, x), f);
    }
  }

  lemma OwnForget(s: State, f: string)
    requires OwnInv(s, f) && s.a.AForgetL?
    ensures OwnInv(CheckNext(s, AForgetTask), f)
  {
  }

  lemma OwnDelay(s: State, x: DelayStep, f: string)
    requires Global(s) && FileInv(s, f) && OwnInv(s, f) && DelayEnabled(s, x)
    ensures OwnInv(DelayNext(s, x), f)
  {
    hide OwnInv, Global, FileInv;
    if x.ACancelTimer? {
      RemoveMembers(s.pending, s.a.task);
    } else if x.AAddTimer? {
      InsertMembers(s.pending, DelayNext(s, x).a.timer);
    }
    if !BusyWith(s.a, f) {
      OwnSame(s, DelayNext(s, x), f);
    } else if x.AReadTask? {
      OwnRead(s, f);
    } else if x.ACancelTimer? {
      OwnCancel(s, f);
    } else if x.AAddTimer? {
      OwnAdd(s, f);
    } else if x.ASetTask? {
      OwnSet(s, f);
    } else {
      OwnSame(s, DelayNext(s, x), f);
    }
  }

  lemma OwnRead(s: State, f: string)
    requires OwnInv(s, f) && s.a.AGetL? && BusyWith(s.a, f)
    ensures OwnInv(DelayNext(s, AReadTask), f)
  {
  }

  lemma OwnCancel(s: State, f: string)
    requires Global(s) && FileInv(s, f) && OwnInv(s, f) && s.a.ACancelL? && BusyWith(s.a, f)
    ensures OwnInv(DelayNext(s, ACancelTimer), f)
  {
    hide Global, PendingInv, RowInv, TrackedInv, Remove;
    CancelRemoves(s);
    RemoveMembers(s.pending, s.a.task);
  }

  lemma OwnAdd(s: State, f: string)
    requires OwnInv(s, f) && s.a.AAddL? && BusyWith(s.a, f)
    ensures OwnInv(DelayNext(s, AAddTimer), f)
  {
    hide Timers.Insert;
    InsertMembers(s.pending, DelayNext(s, AAddTimer).a.timer);
  }

  lemma OwnSet(s: State, f: string)
    requires OwnInv(s, f) && s.a.ASetL? && BusyWith(s.a, f)
    ensures OwnInv(DelayNext(s, ASetTask), f)
  {
  }

  lemma OwnStep(s: State, step: Step, f: string)
    requires Inv(s) && OwnInv(s, f) && Enabled(s, step)
    ensures OwnInv(Apply(s, step), f)
  {
    hide OwnInv, Global, FileInv;
    match step
    case ByWatch(x) => OwnWatch(s, x, f);
    case ByFire(x) => OwnFire(s, x, f);
    case ByTake(x) => OwnTake(s, x, f);
    case ByNew(x) => OwnNew(s, x, f);
    case ByDelay(x) => OwnDelay(s, x, f);
    case ByCheck(x) => OwnCheck(s, x, f);
  }

  lemma {:induction false} OwnRun(s: State, steps: seq<Step>, f: string)
    requires Inv(s) && OwnInv(s, f) && CanRun(s, steps)
    ensures Inv(Run(s, steps)) && OwnInv(Run(s, steps), f)
    decreases |steps|
  {
    hide Inv, OwnInv;
    if steps != [] {
      InvStep(s, steps[0]);
      OwnStep(s, steps[0], f);
      OwnRun(Apply(s, steps[0]), steps[1..], f);
    }
  }

  // ---------------------------------------------------------------------
  // Two live timers.
  // ---------------------------------------------------------------------

  /** t belongs to the file's row, u to a row at least an interval older. */
  ghost predicate NewAndOld(s: State, f: string, t: Timer, u: Timer)
  {
    && Find(s.rows, f).Some?
    && t.stamp == Find(s.rows, f).value.timestamp && u.stamp + s.interval <= t.stamp
  }

  lemma PairOf(s: State, f: string, t: Timer, u: Timer)
    requires FileInv(s, f) && t in Live(s, f) && u in Live(s, f) && t != u
    ensures NewAndOld(s, f, t, u) || NewAndOld(s, f, u, t)
    ensures s.clock <= Find(s.rows, f).value.timestamp + s.interval - 2
  {
  }

  /** The older one was forgotten. */
  lemma OldForgotten(s: State, f: string, t: Timer, u: Timer)
    requires FileInv(s, f) && OwnInv(s, f) && t in Live(s, f) && u in Live(s, f) && NewAndOld(s, f, t, u)
    requires s.clock <= Find(s.rows, f).value.timestamp + s.interval - 2 && t != u
    ensures u in s.h.forgotten
  {
  }

  lemma TwoElements<T>(a: set<T>) returns (x: T, y: T)
    requires |a| >= 2
    ensures x in a && y in a && x != y
  {
    x :| x in a;
    var rest := a - {x};
    assert |rest| > 0;
    y :| y in rest;
  }

  lemma TwoOrMore<T>(a: set<T>, x: T, y: T)
    requires x in a && y in a && x != y
    ensures |a| >= 2
  {
    SubsetSize({x, y}, a);
  }

  lemma LiveInRun(s0: State, steps: seq<Step>, f: string)
    requires Init(s0) && CanRun(s0, steps)
    ensures FileInv(Run(s0, steps), f) && OwnInv(Run(s0, steps), f)
  {
    hide Init, CanRun, Run, Inv, FileInv, OwnInv;
    InvInit(s0);
    InitOwn(s0, f);
    OwnRun(s0, steps, f);
    InvOf(Run(s0, steps), f);
  }

  lemma InitOwn(s: State, f: string)
    requires Init(s)
    ensures OwnInv(s, f)
  {
  }

  /**
   In every run two different live timers of a file have different stamps: one is the
   timestamp of the file's row, the other is at least an interval older; and the row is
   then at most two seconds short of being an interval old.
   */
  lemma LivePair(s0: State, steps: seq<Step>, f: string, t: Timer, u: Timer)
    requires Init(s0) && CanRun(s0, steps)
    requires t in Live(Run(s0, steps), f) && u in Live(Run(s0, steps), f) && t != u
    ensures
      var s := Run(s0, steps);
      && (NewAndOld(s, f, t, u) || NewAndOld(s, f, u, t))
      && s.clock <= Find(s.rows, f).value.timestamp + s.interval - 2
  {
    hide Init, CanRun, Run, FileInv, OwnInv, Live;
    LiveInRun(s0, steps, f);
    PairOf(Run(s0, steps), f, t, u);
  }

  /** In every run at most one timer of a file is live once its row is an interval old, less one second, or gone. */
  lemma OneLiveTimer(s0: State, steps: seq<Step>, f: string)
    requires Init(s0) && CanRun(s0, steps)
    ensures
      var s := Run(s0, steps);
      var row := Find(s.rows, f);
      row.None? || s.clock >= row.value.timestamp + s.interval - 1 ==> |Live(s, f)| <= 1
  {
    hide Init, CanRun, Run, FileInv, OwnInv, Live;
    var s := Run(s0, steps);
    if |Live(s, f)| >= 2 {
      var t, u := TwoElements(Live(s, f));
      LivePair(s0, steps, f, t, u);
    }
  }

  /** A live timer of the file's row, and another live one that a full check forgot. */
  ghost predicate ForgottenBeside(s: State, f: string)
  {
    exists t, u ::
      && t in Live(s, f) && u in Live(s, f) && t != u
      && Find(s.rows, f).Some? && t.stamp == Find(s.rows, f).value.timestamp
      && u in s.h.forgotten
  }

  /** In every run a file has two live timers exactly in that case, and never more. */
  lemma TwoLiveExactly(s0: State, steps: seq<Step>, f: string)
    requires Init(s0) && CanRun(s0, steps)
    ensures
      var s := Run(s0, steps);
      |Live(s, f)| == (if ForgottenBeside(s, f) then 2 else if Live(s, f) == {} then 0 else 1)
  {
    hide Init, CanRun, Run, FileInv, OwnInv, Live;
    var s := Run(s0, steps);
    LiveInRun(s0, steps, f);
    LiveBound(s, f);
    if |Live(s, f)| >= 2 {
      var t, u := TwoElements(Live(s, f));
      PairOf(s, f, t, u);
      if NewAndOld(s, f, t, u) {
        OldForgotten(s, f, t, u);
      } else {
        OldForgotten(s, f, u, t);
      }
      assert ForgottenBeside(s, f);
    }
    if ForgottenBeside(s, f) {
      var t, u :| t in Live(s, f) && u in Live(s, f) && t != u;
      TwoOrMore(Live(s, f), t, u);
    }
  }
}
