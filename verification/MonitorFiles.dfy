/**
 What every step keeps about one file: its row, its tracked timer, and the
 timers still pending for it.
 */
module MonitorFiles {
  import opened Options
  import opened FileDb
  import opened Timers
  import opened Monitor
  import opened MonitorLocks
  import opened MonitorTimers

  /** Between taking the delay branch and adding the timer. */
  predicate Delaying(a: APc)
  {
    a.AGet? || a.AGetL? || a.ACancel? || a.ACancelL? || a.AAdd? || a.AAddL?
  }

  predicate Setting(a: APc) { a.ASet? || a.ASetL? }

  predicate Closing(a: APc) { a.AChanged? || a.AForget? || a.AForgetL? }

  /** A timer created for the row version `t.stamp` expires in [stamp + interval, stamp + 2*interval). */
  ghost predicate GoodTimer(s: State, t: Timer)
  {
    t.stamp + s.interval <= t.expiration < t.stamp + 2 * s.interval
  }

  /** The row of f and the clock. */
  ghost predicate RowInv(s: State, f: string)
  {
    && s.h.seen <= s.clock
    && (f in s.h.last ==> s.h.last[f] <= s.clock)
    && (Find(s.rows, f).Some? ==> f in s.h.last && Find(s.rows, f).value.timestamp == s.h.last[f])
    && (Find(s.rows, f).None? && f in s.h.last ==> s.h.last[f] + s.interval <= s.h.seen)
    && (s.a.AFind? ==> s.a.now == s.h.seen && (f in s.h.last ==> s.h.last[f] <= s.h.seen))
  }

  /** What the analysis thread knows about the file it works on. */
  ghost predicate PcInv(s: State, f: string)
  {
    var row := Find(s.rows, f);
    BusyWith(s.a, f) ==>
      && (!s.a.AStart? ==> f !in s.ignored)
      && (s.a.ANew? || s.a.AInsert? ==> row.None?)
      && (s.a.ACreated? ==> row.Some? && row.value.sum == s.a.sum)
      && (Delaying(s.a) ==>
            && row.Some? && s.a.stamp == row.value.timestamp && s.a.now == s.h.seen
            && s.a.stamp <= s.a.now < s.a.stamp + s.interval)
      && (s.a.ACancel? || s.a.ACancelL? ==> f in s.tasks && s.tasks[f] == s.a.task)
      && (Setting(s.a) ==>
            && row.Some? && s.a.timer.stamp == row.value.timestamp
            && s.a.timer.node.name == f && GoodTimer(s, s.a.timer) && s.a.timer.id < s.nextId)
      && (s.a.ACheck? || s.a.AGone? || s.a.ADelete? || s.a.AUpdate? ==>
            row.Some? && row.value.timestamp + s.interval <= s.h.seen)
      && (s.a.ACheck? || s.a.AGone? ==> row.value.sum == s.a.sum)
      && (s.a.AUpdate? ==> row.value.sum == s.a.was != s.a.sum)
      && (s.a.AChanged? ==> row.Some? && row.value.sum == s.a.sum != s.a.was)
  }

  /** The tracked timer belongs to the file's current row version. */
  ghost predicate TrackedInv(s: State, f: string)
  {
    f in s.tasks ==>
      && s.tasks[f].node.name == f && GoodTimer(s, s.tasks[f]) && s.tasks[f].id < s.nextId
      && f in s.h.last && (s.tasks[f].stamp == s.h.last[f] || s.tasks[f].stamp + s.interval <= s.h.last[f])
      && ((BusyWith(s.a, f) && Closing(s.a)) ||
          (Find(s.rows, f).Some? && s.tasks[f].stamp == Find(s.rows, f).value.timestamp))
  }

  /** The timers of f still in the multimap. */
  ghost predicate PendingInv(s: State, f: string)
  {
    && (forall t :: t in s.pending && t.node.name == f ==>
          && s.interval > 0 && f in s.h.last && GoodTimer(s, t)
          && (t.stamp == s.h.last[f] || t.stamp + s.interval <= s.h.last[f]))
    && (forall t, u :: t in s.pending && u in s.pending && t.node.name == f && u.node.name == f ==>
          && (t.stamp == u.stamp ==> t == u)
          && (t.stamp < u.stamp ==> t.stamp + s.interval <= u.stamp))
    && (forall t :: t in s.pending && t.node.name == f && t.stamp == s.h.last[f] ==>
          || (f in s.tasks && s.tasks[f] == t && !(BusyWith(s.a, f) && (Closing(s.a) || Setting(s.a))))
          || (BusyWith(s.a, f) && Setting(s.a) && s.a.timer == t)
          || s.h.last[f] + s.interval <= s.h.seen)
    && (BusyWith(s.a, f) && (s.a.AAdd? || s.a.AAddL?) ==>
          forall t :: t in s.pending && t.node.name == f ==> t.stamp != s.h.last[f])
  }

  ghost predicate Core(s: State, f: string)
  {
    RowInv(s, f) && PcInv(s, f) && TrackedInv(s, f)
  }

  ghost predicate FileInv(s: State, f: string)
  {
    Core(s, f) && PendingInv(s, f)
  }

  /** A tracked timer is the only pending one with its id. */
  ghost predicate TaskIds(s: State)
  {
    && (forall t, g :: t in s.pending && g in s.tasks && t.id == s.tasks[g].id ==> t == s.tasks[g])
    && (Setting(s.a) ==> forall t :: t in s.pending && t.id == s.a.timer.id ==> t == s.a.timer)
    && (Setting(s.a) ==> s.a.timer.id < s.nextId)
    && (forall g :: g in s.tasks ==> s.tasks[g].id < s.nextId)
  }

  /** Everything that does not name a file. */
  ghost predicate Global(s: State)
  {
    LockInv(s) && TimerInv(s) && TaskIds(s) && Unique(s.rows)
  }

  // ---------------------------------------------------------------------
  // Ids and rows.
  // ---------------------------------------------------------------------

  /** Dropping timers or tasks keeps ids apart. */
  lemma TaskIdsFewer(s: State, s': State)
    requires TaskIds(s) && s'.nextId == s.nextId
    requires forall t :: t in s'.pending ==> t in s.pending
    requires forall g :: g in s'.tasks ==> g in s.tasks && s'.tasks[g] == s.tasks[g]
    requires Setting(s'.a) ==> Setting(s.a) && s'.a.timer == s.a.timer
    ensures TaskIds(s')
  {
  }

  lemma TimerIdle(s: State)
    requires LockInv(s) && (s.a.AAddL? || s.a.ACancelL?)
    ensures s.t.TIdle?
  {
  }

  lemma TaskIdsAdd(s: State)
    requires Global(s) && s.a.AAddL?
    ensures TaskIds(DelayNext(s, AAddTimer))
  {
    hide LockInv, TimerInv;
    TimerIdle(s);
    PendingDistinct(s);
    InsertMembers(s.pending, DelayNext(s, AAddTimer).a.timer);
  }

  lemma TaskIdsSet(s: State)
    requires TaskIds(s) && s.a.ASetL?
    ensures TaskIds(DelayNext(s, ASetTask))
  {
  }

  lemma TaskIdsSame(s: State, s': State)
    requires TaskIds(s) && s'.nextId == s.nextId && s'.pending == s.pending && s'.tasks == s.tasks
    requires Setting(s'.a) ==> Setting(s.a) && s'.a.timer == s.a.timer
    ensures TaskIds(s')
  {
  }

  lemma TaskIdsOf(s: State)
    requires Global(s)
    ensures TaskIds(s)
  {
  }

  lemma TaskIdsDelay(s: State, x: DelayStep)
    requires Global(s) && DelayEnabled(s, x)
    ensures TaskIds(DelayNext(s, x))
  {
    hide LockInv, TimerInv, TaskIds;
    if x.AAddTimer? {
      TaskIdsAdd(s);
    } else if x.ASetTask? {
      TaskIdsSet(s);
    } else if x.ACancelTimer? {
      RemoveMembers(s.pending, s.a.task);
      TaskIdsFewer(s, DelayNext(s, x));
    } else {
      TaskIdsSame(s, DelayNext(s, x));
    }
  }

  lemma TaskIdsFire(s: State, x: FireStep)
    requires TaskIds(s) && FireEnabled(s, x)
    ensures TaskIds(FireNext(s, x))
  {
  }

  lemma TaskIdsCheck(s: State, x: CheckStep)
    requires TaskIds(s) && CheckEnabled(s, x)
    ensures TaskIds(CheckNext(s, x))
  {
  }

  lemma TaskIdsStep(s: State, step: Step)
    requires Global(s) && Enabled(s, step)
    ensures TaskIds(Apply(s, step))
  {
    hide Global, TaskIds;
    TaskIdsOf(s);
    match step
    case ByDelay(x) => TaskIdsDelay(s, x);
    case ByFire(x) => TaskIdsFire(s, x);
    case ByCheck(x) => TaskIdsCheck(s, x);
    case ByWatch(x) => TaskIdsSame(s, WatchNext(s, x));
    case ByTake(x) => TaskIdsSame(s, TakeNext(s, x));
    case ByNew(x) => TaskIdsSame(s, NewNext(s, x));
  }

  /** The facts about the file that the analysis thread works on. */
  ghost predicate WorkInv(s: State)
  {
    Working(s.a).Some? ==> PcInv(s, Working(s.a).value.node.name)
  }

  /** The row that the analysis thread is about to insert or update. */
  lemma WorkRow(s: State)
    requires WorkInv(s)
    ensures s.a.AInsert? ==> Find(s.rows, s.a.item.node.name).None?
    ensures s.a.AUpdate? ==> Find(s.rows, s.a.item.node.name).Some?
  {
  }

  lemma UniqueStep(s: State, step: Step)
    requires Unique(s.rows) && WorkInv(s) && Enabled(s, step)
    ensures Unique(Apply(s, step).rows)
  {
    hide Unique, WorkInv;
    WorkRow(s);
    match step
    case ByNew(x) =>
      if x.AInsertRow? {
        StaysUnique(s.rows, s.a.item.node.name, s.a.sum, s.clock);
      }
    case ByCheck(x) =>
      if x.AUpdateRow? {
        StaysUnique(s.rows, s.a.item.node.name, s.a.sum, s.clock);
      } else if x.ADeleteRow? {
        StaysUnique(s.rows, s.a.item.node.name, "", s.clock);
      }
    case _ =>
  }

  lemma GlobalStep(s: State, step: Step)
    requires Global(s) && WorkInv(s) && Enabled(s, step)
    ensures Global(Apply(s, step))
  {
    hide LockInv, TimerInv, TaskIds, PcInv, Apply, Unique;
    LockStep(s, step);
    MonitorTimers.TimerStep(s, step);
    TaskIdsStep(s, step);
    UniqueStep(s, step);
  }

  // ---------------------------------------------------------------------
  // Steps that do not work on the file.
  // ---------------------------------------------------------------------

  ghost predicate SameEntry<V>(m: map<string, V>, m': map<string, V>, f: string)
  {
    (f in m <==> f in m') && (f in m ==> m[f] == m'[f])
  }

  /** s' differs from s only in what other files, the clock or expired timers may change. */
  ghost predicate Elsewhere(s: State, s': State, f: string)
  {
    && s'.interval == s.interval && s'.ignored == s.ignored && s'.nextId >= s.nextId
    && s'.clock >= s.clock && s'.clock >= s'.h.seen >= s.h.seen
    && Find(s'.rows, f) == Find(s.rows, f)
    && SameEntry(s.h.last, s'.h.last, f) && SameEntry(s.tasks, s'.tasks, f)
    && (forall t :: t in s'.pending && t.node.name == f ==> t in s.pending)
  }

  lemma FileElsewhere(s: State, s': State, f: string)
    requires FileInv(s, f) && Elsewhere(s, s', f)
    requires !BusyWith(s.a, f) && (BusyWith(s'.a, f) ==> s'.a.AStart?)
    requires s'.a.AFind? ==> s'.a.now == s'.h.seen && s'.h.seen == s'.clock
    ensures FileInv(s', f)
  {
    hide RowInv, TrackedInv, PendingInv, Elsewhere;
    RowElsewhere(s, s', f);
    TrackedElsewhere(s, s', f);
    PendingElsewhere(s, s', f);
  }

  lemma RowElsewhere(s: State, s': State, f: string)
    requires RowInv(s, f) && Elsewhere(s, s', f)
    requires s'.a.AFind? ==> s'.a.now == s'.h.seen && s'.h.seen == s'.clock
    ensures RowInv(s', f)
  {
  }

  lemma TrackedElsewhere(s: State, s': State, f: string)
    requires TrackedInv(s, f) && Elsewhere(s, s', f) && !BusyWith(s.a, f)
    ensures TrackedInv(s', f)
  {
    hide BusyWith;
  }

  lemma PendingElsewhere(s: State, s': State, f: string)
    requires PendingInv(s, f) && Elsewhere(s, s', f)
    requires !BusyWith(s.a, f) && (BusyWith(s'.a, f) ==> s'.a.AStart?)
    ensures PendingInv(s', f)
  {
    hide BusyWith;
  }

  /** The same for steps of other threads while the analysis thread stays where it is. */
  lemma FileSamePc(s: State, s': State, f: string)
    requires FileInv(s, f) && Elsewhere(s, s', f)
    requires s'.a == s.a && s'.h.seen == s.h.seen
    requires s'.rows == s.rows && s'.tasks == s.tasks && s'.h.last == s.h.last
    ensures FileInv(s', f)
  {
  }

  lemma SeenBound(s: State, f: string)
    requires FileInv(s, f)
    ensures s.h.seen <= s.clock
  {
  }

  lemma FileWatch(s: State, step: WatchStep, f: string)
    requires FileInv(s, f) && WatchEnabled(s, step)
    ensures FileInv(WatchNext(s, step), f)
  {
    hide FileInv;
    SeenBound(s, f);
    var s' := WatchNext(s, step);
    if s'.a == s.a {
      FileSamePc(s, s', f);
    } else {
      FileElsewhere(s, s', f);
    }
  }

  lemma FileFire(s: State, step: FireStep, f: string)
    requires FileInv(s, f) && FireEnabled(s, step)
    ensures FileInv(FireNext(s, step), f)
  {
    hide FileInv;
    SeenBound(s, f);
    var s' := FireNext(s, step);
    assert forall t :: t in s'.pending ==> t in s.pending;
    if s'.a == s.a {
      FileSamePc(s, s', f);
    } else {
      FileElsewhere(s, s', f);
    }
  }

  lemma NotBusyTake(s: State, step: TakeStep, f: string)
    requires FileInv(s, f) && TakeEnabled(s, step) && !BusyWith(s.a, f)
    ensures FileInv(TakeNext(s, step), f)
  {
    hide FileInv;
    SeenBound(s, f);
    FileElsewhere(s, TakeNext(s, step), f);
  }

  lemma NotBusyNew(s: State, step: NewStep, f: string)
    requires FileInv(s, f) && WorkInv(s) && NewEnabled(s, step) && !BusyWith(s.a, f)
    ensures FileInv(NewNext(s, step), f)
  {
    hide FileInv, WorkInv;
    SeenBound(s, f);
    WorkRow(s);
    if step.AInsertRow? {
      FindAfterInsert(s.rows, s.a.item.node.name, s.a.sum, s.clock, f);
    }
    FileElsewhere(s, NewNext(s, step), f);
  }

  lemma NotBusyDelay(s: State, step: DelayStep, f: string)
    requires FileInv(s, f) && DelayEnabled(s, step) && !BusyWith(s.a, f)
    ensures FileInv(DelayNext(s, step), f)
  {
    hide FileInv;
    SeenBound(s, f);
    var s' := DelayNext(s, step);
    if step.ACancelTimer? {
      RemoveMembers(s.pending, s.a.task);
    } else if step.AAddTimer? {
      InsertMembers(s.pending, s'.a.timer);
    }
    FileElsewhere(s, s', f);
  }

  lemma NotBusyCheck(s: State, step: CheckStep, f: string)
    requires FileInv(s, f) && WorkInv(s) && CheckEnabled(s, step) && !BusyWith(s.a, f)
    ensures FileInv(CheckNext(s, step), f)
  {
    hide FileInv, WorkInv;
    SeenBound(s, f);
    WorkRow(s);
    if step.ADeleteRow? {
      FindAfterDelete(s.rows, s.a.item.node.name, f);
    } else if step.AUpdateRow? {
      FindAfterUpdate(s.rows, s.a.item.node.name, s.a.sum, s.clock, f);
    }
    FileElsewhere(s, CheckNext(s, step), f);
  }

  // ---------------------------------------------------------------------
  // Steps of the analysis thread on the file itself: its row and tracked timer.
  // ---------------------------------------------------------------------

  lemma CoreTake(s: State, step: TakeStep, f: string)
    requires Core(s, f) && TakeEnabled(s, step) && BusyWith(s.a, f)
    ensures Core(TakeNext(s, step), f)
  {
  }

  lemma CoreNew(s: State, step: NewStep, f: string)
    requires Core(s, f) && NewEnabled(s, step) && BusyWith(s.a, f)
    ensures Core(NewNext(s, step), f)
  {
    if step.AInsertRow? {
      FindAfterInsert(s.rows, f, s.a.sum, s.clock, f);
    }
  }

  lemma CoreDelay(s: State, step: DelayStep, f: string)
    requires Core(s, f) && DelayEnabled(s, step) && BusyWith(s.a, f)
    ensures Core(DelayNext(s, step), f)
  {
    hide Core;
    match step
    case AAddTimer => CoreAdd(s, f);
    case AReadTask => CoreRead(s, f);
    case ASetTask => CoreSet(s, f);
    case _ => CoreLock(s, step, f);
  }

  lemma CoreAdd(s: State, f: string)
    requires Core(s, f) && DelayEnabled(s, AAddTimer) && BusyWith(s.a, f)
    ensures Core(DelayNext(s, AAddTimer), f)
  {
  }

  lemma CoreRead(s: State, f: string)
    requires Core(s, f) && DelayEnabled(s, AReadTask) && BusyWith(s.a, f)
    ensures Core(DelayNext(s, AReadTask), f)
  {
  }

  lemma CoreSet(s: State, f: string)
    requires Core(s, f) && DelayEnabled(s, ASetTask) && BusyWith(s.a, f)
    ensures Core(DelayNext(s, ASetTask), f)
  {
  }

  lemma CoreLock(s: State, step: DelayStep, f: string)
    requires Core(s, f) && DelayEnabled(s, step) && BusyWith(s.a, f)
    requires !step.AAddTimer? && !step.AReadTask? && !step.ASetTask?
    ensures Core(DelayNext(s, step), f)
  {
    hide Remove, IndexOf, Find;
  }

  lemma CoreCheck(s: State, step: CheckStep, f: string)
    requires Core(s, f) && CheckEnabled(s, step) && BusyWith(s.a, f)
    ensures Core(CheckNext(s, step), f)
  {
    if step.ADeleteRow? || step.AUpdateRow? {
      CoreRewrite(s, step, f);
    } else if step.AObserve? {
      CoreObserve(s, step.o, f);
    }
  }

  lemma CoreRewrite(s: State, step: CheckStep, f: string)
    requires Core(s, f) && CheckEnabled(s, step) && BusyWith(s.a, f)
    requires step.ADeleteRow? || step.AUpdateRow?
    ensures Core(CheckNext(s, step), f)
  {
    if step.ADeleteRow? {
      FindAfterDelete(s.rows, f, f);
    } else {
      FindAfterUpdate(s.rows, f, s.a.sum, s.clock, f);
    }
  }

  lemma CoreObserve(s: State, o: Observation, f: string)
    requires Core(s, f) && s.a.ACheck? && BusyWith(s.a, f)
    ensures Core(CheckNext(s, AObserve(o)), f)
  {
  }

  // ---------------------------------------------------------------------
  // ... and its pending timers.
  // ---------------------------------------------------------------------

  /** Steps that touch neither the timers nor the row's timestamp. */
  lemma PendingSame(s: State, s': State, f: string)
    requires PendingInv(s, f) && s'.interval == s.interval && s'.pending == s.pending
    requires SameEntry(s.h.last, s'.h.last, f) && SameEntry(s.tasks, s'.tasks, f)
    requires s'.h.seen >= s.h.seen && BusyWith(s.a, f)
    requires BusyWith(s'.a, f) && (s'.a.AAdd? || s'.a.AAddL?) ==> s.a.AAdd?
    requires Setting(s.a) ==> BusyWith(s'.a, f) && Setting(s'.a) && s'.a.timer == s.a.timer
    requires BusyWith(s'.a, f) && Setting(s'.a) ==> Setting(s.a)
    requires BusyWith(s'.a, f) && Closing(s'.a) ==>
               Closing(s.a) || (f in s.h.last && s.h.last[f] + s.interval <= s'.h.seen)
    ensures PendingInv(s', f)
  {
  }

  /** Writing the row starts a new version, at least an interval after the last one. */
  lemma PendingRewrite(s: State, s': State, f: string)
    requires PendingInv(s, f) && s'.interval == s.interval && s'.pending == s.pending
    requires s'.h.last == s.h.last[f := s'.clock] && SameEntry(s.tasks, s'.tasks, f)
    requires f in s.h.last ==> s.h.last[f] + s.interval <= s'.clock
    requires BusyWith(s'.a, f) && !(s'.a.AAdd? || s'.a.AAddL?)
    ensures PendingInv(s', f)
  {
  }

  lemma BusyTake(s: State, step: TakeStep, f: string)
    requires FileInv(s, f) && TakeEnabled(s, step) && BusyWith(s.a, f)
    ensures FileInv(TakeNext(s, step), f)
  {
    hide Core, PendingInv;
    SeenBound(s, f);
    CoreTake(s, step, f);
    PendingSame(s, TakeNext(s, step), f);
  }

  lemma BusyNew(s: State, step: NewStep, f: string)
    requires FileInv(s, f) && NewEnabled(s, step) && BusyWith(s.a, f)
    ensures FileInv(NewNext(s, step), f)
  {
    hide TrackedInv, PendingInv;
    CoreNew(s, step, f);
    if step.AInsertRow? {
      PendingRewrite(s, NewNext(s, step), f);
    } else {
      PendingSame(s, NewNext(s, step), f);
    }
  }

  /** What the check branch knows before it closes. */
  lemma CheckedSpacing(s: State, step: CheckStep, f: string)
    requires Core(s, f) && CheckEnabled(s, step) && BusyWith(s.a, f)
    ensures s.a.ACheck? || s.a.ADelete? || s.a.AUpdate? ==>
              f in s.h.last && s.h.last[f] + s.interval <= s.h.seen <= s.clock
  {
  }

  lemma BusyCheck(s: State, step: CheckStep, f: string)
    requires FileInv(s, f) && CheckEnabled(s, step) && BusyWith(s.a, f)
    ensures FileInv(CheckNext(s, step), f)
  {
    CoreCheck(s, step, f);
    CheckedSpacing(s, step, f);
    if step.AForgetTask? {
      BusyForget(s, f);
    } else {
      hide Core, PendingInv;
      if step.AUpdateRow? {
        PendingRewrite(s, CheckNext(s, step), f);
      } else {
        PendingSame(s, CheckNext(s, step), f);
      }
    }
  }

  lemma BusyForget(s: State, f: string)
    requires PendingInv(s, f) && s.a.AForgetL? && BusyWith(s.a, f)
    ensures PendingInv(CheckNext(s, AForgetTask), f)
  {
  }

  lemma BusyDelay(s: State, step: DelayStep, f: string)
    requires Global(s) && FileInv(s, f) && DelayEnabled(s, step) && BusyWith(s.a, f)
    ensures FileInv(DelayNext(s, step), f)
  {
    hide Core, PendingInv, Global;
    CoreDelay(s, step, f);
    match step {
      case AReadTask => BusyRead(s, f);
      case ACancelTimer => BusyCancel(s, f);
      case AAddTimer => BusyAdd(s, f);
      case ASetTask => BusySet(s, f);
      case _ => PendingSame(s, DelayNext(s, step), f);
    }
  }

  /** What the delay branch knows: its version is current and not an interval old. */
  lemma DelayFacts(s: State, f: string)
    requires Core(s, f) && Delaying(s.a) && BusyWith(s.a, f)
    ensures s.interval > 0 && f in s.h.last && s.a.stamp == s.h.last[f]
    ensures s.h.last[f] <= s.a.now == s.h.seen < s.h.last[f] + s.interval
    ensures s.a.ACancel? || s.a.ACancelL? ==> f in s.tasks && s.tasks[f] == s.a.task
  {
  }

  lemma BusyRead(s: State, f: string)
    requires Core(s, f) && PendingInv(s, f) && s.a.AGetL? && BusyWith(s.a, f)
    ensures PendingInv(DelayNext(s, AReadTask), f)
  {
  }

  lemma BusySet(s: State, f: string)
    requires Core(s, f) && PendingInv(s, f) && s.a.ASetL? && BusyWith(s.a, f)
    ensures PendingInv(DelayNext(s, ASetTask), f)
  {
  }

  lemma BusyAdd(s: State, f: string)
    requires Core(s, f) && PendingInv(s, f) && s.a.AAddL? && BusyWith(s.a, f)
    ensures PendingInv(DelayNext(s, AAddTimer), f)
  {
    hide Core;
    DelayFacts(s, f);
    var timer := DelayNext(s, AAddTimer).a.timer;
    InsertMembers(s.pending, timer);
    PendingAdd(s, DelayNext(s, AAddTimer), timer, f);
  }

  lemma PendingAdd(s: State, s': State, timer: Timer, f: string)
    requires PendingInv(s, f) && s'.interval == s.interval > 0 && s'.h == s.h
    requires BusyWith(s.a, f) && s.a.AAddL? && BusyWith(s'.a, f) && s'.a.ASet? && s'.a.timer == timer
    requires f in s.h.last && timer.stamp == s.h.last[f] && timer.node.name == f && GoodTimer(s, timer)
    requires forall u :: u in s'.pending <==> u == timer || u in s.pending
    ensures PendingInv(s', f)
  {
  }

  lemma CancelRemoves(s: State)
    requires Global(s) && s.a.ACancelL?
    ensures s.a.task !in Remove(s.pending, s.a.task)
  {
    RemoveMembers(s.pending, s.a.task);
    if s.a.task in s.pending {
      TimerIdle(s);
      PendingDistinct(s);
      RemoveExact(s.pending, s.a.task);
    }
  }

  lemma BusyCancel(s: State, f: string)
    requires Global(s) && Core(s, f) && PendingInv(s, f) && s.a.ACancelL? && BusyWith(s.a, f)
    ensures PendingInv(DelayNext(s, ACancelTimer), f)
  {
    hide Global, Core, Remove;
    CancelRemoves(s);
    RemoveMembers(s.pending, s.a.task);
    DelayFacts(s, f);
  }

  // ---------------------------------------------------------------------
  // All steps, all files.
  // ---------------------------------------------------------------------

  lemma FileStep(s: State, step: Step, f: string)
    requires Global(s) && WorkInv(s) && FileInv(s, f) && Enabled(s, step)
    ensures FileInv(Apply(s, step), f)
  {
    hide Global, FileInv, PcInv;
    match step
    case ByWatch(x) => FileWatch(s, x, f);
    case ByFire(x) => FileFire(s, x, f);
    case ByTake(x) => if BusyWith(s.a, f) { BusyTake(s, x, f); } else { NotBusyTake(s, x, f); }
    case ByNew(x) => if BusyWith(s.a, f) { BusyNew(s, x, f); } else { NotBusyNew(s, x, f); }
    case ByDelay(x) => if BusyWith(s.a, f) { BusyDelay(s, x, f); } else { NotBusyDelay(s, x, f); }
    case ByCheck(x) => if BusyWith(s.a, f) { BusyCheck(s, x, f); } else { NotBusyCheck(s, x, f); }
  }

  ghost predicate Inv(s: State)
  {
    Global(s) && forall f :: FileInv(s, f)
  }

  lemma InvStep(s: State, step: Step)
    requires Inv(s) && Enabled(s, step)
    ensures Inv(Apply(s, step))
  {
    hide Global, PendingInv, PcInv, RowInv, TrackedInv;
    if Working(s.a).Some? {
      assert FileInv(s, Working(s.a).value.node.name);
    }
    GlobalStep(s, step);
    forall f
      ensures FileInv(Apply(s, step), f)
    {
      FileStep(s, step, f);
    }
  }

  lemma InvInit(s: State)
    requires Init(s)
    ensures Inv(s)
  {
    InitLocked(s);
    InitTimers(s);
    forall f
      ensures FileInv(s, f)
    {
      StampsOf(s.rows, f);
    }
  }

  lemma StampsOf(rows: seq<Row>, f: string)
    ensures Find(rows, f).Some? <==> f in Stamps(rows)
    ensures Find(rows, f).Some? ==> Stamps(rows)[f] == Find(rows, f).value.timestamp
  {
  }

  lemma {:induction false} InvRun(s: State, steps: seq<Step>)
    requires Inv(s) && CanRun(s, steps)
    ensures Inv(Run(s, steps))
    decreases |steps|
  {
    hide Inv;
    if steps != [] {
      InvStep(s, steps[0]);
      InvRun(Apply(s, steps[0]), steps[1..]);
    }
  }
}
