/**
 Delayed checks over whole runs: how many timers a file can have, that a delayed
 event is never lost, and that a fired timer leads to a real check.
 */
module MonitorDelays {
  import opened Options
  import opened FileDb
  import opened Timers
  import opened Monitor
  import opened MonitorLocks
  import opened MonitorTimers
  import opened MonitorFiles

  // ---------------------------------------------------------------------
  // How many timers.
  // ---------------------------------------------------------------------

  /** The timers of f in the multimap that are not yet due. */
  ghost function Live(s: State, f: string): set<Timer>
  {
    set t | t in s.pending && t.node.name == f && t.expiration > s.clock
  }

  lemma AtMostTwo(live: set<Timer>, cur: Timer, prev: Timer)
    requires forall t :: t in live ==> t == cur || t == prev
    ensures |live| <= 2
  {
    assert live <= {cur, prev};
    SubsetSize(live, {cur, prev});
  }

  lemma SubsetSize<T>(a: set<T>, b: set<T>)
    requires a <= b
    ensures |a| <= |b|
  {
    assert b == a + (b - a);
  }

  /** Two live timers of older row versions are the same timer. */
  lemma OneOldVersion(s: State, f: string, t: Timer, u: Timer)
    requires FileInv(s, f) && t in Live(s, f) && u in Live(s, f)
    requires t.stamp != s.h.last[f] && u.stamp != s.h.last[f]
    ensures t == u
  {
  }

  lemma LiveBound(s: State, f: string)
    requires FileInv(s, f)
    ensures |Live(s, f)| <= 2
  {
    var live := Live(s, f);
    if live != {} {
      var any :| any in live;
      var cur := if exists t :: t in live && t.stamp == s.h.last[f]
                 then var t :| t in live && t.stamp == s.h.last[f]; t else any;
      var prev := if exists t :: t in live && t.stamp != s.h.last[f]
                 then var t :| t in live && t.stamp != s.h.last[f]; t else any;
      forall t | t in live
        ensures t == cur || t == prev
      {
        if t.stamp == s.h.last[f] {
          assert cur.stamp == s.h.last[f];
        } else {
          OneOldVersion(s, f, t, prev);
        }
      }
      AtMostTwo(live, cur, prev);
    }
  }

  /** In every run a file has at most two timers that are not yet due. */
  lemma AtMostTwoLiveTimers(s0: State, steps: seq<Step>, f: string)
    requires Init(s0) && CanRun(s0, steps)
    ensures |Live(Run(s0, steps), f)| <= 2
  {
    hide Init, CanRun, Run, Inv, FileInv, Live;
    InvInit(s0);
    InvRun(s0, steps);
    InvOf(Run(s0, steps), f);
    LiveBound(Run(s0, steps), f);
  }

  /** A timer expires in [timestamp + interval, timestamp + 2 * interval) of a row. */
  predicate InWindow(t: Timer, row: Row, interval: nat)
  {
    row.timestamp + interval <= t.expiration < row.timestamp + 2 * interval
  }

  /**
   In every run a tracked timer is in the window of its file's row exactly when the row
   is the one it was made for; and it is, unless the analysis thread is just closing the
   check that rewrote or deleted that row.
   */
  lemma TrackedWindow(s0: State, steps: seq<Step>, f: string)
    requires Init(s0) && CanRun(s0, steps) && f in Run(s0, steps).tasks
    ensures
      var s := Run(s0, steps);
      var t, row := s.tasks[f], Find(s.rows, f);
      var current := row.Some? && row.value.timestamp == t.stamp;
      && s.interval > 0
      && (current <==> row.Some? && InWindow(t, row.value, s.interval))
      && (!current ==> BusyWith(s.a, f) && Closing(s.a))
  {
    hide Init, CanRun, Run, Inv, PendingInv, PcInv;
    InvInit(s0);
    InvRun(s0, steps);
    InvOf(Run(s0, steps), f);
  }

  lemma InvOf(s: State, f: string)
    requires Inv(s)
    ensures FileInv(s, f)
  {
  }

  // ---------------------------------------------------------------------
  // Fired timers.
  // ---------------------------------------------------------------------

  ghost predicate GoodItem(s: State, item: Item)
  {
    item.origin.Fired? ==>
      && item.node == item.origin.timer.node
      && item.origin.timer.expiration <= s.clock
      && GoodTimer(s, item.origin.timer)
  }

  ghost predicate OriginInv(s: State)
  {
    && (forall item :: item in s.queue ==> GoodItem(s, item))
    && (Working(s.a).Some? ==> GoodItem(s, Working(s.a).value))
    && (s.a.AFind? && s.a.item.origin.Fired? ==> s.a.item.origin.timer.expiration <= s.a.now)
  }

  lemma OriginLater(s: State, s': State)
    requires OriginInv(s) && s'.clock >= s.clock && s'.interval == s.interval
    requires forall item :: item in s'.queue ==> item in s.queue || GoodItem(s, item)
    requires Working(s'.a).Some? ==>
               Working(s'.a) == Working(s.a) || GoodItem(s, Working(s'.a).value)
    requires s'.a.AFind? ==> s'.a == s.a || s'.a.now == s.clock
    ensures OriginInv(s')
  {
  }

  lemma FiredItem(s: State)
    requires Inv(s) && s.t.TPushL?
    ensures s.t.called < |s.pending|
    ensures GoodItem(s, Item(s.pending[s.t.called].node, Fired(s.pending[s.t.called])))
  {
    var t := s.pending[s.t.called];
    assert FileInv(s, t.node.name);
    assert t in s.pending;
  }

  lemma OriginStep(s: State, step: Step)
    requires Inv(s) && OriginInv(s) && Enabled(s, step)
    ensures OriginInv(Apply(s, step))
  {
    hide Inv, OriginInv, GoodItem;
    if s.t.TPushL? {
      FiredItem(s);
    }
    match step
    case ByFire(x) => OriginLater(s, FireNext(s, x));
    case ByDelay(x) => OriginDelay(s, x);
    case ByCheck(x) => OriginCheck(s, x);
    case ByNew(x) => OriginNew(s, x);
    case ByWatch(x) => OriginWatch(s, x);
    case ByTake(x) => OriginTake(s, x);
  }

  lemma OriginDelay(s: State, x: DelayStep)
    requires OriginInv(s) && DelayEnabled(s, x)
    ensures OriginInv(DelayNext(s, x))
  {
  }

  lemma OriginCheck(s: State, x: CheckStep)
    requires OriginInv(s) && CheckEnabled(s, x)
    ensures OriginInv(CheckNext(s, x))
  {
  }

  lemma OriginNew(s: State, x: NewStep)
    requires OriginInv(s) && NewEnabled(s, x)
    ensures OriginInv(NewNext(s, x))
  {
  }

  lemma OriginWatch(s: State, x: WatchStep)
    requires OriginInv(s) && WatchEnabled(s, x)
    ensures OriginInv(WatchNext(s, x))
  {
  }

  lemma OriginTake(s: State, x: TakeStep)
    requires OriginInv(s) && TakeEnabled(s, x)
    ensures OriginInv(TakeNext(s, x))
  {
    OriginLater(s, TakeNext(s, x));
  }

  lemma {:induction false} OriginRun(s: State, steps: seq<Step>)
    requires Inv(s) && OriginInv(s) && CanRun(s, steps)
    ensures OriginInv(Run(s, steps))
    decreases |steps|
  {
    hide Inv, OriginInv;
    if steps != [] {
      InvStep(s, steps[0]);
      OriginStep(s, steps[0]);
      OriginRun(Apply(s, steps[0]), steps[1..]);
    }
  }

  /**
   In every run, when a fired timer's node is looked up and the file's row has
   not been rewritten since the timer was created, the file is checked for real,
   never delayed again.
   */
  lemma FiredLeadsToCheck(s0: State, steps: seq<Step>)
    requires Init(s0) && CanRun(s0, steps)
    requires TakeEnabled(Run(s0, steps), ALookup)
    requires Run(s0, steps).a.item.origin.Fired?
    ensures
      var s := Run(s0, steps);
      var timer := s.a.item.origin.timer;
      var row := Find(s.rows, s.a.item.node.name);
      row.Some? && row.value.timestamp == timer.stamp ==>
        TakeNext(s, ALookup).a == ACheck(s.a.item, row.value.sum)
  {
    hide Init, CanRun, Run, Inv;
    InvInit(s0);
    InitOrigins(s0);
    OriginRun(s0, steps);
  }

  lemma InitOrigins(s: State)
    requires Init(s)
    ensures OriginInv(s)
  {
  }

  // ---------------------------------------------------------------------
  // Nothing delayed is lost.
  // ---------------------------------------------------------------------

  ghost predicate InQueue(s: State, f: string)
  {
    exists i :: 0 <= i < |s.queue| && s.queue[i].node.name == f
  }

  /** The timer can still fire, or has fired and its node waits. */
  ghost predicate Alive(s: State, t: Timer, f: string)
  {
    t in Waiting(s) || InQueue(s, f)
  }

  ghost predicate LostInv(s: State, f: string)
  {
    && (f in s.h.delayed ==> f !in s.ignored)
    && (f in s.h.delayed && !BusyWith(s.a, f) ==>
          Find(s.rows, f).Some? && f in s.tasks && Alive(s, s.tasks[f], f))
    && (f in s.h.delayed && BusyWith(s.a, f) ==>
          Find(s.rows, f).Some? || s.a.AForget? || s.a.AForgetL?)
    && (BusyWith(s.a, f) && (s.a.ANew? || s.a.AInsert? || s.a.ACreated?) ==> f !in s.h.delayed)
    && (BusyWith(s.a, f) && Setting(s.a) ==> Alive(s, s.a.timer, f))
  }

  /** Steps of other threads, and steps on other files. */
  lemma LostElsewhere(s: State, s': State, f: string)
    requires LostInv(s, f)
    requires s'.ignored == s.ignored && (f in s'.h.delayed <==> f in s.h.delayed)
    requires Find(s'.rows, f) == Find(s.rows, f) && SameEntry(s.tasks, s'.tasks, f)
    requires s'.a == s.a || !BusyWith(s.a, f)
    requires BusyWith(s'.a, f) ==> s'.a == s.a || s'.a.AStart?
    requires f in s.tasks && Alive(s, s.tasks[f], f) && !BusyWith(s'.a, f) ==> Alive(s', s.tasks[f], f)
    requires BusyWith(s.a, f) && Setting(s.a) && s'.a == s.a && Alive(s, s.a.timer, f) ==>
               Alive(s', s.a.timer, f)
    ensures LostInv(s', f)
  {
  }

  lemma AliveAppend(s: State, s': State, item: Item, t: Timer, f: string)
    requires Alive(s, t, f) && s'.queue == s.queue + [item]
    requires forall u :: u in Waiting(s) ==> u in Waiting(s') || item.node == u.node
    requires t.node.name == f
    ensures Alive(s', t, f)
  {
    if InQueue(s, f) {
      var i :| 0 <= i < |s.queue| && s.queue[i].node.name == f;
      assert s'.queue[i].node.name == f;
    } else if t !in Waiting(s') {
      assert s'.queue[|s.queue|].node.name == f;
    }
  }

  lemma AliveSame(s: State, s': State, t: Timer, f: string)
    requires Alive(s, t, f) && s'.queue == s.queue && t.node.name == f
    requires t in Waiting(s) ==> t in Waiting(s')
    ensures Alive(s', t, f)
  {
  }

  /** The timers whose survival matters for f carry its name. */
  lemma TimerNames(s: State, f: string)
    requires FileInv(s, f)
    ensures f in s.tasks ==> s.tasks[f].node.name == f
    ensures BusyWith(s.a, f) && Setting(s.a) ==> s.a.timer.node.name == f
  {
  }

  lemma LostWatch(s: State, x: WatchStep, f: string)
    requires FileInv(s, f) && LostInv(s, f) && WatchEnabled(s, x)
    ensures LostInv(WatchNext(s, x), f)
  {
    hide FileInv, Alive, LostInv;
    TimerNames(s, f);
    var s' := WatchNext(s, x);
    assert Waiting(s') == Waiting(s);
    forall t: Timer | Alive(s, t, f) && t.node.name == f
      ensures Alive(s', t, f)
    {
      if x.WEnqueue? {
        AliveAppend(s, s', Item(s.w.node, Event), t, f);
      } else {
        AliveSame(s, s', t, f);
      }
    }
    LostElsewhere(s, s', f);
  }

  lemma LostFire(s: State, x: FireStep, f: string)
    requires FileInv(s, f) && LockInv(s) && LostInv(s, f) && FireEnabled(s, x)
    ensures LostInv(FireNext(s, x), f)
  {
    hide FileInv, Alive, LostInv, LockInv, Waiting;
    TimerNames(s, f);
    FireWaiting(s, x);
    var s' := FireNext(s, x);
    forall t: Timer | Alive(s, t, f) && t.node.name == f
      ensures Alive(s', t, f)
    {
      if x.TCall? {
        var timer := s.pending[s.t.called];
        AliveAppend(s, s', Item(timer.node, Fired(timer)), t, f);
      } else {
        AliveSame(s, s', t, f);
      }
    }
    LostElsewhere(s, s', f);
  }

  lemma FireWaiting(s: State, x: FireStep)
    requires LockInv(s) && FireEnabled(s, x)
    ensures x.TCall? ==> Waiting(s) == [s.pending[s.t.called]] + Waiting(FireNext(s, x))
    ensures !x.TCall? ==> Waiting(FireNext(s, x)) == Waiting(s)
  {
  }

  lemma LostPop(s: State, f: string)
    requires FileInv(s, f) && LostInv(s, f) && TakeEnabled(s, APop)
    ensures LostInv(TakeNext(s, APop), f)
  {
  }

  lemma LostTake(s: State, x: TakeStep, f: string)
    requires FileInv(s, f) && LostInv(s, f) && TakeEnabled(s, x)
    ensures LostInv(TakeNext(s, x), f)
  {
    hide FileInv, Alive, LostInv;
    if x.APop? {
      LostPop(s, f);
    } else if BusyWith(s.a, f) {
      TakeBusy(s, x, f);
    } else {
      var s' := TakeNext(s, x);
      assert Waiting(s') == Waiting(s);
      StillAlive(s, s', f);
      LostElsewhere(s, s', f);
    }
  }

  lemma TakeBusy(s: State, x: TakeStep, f: string)
    requires LostInv(s, f) && TakeEnabled(s, x) && BusyWith(s.a, f)
    ensures LostInv(TakeNext(s, x), f)
  {
  }

  /** The tracked timer of a file stays alive when neither queue nor multimap change. */
  lemma StillAlive(s: State, s': State, f: string)
    requires FileInv(s, f) && s'.queue == s.queue && Waiting(s') == Waiting(s)
    ensures f in s.tasks && Alive(s, s.tasks[f], f) ==> Alive(s', s.tasks[f], f)
  {
  }

  lemma LostNew(s: State, x: NewStep, f: string)
    requires FileInv(s, f) && WorkInv(s) && LostInv(s, f) && NewEnabled(s, x)
    ensures LostInv(NewNext(s, x), f)
  {
  }

  lemma CheckFind(s: State, x: CheckStep, f: string)
    requires WorkInv(s) && CheckEnabled(s, x)
    ensures !BusyWith(s.a, f) ==> Find(CheckNext(s, x).rows, f) == Find(s.rows, f)
    ensures BusyWith(s.a, f) && !x.ADeleteRow? && Find(s.rows, f).Some? ==>
              Find(CheckNext(s, x).rows, f).Some?
  {
    hide WorkInv;
    WorkRow(s);
    if x.AUpdateRow? {
      FindAfterUpdate(s.rows, s.a.item.node.name, s.a.sum, s.clock, f);
    } else if x.ADeleteRow? {
      FindAfterDelete(s.rows, s.a.item.node.name, f);
    }
  }

  lemma CheckBusy(s: State, x: CheckStep, f: string)
    requires WorkInv(s) && LostInv(s, f) && CheckEnabled(s, x) && BusyWith(s.a, f)
    ensures LostInv(CheckNext(s, x), f)
  {
    hide Alive, WorkInv;
    CheckFind(s, x, f);
  }

  lemma CheckOther(s: State, x: CheckStep, f: string)
    requires FileInv(s, f) && WorkInv(s) && LostInv(s, f) && CheckEnabled(s, x) && !BusyWith(s.a, f)
    ensures LostInv(CheckNext(s, x), f)
  {
    hide FileInv, Alive, LostInv, WorkInv;
    CheckFind(s, x, f);
    var s' := CheckNext(s, x);
    assert Waiting(s') == Waiting(s);
    StillAlive(s, s', f);
    LostElsewhere(s, s', f);
  }

  /** Cancelling another file's timer leaves this file's timer alone. */
  lemma CancelOther(s: State, f: string)
    requires TaskIds(s) && WorkInv(s) && FileInv(s, f) && s.a.ACancelL? && !BusyWith(s.a, f)
    requires FileInv(s, s.a.item.node.name) && f in s.tasks && s.tasks[f] in s.pending
    ensures s.tasks[f] in Remove(s.pending, s.a.task)
  {
    var g := s.a.item.node.name;
    assert s.tasks[g] == s.a.task;
    assert s.tasks[f].node.name != s.tasks[g].node.name;
    assert s.tasks[f].id != s.tasks[g].id;
    RemoveMembers(s.pending, s.a.task);
  }

  lemma DelayWaiting(s: State, x: DelayStep)
    requires LockInv(s) && DelayEnabled(s, x)
    ensures x.AAddTimer? ==>
      Waiting(s) == s.pending && Waiting(DelayNext(s, x)) == Timers.Insert(s.pending, DelayNext(s, x).a.timer)
    ensures x.ACancelTimer? ==>
      Waiting(s) == s.pending && Waiting(DelayNext(s, x)) == Remove(s.pending, s.a.task)
    ensures !x.AAddTimer? && !x.ACancelTimer? ==> Waiting(DelayNext(s, x)) == Waiting(s)
  {
  }

  lemma GlobalLocks(s: State)
    requires Global(s)
    ensures LockInv(s)
  {
  }

  lemma StillWaiting(s: State, x: DelayStep, f: string)
    requires DelayEnabled(s, x) && !BusyWith(s.a, f)
    requires Global(s) && WorkInv(s) && FileInv(s, f) && FileInv(s, s.a.item.node.name)
    requires f in s.tasks && s.tasks[f] in Waiting(s)
    ensures s.tasks[f] in Waiting(DelayNext(s, x))
  {
    hide Global, FileInv, PcInv, LockInv;
    GlobalLocks(s);
    DelayWaiting(s, x);
    if x.AAddTimer? {
      InsertMembers(s.pending, DelayNext(s, x).a.timer);
    } else if x.ACancelTimer? {
      TaskIdsOf(s);
      CancelOther(s, f);
    }
  }

  lemma DelayFrame(s: State, x: DelayStep, f: string)
    requires DelayEnabled(s, x) && !BusyWith(s.a, f)
    ensures
      var s' := DelayNext(s, x);
      && s'.ignored == s.ignored && s'.rows == s.rows && s'.queue == s.queue
      && (f in s'.h.delayed <==> f in s.h.delayed) && SameEntry(s.tasks, s'.tasks, f)
      && !BusyWith(s'.a, f)
  {
  }

  lemma DelayOther(s: State, x: DelayStep, f: string)
    requires LostInv(s, f) && DelayEnabled(s, x) && !BusyWith(s.a, f)
    requires Global(s) && WorkInv(s) && FileInv(s, f) && FileInv(s, s.a.item.node.name)
    ensures LostInv(DelayNext(s, x), f)
  {
    hide FileInv, Alive, LostInv, Waiting, Global, PcInv, DelayNext;
    DelayFrame(s, x, f);
    TimerNames(s, f);
    var s' := DelayNext(s, x);
    if f in s.tasks && Alive(s, s.tasks[f], f) {
      if s.tasks[f] in Waiting(s) {
        StillWaiting(s, x, f);
      }
      AliveSame(s, s', s.tasks[f], f);
    }
    LostElsewhere(s, s', f);
  }

  /** What a delay step on the file itself changes. */
  lemma DelayBusyFrame(s: State, x: DelayStep, f: string)
    requires DelayEnabled(s, x) && BusyWith(s.a, f)
    ensures
      var s' := DelayNext(s, x);
      && s'.ignored == s.ignored && s'.rows == s.rows && s'.queue == s.queue
      && !(s'.a.ANew? || s'.a.AInsert? || s'.a.ACreated?) && !(s.a.AForget? || s.a.AForgetL?)
      && (x.ASetTask? ==>
            s'.h.delayed == s.h.delayed + {f} && !BusyWith(s'.a, f)
            && f in s'.tasks && s'.tasks[f] == s.a.timer && Setting(s.a))
      && (!x.ASetTask? ==> s'.h.delayed == s.h.delayed && BusyWith(s'.a, f))
      && (BusyWith(s'.a, f) && Setting(s'.a) ==> x.AAddTimer? || (x.ALockSet? && Setting(s.a) && s'.a.timer == s.a.timer))
  {
  }

  /** The file whose timer is being recorded has a row and is not ignored. */
  lemma SettingFacts(s: State, f: string)
    requires FileInv(s, f) && BusyWith(s.a, f) && Setting(s.a)
    ensures Find(s.rows, f).Some? && f !in s.ignored
  {
  }

  lemma DelayBusy(s: State, x: DelayStep, f: string)
    requires LockInv(s) && FileInv(s, f) && LostInv(s, f) && DelayEnabled(s, x) && BusyWith(s.a, f)
    ensures LostInv(DelayNext(s, x), f)
  {
    hide FileInv, LockInv, Alive, DelayNext, Waiting, BusyWith;
    DelayBusyFrame(s, x, f);
    TimerNames(s, f);
    DelayWaiting(s, x);
    var s' := DelayNext(s, x);
    if x.AAddTimer? {
      NewTimerAlive(s, f);
    } else if Setting(s.a) {
      SettingFacts(s, f);
      SettingStep(s, x, f);
      AliveSame(s, s', s.a.timer, f);
    }
  }

  lemma SettingStep(s: State, x: DelayStep, f: string)
    requires DelayEnabled(s, x) && Setting(s.a)
    ensures !x.AAddTimer? && !x.ACancelTimer?
  {
  }

  lemma NewTimerAlive(s: State, f: string)
    requires LockInv(s) && DelayEnabled(s, AAddTimer)
    ensures Setting(DelayNext(s, AAddTimer).a)
    ensures Alive(DelayNext(s, AAddTimer), DelayNext(s, AAddTimer).a.timer, f)
  {
  }

  lemma LostStep(s: State, step: Step, f: string)
    requires Inv(s) && LostInv(s, f) && Enabled(s, step)
    ensures LostInv(Apply(s, step), f)
  {
    hide LostInv, PcInv, RowInv, PendingInv, TrackedInv, LockInv, Global;
    assert FileInv(s, f);
    if Working(s.a).Some? {
      assert FileInv(s, Working(s.a).value.node.name);
    }
    LocksOf(s);
    match step
    case ByWatch(x) => LostWatch(s, x, f);
    case ByFire(x) => LostFire(s, x, f);
    case ByTake(x) => LostTake(s, x, f);
    case ByNew(x) => LostNew(s, x, f);
    case ByDelay(x) => if BusyWith(s.a, f) { DelayBusy(s, x, f); } else { DelayOther(s, x, f); }
    case ByCheck(x) => if BusyWith(s.a, f) { CheckBusy(s, x, f); } else { CheckOther(s, x, f); }
  }

  lemma LocksOf(s: State)
    requires Inv(s)
    ensures LockInv(s)
  {
  }

  lemma {:induction false} LostRun(s: State, steps: seq<Step>, f: string)
    requires Inv(s) && LostInv(s, f) && CanRun(s, steps)
    ensures LostInv(Run(s, steps), f)
    decreases |steps|
  {
    hide Inv, LostInv;
    if steps != [] {
      InvStep(s, steps[0]);
      LostStep(s, steps[0], f);
      LostRun(Apply(s, steps[0]), steps[1..], f);
    }
  }

  /**
   In every run, as long as a delayed file has not been checked in full, its
   tracked timer is pending, a node for it is queued, or the analysis thread is
   working on it.
   */
  lemma NoDelayedEventLost(s0: State, steps: seq<Step>, f: string)
    requires Init(s0) && CanRun(s0, steps)
    ensures
      var s := Run(s0, steps);
      f in s.h.delayed ==>
        || (f in s.tasks && s.tasks[f] in Waiting(s))
        || InQueue(s, f)
        || BusyWith(s.a, f)
  {
    hide Init, CanRun, Run, Inv;
    InvInit(s0);
    InitLost(s0, f);
    LostRun(s0, steps, f);
  }

  lemma InitLost(s: State, f: string)
    requires Init(s)
    ensures LostInv(s, f)
  {
  }
}
