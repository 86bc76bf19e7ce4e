/**
 The alert log over whole runs: its order, its rate, and its agreement with the
 table and with what was observed.
 */
module MonitorAlerts {
  import opened Options
  import opened FileDb
  import opened Timers
  import opened Monitor
  import opened MonitorLocks
  import opened MonitorTimers
  import opened MonitorFiles

  /** What the alerts of a file say about it. */
  datatype Life = Absent | Present(sum: string) | Broken

  /** CREATED, then CHANGED with a different checksum any number of times, then DELETED. */
  function Advance(life: Life, alert: Alert): Life
  {
    match alert
    case Created(_, _, _, sum) => if life.Absent? then Present(sum) else Broken
    case Changed(_, _, _, was, sum) =>
      if life == Present(was) && was != sum then Present(sum) else Broken
    case Deleted(_, _, _, was) => if life == Present(was) then Absent else Broken
  }

  function LifeOf(initial: seq<Row>, log: seq<Alert>, f: string): Life
    decreases |log|
  {
    if log == [] then
      match Find(initial, f)
      case None => Absent
      case Some(row) => Present(row.sum)
    else
      var before := LifeOf(initial, log[..|log| - 1], f);
      var alert := log[|log| - 1];
      if alert.name == f then Advance(before, alert) else before
  }

  /** What the log should say of f, given the table and the analysis thread's position. */
  function Expected(s: State, f: string): Life
  {
    if BusyWith(s.a, f) && (s.a.ACreated? || s.a.ADelete?) then Absent
    else if BusyWith(s.a, f) && s.a.AChanged? then Present(s.a.was)
    else
      match Find(s.rows, f)
      case None => Absent
      case Some(row) => Present(row.sum)
  }

  /** Every alert of f that left a row is at least an interval older than x. */
  ghost predicate OlderThan(s: State, f: string, x: int)
  {
    forall i :: 0 <= i < |s.log| && s.log[i].name == f && !s.log[i].Deleted? ==>
      s.log[i].stamp + s.interval <= x
  }

  /** An alert never comes less than an interval after the timestamp of an earlier one. */
  ghost predicate Rate(s: State, f: string)
  {
    forall i, j ::
      (0 <= i < j < |s.log| && s.log[i].name == f && s.log[j].name == f && !s.log[i].Deleted?) ==>
        s.log[j].time >= s.log[i].stamp + s.interval
  }

  predicate Alerting(a: APc)
  {
    a.ANew? || a.AInsert? || a.ACreated? || a.ACheck? || a.AGone? || a.AUpdate? || a.AChanged?
  }

  ghost predicate RateInv(s: State, f: string)
  {
    && Rate(s, f)
    && (forall i :: 0 <= i < |s.log| && s.log[i].name == f && !s.log[i].Deleted? ==>
          f in s.h.last && s.log[i].stamp <= s.h.last[f])
    && (BusyWith(s.a, f) && Alerting(s.a) ==> OlderThan(s, f, s.h.seen))
  }

  ghost predicate LifeInv(s: State, f: string)
  {
    LifeOf(s.h.initial, s.log, f) == Expected(s, f)
  }

  /**
   The checksum in the row once an observation has been acted upon: only a full check
   that misses the file leaves no row; a new file that is missing gets a row without a checksum.
   */
  function RowAfter(x: Sighting): Option<string>
  {
    if x.full && x.o.Missing? then None else Some(SumOf(x.o))
  }

  ghost predicate WantInv(s: State, f: string)
  {
    f in s.h.observed ==>
      var want := RowAfter(s.h.observed[f]);
      if BusyWith(s.a, f) && s.a.AInsert? then want == Some(s.a.sum)
      else if BusyWith(s.a, f) && s.a.AUpdate? then want == Some(s.a.sum)
      else if BusyWith(s.a, f) && (s.a.AGone? || s.a.ADelete?) then want == None
      else want == match Find(s.rows, f) case None => None case Some(row) => Some(row.sum)
  }

  ghost predicate AlertInv(s: State, f: string)
  {
    LifeInv(s, f) && RateInv(s, f) && WantInv(s, f)
  }

  /** Steps that leave the log, and the file's row, alone. */
  lemma AlertElsewhere(s: State, s': State, f: string)
    requires AlertInv(s, f) && s'.interval == s.interval && s'.h.initial == s.h.initial
    requires s'.log == s.log && s'.h.seen >= s.h.seen
    requires Find(s'.rows, f) == Find(s.rows, f)
    requires SameEntry(s.h.last, s'.h.last, f) && SameEntry(s.h.observed, s'.h.observed, f)
    requires s'.a == s.a || (!BusyWith(s.a, f) && (BusyWith(s'.a, f) ==> s'.a.AStart?))
    ensures AlertInv(s', f)
  {
  }

  lemma LifeAppend(initial: seq<Row>, log: seq<Alert>, alert: Alert, f: string)
    ensures LifeOf(initial, log + [alert], f)
         == if alert.name == f then Advance(LifeOf(initial, log, f), alert) else LifeOf(initial, log, f)
  {
    hide Advance;
    assert (log + [alert])[..|log|] == log;
  }

  /** An alert for another file. */
  lemma OtherAlert(s: State, s': State, alert: Alert, f: string)
    requires AlertInv(s, f) && s'.interval == s.interval && s'.h == s.h && s'.rows == s.rows
    requires s'.log == s.log + [alert] && alert.name != f
    requires !BusyWith(s.a, f) && !BusyWith(s'.a, f)
    ensures AlertInv(s', f)
  {
    hide LifeOf, RateInv, BusyWith;
    LifeAppend(s.h.initial, s.log, alert, f);
    OtherRate(s, s', alert, f);
  }

  lemma OtherRate(s: State, s': State, alert: Alert, f: string)
    requires RateInv(s, f) && s'.interval == s.interval && s'.h == s.h
    requires s'.log == s.log + [alert] && alert.name != f && !BusyWith(s'.a, f)
    ensures RateInv(s', f)
  {
    hide BusyWith;
    assert forall i :: 0 <= i < |s.log| ==> s'.log[i] == s.log[i];
  }

  /** An alert for the file itself. */
  lemma OwnAlert(s: State, s': State, alert: Alert, f: string)
    requires LifeInv(s, f) && RateInv(s, f) && s'.interval == s.interval && s'.h == s.h
    requires s'.log == s.log + [alert] && alert.name == f && alert.time == s.clock
    requires !alert.Deleted? ==> f in s.h.last && alert.stamp == s.h.last[f]
    requires BusyWith(s.a, f) && Alerting(s.a) && s.h.seen <= s.clock
    requires BusyWith(s'.a, f) ==> !Alerting(s'.a)
    requires Advance(Expected(s, f), alert) == Expected(s', f)
    ensures LifeInv(s', f) && RateInv(s', f)
  {
    hide LifeOf, RateInv, Advance, Expected, BusyWith, Alerting;
    LifeAppend(s.h.initial, s.log, alert, f);
    OwnRate(s, s', alert, f);
  }

  lemma OwnRate(s: State, s': State, alert: Alert, f: string)
    requires RateInv(s, f) && s'.interval == s.interval && s'.h == s.h
    requires s'.log == s.log + [alert] && alert.name == f && alert.time == s.clock
    requires !alert.Deleted? ==> f in s.h.last && alert.stamp == s.h.last[f]
    requires BusyWith(s.a, f) && Alerting(s.a) && s.h.seen <= s.clock
    requires BusyWith(s'.a, f) ==> !Alerting(s'.a)
    ensures RateInv(s', f)
  {
    hide BusyWith, Alerting;
    assert forall i :: 0 <= i < |s.log| ==> s'.log[i] == s.log[i];
  }

  /** Steps on the file that raise no alert. */
  lemma RateSame(s: State, s': State, f: string)
    requires RateInv(s, f) && s'.log == s.log && s'.interval == s.interval
    requires s'.h.seen >= s.h.seen && BusyWith(s.a, f)
    requires f in s.h.last ==> f in s'.h.last && s'.h.last[f] >= s.h.last[f]
    requires BusyWith(s'.a, f) && Alerting(s'.a) ==>
               Alerting(s.a) || (f in s.h.last ==> s.h.last[f] + s.interval <= s'.h.seen)
    ensures RateInv(s', f)
  {
  }

  lemma AlertWatch(s: State, x: WatchStep, f: string)
    requires AlertInv(s, f) && WatchEnabled(s, x)
    ensures AlertInv(WatchNext(s, x), f)
  {
    hide AlertInv;
    AlertElsewhere(s, WatchNext(s, x), f);
  }

  lemma AlertFire(s: State, x: FireStep, f: string)
    requires AlertInv(s, f) && FireEnabled(s, x)
    ensures AlertInv(FireNext(s, x), f)
  {
    hide AlertInv;
    AlertElsewhere(s, FireNext(s, x), f);
  }

  lemma TakeOther(s: State, x: TakeStep, f: string)
    requires FileInv(s, f) && AlertInv(s, f) && TakeEnabled(s, x) && !BusyWith(s.a, f)
    ensures AlertInv(TakeNext(s, x), f)
  {
    hide AlertInv, FileInv;
    SeenBound(s, f);
    AlertElsewhere(s, TakeNext(s, x), f);
  }

  lemma TakeBusy(s: State, x: TakeStep, f: string)
    requires RowInv(s, f) && AlertInv(s, f) && TakeEnabled(s, x) && BusyWith(s.a, f)
    ensures AlertInv(TakeNext(s, x), f)
  {
  }

  lemma NewOther(s: State, x: NewStep, f: string)
    requires WorkInv(s) && AlertInv(s, f) && NewEnabled(s, x) && !BusyWith(s.a, f)
    ensures AlertInv(NewNext(s, x), f)
  {
    hide AlertInv, WorkInv;
    WorkRow(s);
    if x.AInsertRow? {
      FindAfterInsert(s.rows, s.a.item.node.name, s.a.sum, s.clock, f);
    }
    var s' := NewNext(s, x);
    if x.AAlertCreated? {
      OtherAlert(s, s', s'.log[|s.log|], f);
    } else {
      AlertElsewhere(s, s', f);
    }
  }

  lemma NewBusy(s: State, x: NewStep, f: string)
    requires FileInv(s, f) && AlertInv(s, f) && NewEnabled(s, x) && BusyWith(s.a, f)
    ensures AlertInv(NewNext(s, x), f)
  {
    hide PendingInv, TrackedInv, LifeOf, RateInv;
    var s' := NewNext(s, x);
    if x.AAlertCreated? {
      OwnAlert(s, s', s'.log[|s.log|], f);
    } else {
      if x.AInsertRow? {
        FindAfterInsert(s.rows, f, s.a.sum, s.clock, f);
      }
      RateSame(s, s', f);
    }
  }

  lemma DelayBusy(s: State, x: DelayStep, f: string)
    requires AlertInv(s, f) && DelayEnabled(s, x) && BusyWith(s.a, f)
    ensures AlertInv(DelayNext(s, x), f)
  {
    hide LifeOf, RateInv;
    RateSame(s, DelayNext(s, x), f);
  }

  lemma DelayOther(s: State, x: DelayStep, f: string)
    requires AlertInv(s, f) && DelayEnabled(s, x) && !BusyWith(s.a, f)
    ensures AlertInv(DelayNext(s, x), f)
  {
    hide AlertInv;
    AlertElsewhere(s, DelayNext(s, x), f);
  }

  lemma CheckOther(s: State, x: CheckStep, f: string)
    requires WorkInv(s) && AlertInv(s, f) && CheckEnabled(s, x) && !BusyWith(s.a, f)
    ensures AlertInv(CheckNext(s, x), f)
  {
    hide AlertInv, WorkInv;
    WorkRow(s);
    if x.AUpdateRow? {
      FindAfterUpdate(s.rows, s.a.item.node.name, s.a.sum, s.clock, f);
    } else if x.ADeleteRow? {
      FindAfterDelete(s.rows, s.a.item.node.name, f);
    }
    var s' := CheckNext(s, x);
    if x.AAlertDeleted? || x.AAlertChanged? {
      OtherAlert(s, s', s'.log[|s.log|], f);
    } else {
      AlertElsewhere(s, s', f);
    }
  }

  lemma CheckAlerts(s: State, x: CheckStep, f: string)
    requires FileInv(s, f) && AlertInv(s, f) && CheckEnabled(s, x) && BusyWith(s.a, f)
    requires x.AAlertDeleted? || x.AAlertChanged?
    ensures AlertInv(CheckNext(s, x), f)
  {
    hide PendingInv, TrackedInv, LifeOf, RateInv;
    var s' := CheckNext(s, x);
    OwnAlert(s, s', s'.log[|s.log|], f);
  }

  lemma CheckRows(s: State, x: CheckStep, f: string)
    requires FileInv(s, f) && AlertInv(s, f) && CheckEnabled(s, x) && BusyWith(s.a, f)
    requires x.AUpdateRow? || x.ADeleteRow?
    ensures AlertInv(CheckNext(s, x), f)
  {
    hide PendingInv, TrackedInv, LifeOf, RateInv;
    RateSame(s, CheckNext(s, x), f);
    if x.AUpdateRow? {
      FindAfterUpdate(s.rows, f, s.a.sum, s.clock, f);
    } else {
      FindAfterDelete(s.rows, f, f);
    }
  }

  lemma CheckQuiet(s: State, x: CheckStep, f: string)
    requires FileInv(s, f) && AlertInv(s, f) && CheckEnabled(s, x) && BusyWith(s.a, f)
    requires x.AObserve? || x.ALockForget? || x.AForgetTask?
    ensures AlertInv(CheckNext(s, x), f)
  {
    hide PendingInv, TrackedInv, LifeOf, RateInv;
    RateSame(s, CheckNext(s, x), f);
  }

  lemma CheckBusy(s: State, x: CheckStep, f: string)
    requires FileInv(s, f) && AlertInv(s, f) && CheckEnabled(s, x) && BusyWith(s.a, f)
    ensures AlertInv(CheckNext(s, x), f)
  {
    hide FileInv, AlertInv;
    if x.AAlertDeleted? || x.AAlertChanged? {
      CheckAlerts(s, x, f);
    } else if x.AUpdateRow? || x.ADeleteRow? {
      CheckRows(s, x, f);
    } else {
      CheckQuiet(s, x, f);
    }
  }

  lemma AlertStep(s: State, step: Step, f: string)
    requires Inv(s) && AlertInv(s, f) && Enabled(s, step)
    ensures AlertInv(Apply(s, step), f)
  {
    hide AlertInv, PcInv, RowInv, PendingInv, TrackedInv, Global;
    assert FileInv(s, f);
    if Working(s.a).Some? {
      assert FileInv(s, Working(s.a).value.node.name);
    }
    match step
    case ByWatch(x) => AlertWatch(s, x, f);
    case ByFire(x) => AlertFire(s, x, f);
    case ByTake(x) => if BusyWith(s.a, f) { TakeBusy(s, x, f); } else { TakeOther(s, x, f); }
    case ByNew(x) => if BusyWith(s.a, f) { NewBusy(s, x, f); } else { NewOther(s, x, f); }
    case ByDelay(x) => if BusyWith(s.a, f) { DelayBusy(s, x, f); } else { DelayOther(s, x, f); }
    case ByCheck(x) => if BusyWith(s.a, f) { CheckBusy(s, x, f); } else { CheckOther(s, x, f); }
  }

  lemma {:induction false} AlertRun(s: State, steps: seq<Step>, f: string)
    requires Inv(s) && AlertInv(s, f) && CanRun(s, steps)
    ensures AlertInv(Run(s, steps), f) && Inv(Run(s, steps))
    decreases |steps|
  {
    hide Inv, AlertInv;
    if steps != [] {
      InvStep(s, steps[0]);
      AlertStep(s, steps[0], f);
      AlertRun(Apply(s, steps[0]), steps[1..], f);
    }
  }

  lemma InitAlerts(s: State, f: string)
    requires Init(s)
    ensures AlertInv(s, f)
  {
  }

  lemma AlertsInRun(s0: State, steps: seq<Step>, f: string)
    requires Init(s0) && CanRun(s0, steps)
    ensures Inv(Run(s0, steps)) && AlertInv(Run(s0, steps), f)
  {
    hide Init, CanRun, Run, Inv, AlertInv;
    InvInit(s0);
    InitAlerts(s0, f);
    AlertRun(s0, steps, f);
  }

  /**
   Rate limit over every run: from the timestamp stored with a CREATED or CHANGED
   alert of a file to any later alert of that file at least the interval passes.
   */
  lemma RateLimit(s0: State, steps: seq<Step>, i: nat, j: nat)
    requires Init(s0) && CanRun(s0, steps)
    requires i < j < |Run(s0, steps).log|
    requires Run(s0, steps).log[i].name == Run(s0, steps).log[j].name
    requires !Run(s0, steps).log[i].Deleted?
    ensures
      var s := Run(s0, steps);
      s.log[j].time - s.log[i].stamp >= s.interval
  {
    hide Init, CanRun, Run, Inv, LifeInv, WantInv;
    AlertsInRun(s0, steps, Run(s0, steps).log[i].name);
  }

  /**
   Order of alerts over every run: the alerts of a file follow CREATED CHANGED*
   DELETED (from the middle if its row pre-exists), a CHANGED always reports a
   checksum different from the one last reported, and the table keeps at most
   one row per name.
   */
  lemma AlertOrder(s0: State, steps: seq<Step>, f: string)
    requires Init(s0) && CanRun(s0, steps)
    ensures
      var s := Run(s0, steps);
      && Unique(s.rows)
      && !LifeOf(s.h.initial, s.log, f).Broken?
      && (!BusyWith(s.a, f) ==>
            LifeOf(s.h.initial, s.log, f)
            == match Find(s.rows, f) case None => Absent case Some(row) => Present(row.sum))
  {
    hide Init, CanRun, Run, Inv, RateInv, WantInv, Unique, LifeOf;
    AlertsInRun(s0, steps, f);
    UniqueIn(Run(s0, steps));
  }

  lemma UniqueIn(s: State)
    requires Inv(s)
    ensures Unique(s.rows)
  {
  }

  /**
   Once a file has been observed and the thread has moved on, it has no row exactly when
   the last observation missed it and was made by a full check; else the row holds what
   was observed, with an empty checksum for a new file that was missing.
   */
  lemma RowIsLastObservation(s0: State, steps: seq<Step>, f: string)
    requires Init(s0) && CanRun(s0, steps)
    ensures
      var s := Run(s0, steps);
      f in s.h.observed && !BusyWith(s.a, f) ==>
        var last, row := s.h.observed[f], Find(s.rows, f);
        && (row.None? <==> last.o.Missing? && last.full)
        && (row.Some? ==> row.value.sum == SumOf(last.o))
  {
    hide Init, CanRun, Run, Inv, RateInv, LifeInv;
    AlertsInRun(s0, steps, f);
  }
}
