/**
 FileAnalysis::do_analysis of src/file_analysis.cpp as a program over its
 objects, and the same call as an uninterrupted run of the step system.
 */
module FileAnalysis {
  import opened Options
  import opened FileDb
  import opened Timers
  import opened Monitor
  import opened MonitorExample

  /** The fields that do_analysis changes. */
  datatype View = View(
    rows: seq<Row>, pending: seq<Timer>, tasks: map<string, Timer>, nextId: nat, log: seq<Alert>)

  ghost function ViewOf(s: State): View
  {
    View(s.rows, s.pending, s.tasks, s.nextId, s.log)
  }

  /** The delay branch: replace the file's timer by one that expires an interval from now. */
  function Delayed(v: View, interval: nat, node: Node, now: int, stamp: int): View
  {
    var timer := Timer(interval + now, v.nextId, node, stamp);
    var rest := if node.name in v.tasks then Remove(v.pending, v.tasks[node.name]) else v.pending;
    v.(pending := Timers.Insert(rest, timer),
       tasks := v.tasks[node.name := timer], nextId := v.nextId + 1)
  }

  /** The check branch, with the clock at its later reading. */
  function Checked(v: View, row: Row, later: int, o: Observation): View
  {
    match o
    case Missing =>
      v.(rows := Delete(v.rows, row.name), tasks := v.tasks - {row.name},
         log := v.log + [Deleted(row.name, later, row.timestamp, row.sum)])
    case Checksum(sum) =>
      if sum == row.sum then v.(tasks := v.tasks - {row.name})
      else v.(rows := Update(v.rows, row.name, sum, later), tasks := v.tasks - {row.name},
              log := v.log + [Changed(row.name, later, later, row.sum, sum)])
  }

  /** do_analysis on a file that the filters let pass. */
  function Analysed(v: View, interval: nat, node: Node, now: int, later: int, o: Observation): View
  {
    match Find(v.rows, node.name)
    case None =>
      v.(rows := FileDb.Insert(v.rows, node.name, SumOf(o), later),
         log := v.log + [Created(node.name, later, later, SumOf(o))])
    case Some(row) =>
      if interval != 0 && now < row.timestamp + interval
      then Delayed(v, interval, node, now, row.timestamp)
      else Checked(v, row, later, o)
  }

  class Analyser {
    const db: FileDB
    const timers: TaskTimerManager
    var interval: nat
    var tasks: map<string, Timer>
    var globalId: nat
    var log: seq<Alert>

    ghost function Current(): View
      reads this, db, timers
    {
      View(db.rows, timers.callbacks, tasks, globalId, log)
    }

    constructor (db: FileDB, timers: TaskTimerManager, interval: nat)
      ensures this.db == db && this.timers == timers && this.interval == interval
      ensures tasks == map[] && globalId == 0 && log == []
    {
      this.db, this.timers, this.interval := db, timers, interval;
      tasks, globalId, log := map[], 0, [];
    }

    /**
     do_analysis. `cares` is the verdict of the ignore and grep filters, `now` the
     first reading of the clock, `later` the reading of the database call and the
     alert, `o` what get_checksum reports.
     */
    method DoAnalysis(node: Node, cares: bool, now: int, later: int, o: Observation)
      requires timers.Valid()
      modifies this, db, timers
      ensures timers.Valid() && interval == old(interval)
      ensures Current() == if cares then Analysed(old(Current()), interval, node, now, later, o) else old(Current())
    {
      hide Delayed, Checked, Find, FileDb.Insert, Sorted;
      if !cares {
        return;
      }
      var found, sum, timestamp := db.FindRow(node.name);
      if !found {
        var checksum := SumOf(o);
        db.InsertRow(node.name, checksum, later);
        log := log + [Created(node.name, later, later, checksum)];
        return;
      }
      if interval != 0 && now < timestamp + interval {
        DelayCheck(node, now, timestamp);
      } else {
        Check(Row(node.name, sum, timestamp), later, o);
      }
    }

    /** The delay branch and delay_check. */
    method DelayCheck(node: Node, now: int, timestamp: int)
      requires timers.Valid()
      modifies this`tasks, this`globalId, timers
      ensures timers.Valid()
      ensures Current() == Delayed(old(Current()), interval, node, now, timestamp)
    {
      hide Remove, Timers.Insert, Sorted;
      if node.name in tasks {
        timers.Cancel(tasks[node.name]);
      }
      var timer := Timer(interval + now, globalId, node, timestamp);
      globalId := globalId + 1;
      timers.Add(timer);
      tasks := tasks[node.name := timer];
    }

    /** The full check. */
    method Check(row: Row, later: int, o: Observation)
      modifies this`tasks, this`log, db
      ensures Current() == Checked(old(Current()), row, later, o)
    {
      hide Update, Delete;
      if o.Missing? {
        log := log + [Deleted(row.name, later, row.timestamp, row.sum)];
        db.DeleteRows(row.name);
      } else if o.sum != row.sum {
        db.UpdateRows(row.name, o.sum, later);
        log := log + [Changed(row.name, later, later, row.sum, o.sum)];
      }
      tasks := tasks - {row.name};
    }
  }

  // ---------------------------------------------------------------------
  // The same call in the step system.
  // ---------------------------------------------------------------------

  /** Cancel, add and record: the delay branch run without interruption. */
  lemma DelayAlone(s0: State, s: State, item: Item, now: int, stamp: int) returns (s': State)
    requires Reaches(s0, s) && s.a == AGet(item, now, stamp)
    requires s.mutex.Free? && s.callbacksMutex.Free?
    ensures Reaches(s0, s') && s'.a.AIdle?
    ensures ViewOf(s') == Delayed(ViewOf(s), s.interval, item.node, now, stamp)
  {
    hide Reaches, Timers.Insert, Remove;
    if item.node.name !in s.tasks {
      s' := Delay(s0, s, item, now, stamp);
    } else {
      var s1 := DelayNext(s, ALockGet);
      Then(s0, s, ByDelay(ALockGet));
      var s2 := DelayNext(s1, AReadTask);
      Then(s0, s1, ByDelay(AReadTask));
      var s3 := CancelAlone(s0, s2);
      s' := AddAlone(s0, s3);
    }
  }

  lemma CancelAlone(s0: State, s: State) returns (s': State)
    requires Reaches(s0, s) && s.a.ACancel? && s.callbacksMutex.Free?
    ensures Reaches(s0, s')
    ensures s' == s.(a := AAdd(s.a.item, s.a.now, s.a.stamp), pending := Remove(s.pending, s.a.task),
                     h := s'.h)
  {
    hide Reaches, Remove;
    var s1 := DelayNext(s, ALockCancel);
    Then(s0, s, ByDelay(ALockCancel));
    s' := DelayNext(s1, ACancelTimer);
    Then(s0, s1, ByDelay(ACancelTimer));
  }

  lemma AddAlone(s0: State, s: State) returns (s': State)
    requires Reaches(s0, s) && s.a.AAdd? && s.callbacksMutex.Free? && s.mutex.Free?
    ensures Reaches(s0, s')
    ensures
      var timer := Timer(s.interval + s.a.now, s.nextId, s.a.item.node, s.a.stamp);
      s' == s.(a := AIdle, tasks := s.tasks[s.a.item.node.name := timer], nextId := s.nextId + 1,
               pending := Timers.Insert(s.pending, timer), h := s'.h)
  {
    hide Reaches, Timers.Insert;
    var s1 := DelayNext(s, ALockAdd);
    Then(s0, s, ByDelay(ALockAdd));
    var s2 := DelayNext(s1, AAddTimer);
    Then(s0, s1, ByDelay(AAddTimer));
    var s3 := DelayNext(s2, ALockSet);
    Then(s0, s2, ByDelay(ALockSet));
    s' := DelayNext(s3, ASetTask);
    Then(s0, s3, ByDelay(ASetTask));
  }

  /** The check branch run without interruption. */
  lemma CheckAlone(s0: State, s: State, item: Item, row: Row, o: Observation) returns (s': State)
    requires Reaches(s0, s) && s.a == ACheck(item, row.sum) && s.mutex.Free?
    requires Find(s.rows, item.node.name) == Some(row)
    ensures Reaches(s0, s') && s'.a.AIdle?
    ensures ViewOf(s') == Checked(ViewOf(s), row, s.clock, o)
  {
    hide Reaches, Update, Delete;
    var s1 := CheckNext(s, AObserve(o));
    Then(s0, s, ByCheck(AObserve(o)));
    if o.Missing? {
      var s2 := CheckNext(s1, AAlertDeleted);
      Then(s0, s1, ByCheck(AAlertDeleted));
      var s3 := CheckNext(s2, ADeleteRow);
      Then(s0, s2, ByCheck(ADeleteRow));
      s' := ForgetAlone(s0, s3);
    } else if o.sum != row.sum {
      FindAfterUpdate(s.rows, row.name, o.sum, s.clock, row.name);
      var s2 := CheckNext(s1, AUpdateRow);
      Then(s0, s1, ByCheck(AUpdateRow));
      var s3 := CheckNext(s2, AAlertChanged);
      Then(s0, s2, ByCheck(AAlertChanged));
      s' := ForgetAlone(s0, s3);
    } else {
      s' := ForgetAlone(s0, s1);
    }
  }

  lemma ForgetAlone(s0: State, s: State) returns (s': State)
    requires Reaches(s0, s) && s.a.AForget? && s.mutex.Free?
    ensures Reaches(s0, s')
    ensures s' == s.(a := AIdle, tasks := s.tasks - {s.a.item.node.name}, h := s'.h)
  {
    hide Reaches;
    var s1 := CheckNext(s, ALockForget);
    Then(s0, s, ByCheck(ALockForget));
    s' := CheckNext(s1, AForgetTask);
    Then(s0, s1, ByCheck(AForgetTask));
  }

  /** A file without a row, run without interruption. */
  lemma NewAlone(s0: State, s: State, item: Item, o: Observation) returns (s': State)
    requires Reaches(s0, s) && s.a == ANew(item) && Find(s.rows, item.node.name).None?
    ensures Reaches(s0, s') && s'.a.AIdle?
    ensures ViewOf(s') == ViewOf(s).(
              rows := FileDb.Insert(s.rows, item.node.name, SumOf(o), s.clock),
              log := s.log + [Created(item.node.name, s.clock, s.clock, SumOf(o))])
  {
    hide Reaches, FileDb.Insert;
    FindAfterInsert(s.rows, item.node.name, SumOf(o), s.clock, item.node.name);
    var s1 := NewNext(s, AObserveNew(o));
    Then(s0, s, ByNew(AObserveNew(o)));
    var s2 := NewNext(s1, AInsertRow);
    Then(s0, s1, ByNew(AInsertRow));
    s' := NewNext(s2, AAlertCreated);
    Then(s0, s2, ByNew(AAlertCreated));
  }

  /**
   What DoAnalysis computes is what the step system computes when the analysis
   thread runs from the lookup to the end with the clock at `later` and no other
   thread in between.
   */
  lemma AnalysisIsARun(s0: State, s: State, o: Observation) returns (s': State)
    requires Reaches(s0, s) && s.a.AFind? && s.mutex.Free? && s.callbacksMutex.Free?
    ensures Reaches(s0, s') && s'.a.AIdle?
    ensures ViewOf(s') == Analysed(ViewOf(s), s.interval, s.a.item.node, s.a.now, s.clock, o)
  {
    hide Reaches, Delayed, Checked, FileDb.Insert;
    var item := s.a.item;
    var row := Find(s.rows, item.node.name);
    var s1 := TakeNext(s, ALookup);
    Then(s0, s, ByTake(ALookup));
    if row.None? {
      s' := NewAlone(s0, s1, item, o);
    } else if s.interval != 0 && s.a.now < row.value.timestamp + s.interval {
      s' := DelayAlone(s0, s1, item, s.a.now, row.value.timestamp);
    } else {
      s' := CheckAlone(s0, s1, item, row.value, o);
    }
  }
}
