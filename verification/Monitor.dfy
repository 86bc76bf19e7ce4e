/**
 The debounced alert protocol of src/file_analysis.cpp as a step system: a
 watcher thread that enqueues nodes, one analysis thread, and the timer thread
 of src/TaskTimerManager.hpp. A step either acquires one mutex, or runs the
 code of a critical section and releases it, or is a piece of thread-local
 code between two reads of the clock.
 */
module Monitor {
  import opened Options
  import opened FileDb
  import opened Timers

  /** A queued node, with where it came from as history. */
  datatype Origin = Event | Fired(timer: Timer)
  datatype Item = Item(node: Node, origin: Origin)

  /** What get_checksum reports: ENOENT, or a checksum ("" on any other failure). */
  datatype Observation = Missing | Checksum(sum: string)

  function SumOf(o: Observation): string
  {
    match o
    case Missing => ""
    case Checksum(sum) => sum
  }

  /**
   An alert: the time at which it is raised, the timestamp its row then carries,
   and the checksums before and after.
   */
  datatype Alert =
    | Created(name: string, time: int, stamp: int, sum: string)
    | Changed(name: string, time: int, stamp: int, was: string, sum: string)
    | Deleted(name: string, time: int, stamp: int, was: string)

  /** An observation, and whether a full check made it or the handling of a file without a row. */
  datatype Sighting = Sighting(o: Observation, full: bool)

  datatype Owner = Free | Watcher | Analysis | TimerThread

  /** The analysis thread. States ending in L hold the mutex named in the comment. */
  datatype APc =
    | AIdle
    | AQueueL                                              // mutex
    | AWait(signalled: bool)
    | AStart(item: Item)
    | AFind(item: Item, now: int)
    | ANew(item: Item)
    | AInsert(item: Item, sum: string)
    | ACreated(item: Item, sum: string)
    | AGet(item: Item, now: int, stamp: int)
    | AGetL(item: Item, now: int, stamp: int)              // mutex
    | ACancel(item: Item, now: int, stamp: int, task: Timer)
    | ACancelL(item: Item, now: int, stamp: int, task: Timer) // callbacks_mutex
    | AAdd(item: Item, now: int, stamp: int)
    | AAddL(item: Item, now: int, stamp: int)              // callbacks_mutex
    | ASet(item: Item, timer: Timer)
    | ASetL(item: Item, timer: Timer)                      // mutex
    | ACheck(item: Item, sum: string)
    | AGone(item: Item, sum: string)
    | ADelete(item: Item)
    | AUpdate(item: Item, was: string, sum: string)
    | AChanged(item: Item, was: string, sum: string)
    | AForget(item: Item)
    | AForgetL(item: Item)                                 // mutex

  /** The timer thread; a pass holds callbacks_mutex, TPushL also mutex. */
  datatype TPc = TIdle | TPass(now: int, called: nat) | TPushL(now: int, called: nat)

  datatype WPc = WIdle | WPush(node: Node) | WPushL(node: Node)

  /** What the proofs remember of the past; no step's guard reads it. */
  datatype History = History(
    seen: int,                      // last clock value read by do_analysis
    last: map<string, int>,         // last timestamp written for a name
    fired: seq<Timer>,
    cancelled: seq<nat>,
    delayed: set<string>,           // delayed and not checked since
    observed: map<string, Sighting>,    // last observation
    initial: seq<Row>,
    forgotten: set<Timer>)          // tasks dropped by a full check

  datatype State = State(
    clock: int,
    interval: nat,
    ignored: iset<string>,          // names that the ignore and grep filters reject
    started: bool,
    queue: seq<Item>,
    pending: seq<Timer>,
    tasks: map<string, Timer>,
    rows: seq<Row>,
    nextId: nat,
    mutex: Owner,
    callbacksMutex: Owner,
    a: APc,
    t: TPc,
    w: WPc,
    log: seq<Alert>,
    h: History)

  function Working(a: APc): Option<Item>
  {
    if a.AIdle? || a.AQueueL? || a.AWait? then None else Some(a.item)
  }

  predicate BusyWith(a: APc, f: string)
  {
    Working(a).Some? && Working(a).value.node.name == f
  }

  /** The number of entries that the running pass has already called. */
  function Called(t: TPc): nat
  {
    if t.TIdle? then 0 else t.called
  }

  /** The timers that have neither been called nor cancelled. */
  function Waiting(s: State): seq<Timer>
  {
    if Called(s.t) <= |s.pending| then s.pending[Called(s.t)..] else []
  }

  function Enqueue(s: State, item: Item): State
  {
    s.(queue := s.queue + [item],
       mutex := Free,
       a := if s.a.AWait? then AWait(true) else s.a)
  }

  /** The branch that do_analysis takes after looking the file up. */
  function Lookup(s: State, item: Item, now: int): APc
  {
    match Find(s.rows, item.node.name)
    case None => ANew(item)
    case Some(row) =>
      if s.interval != 0 && now < row.timestamp + s.interval
      then AGet(item, now, row.timestamp)
      else ACheck(item, row.sum)
  }

  function StampOf(s: State, name: string): int
  {
    match Find(s.rows, name)
    case None => 0
    case Some(row) => row.timestamp
  }

  // The clock, start-up and the watcher thread.

  datatype WatchStep =
    | Tick(d: nat)
    | Scan(node: Node)
    | Start
    | WEvent(node: Node)
    | WLock
    | WEnqueue

  ghost predicate WatchEnabled(s: State, step: WatchStep)
  {
    match step
    case Tick(_) => true
    case Scan(_) => !s.started && s.a.AIdle?
    case Start => !s.started && s.a.AIdle?
    case WEvent(_) => s.started && s.w.WIdle?
    case WLock => s.w.WPush? && s.mutex.Free?
    case WEnqueue => s.w.WPushL?
  }

  ghost function WatchNext(s: State, step: WatchStep): State
    requires WatchEnabled(s, step)
  {
    match step
    case Tick(d) => s.(clock := s.clock + d)
    case Scan(node) => s.(a := AStart(Item(node, Event)))
    case Start => s.(started := true)
    case WEvent(node) => s.(w := WPush(node))
    case WLock => s.(w := WPushL(s.w.node), mutex := Watcher)
    case WEnqueue => Enqueue(s, Item(s.w.node, Event)).(w := WIdle)
  }

  // One iteration of TaskTimerManager::execute.

  datatype FireStep =
    | TLock
    | TLockQueue
    | TCall
    | TErase

  ghost predicate FireEnabled(s: State, step: FireStep)
  {
    match step
    case TLock => s.started && s.t.TIdle? && s.callbacksMutex.Free?
    case TLockQueue => s.t.TPass? && s.t.called < UpperBound(s.pending, s.t.now) && s.mutex.Free?
    case TCall => s.t.TPushL? && s.t.called < |s.pending|
    case TErase => s.t.TPass? && s.t.called == UpperBound(s.pending, s.t.now)
  }

  ghost function FireNext(s: State, step: FireStep): State
    requires FireEnabled(s, step)
  {
    match step
    case TLock => s.(t := TPass(s.clock, 0), callbacksMutex := TimerThread)
    case TLockQueue => s.(t := TPushL(s.t.now, s.t.called), mutex := TimerThread)
    case TCall =>
      var timer := s.pending[s.t.called];
      Enqueue(s, Item(timer.node, Fired(timer)))
        .(t := TPass(s.t.now, s.t.called + 1), h := s.h.(fired := s.h.fired + [timer]))
    case TErase => s.(pending := s.pending[s.t.called..], t := TIdle, callbacksMutex := Free)
  }

  // FileAnalysis::loop and the head of do_analysis.

  datatype TakeStep =
    | ALockQueue
    | APop
    | ASleep
    | AWake
    | AFilter
    | ANow
    | ALookup

  ghost predicate TakeEnabled(s: State, step: TakeStep)
  {
    match step
    case ALockQueue => s.started && s.a.AIdle? && s.mutex.Free?
    case APop => s.a.AQueueL? && s.queue != []
    case ASleep => s.a.AQueueL? && s.queue == []
    case AWake => s.a.AWait? && s.mutex.Free?
    case AFilter => s.a.AStart? && s.a.item.node.name in s.ignored
    case ANow => s.a.AStart? && s.a.item.node.name !in s.ignored
    case ALookup => s.a.AFind?
  }

  ghost function TakeNext(s: State, step: TakeStep): State
    requires TakeEnabled(s, step)
  {
    match step
    case ALockQueue => s.(a := AQueueL, mutex := Analysis)
    case APop => s.(a := AStart(s.queue[0]), queue := s.queue[1..], mutex := Free)
    case ASleep => s.(a := AWait(false), mutex := Free)
    case AWake => s.(a := AQueueL, mutex := Analysis)
    case AFilter => s.(a := AIdle)
    case ANow => s.(a := AFind(s.a.item, s.clock), h := s.h.(seen := s.clock))
    case ALookup => s.(a := Lookup(s, s.a.item, s.a.now))
  }

  // do_analysis on a file without a row.

  datatype NewStep =
    | AObserveNew(o: Observation)
    | AInsertRow
    | AAlertCreated

  ghost predicate NewEnabled(s: State, step: NewStep)
  {
    match step
    case AObserveNew(_) => s.a.ANew?
    case AInsertRow => s.a.AInsert?
    case AAlertCreated => s.a.ACreated?
  }

  ghost function NewNext(s: State, step: NewStep): State
    requires NewEnabled(s, step)
  {
    match step
    case AObserveNew(o) =>
      s.(a := AInsert(s.a.item, SumOf(o)),
         h := s.h.(observed := s.h.observed[s.a.item.node.name := Sighting(o, false)]))
    case AInsertRow =>
      var name := s.a.item.node.name;
      s.(a := ACreated(s.a.item, s.a.sum),
         rows := FileDb.Insert(s.rows, name, s.a.sum, s.clock),
         h := s.h.(last := s.h.last[name := s.clock]))
    case AAlertCreated =>
      var name := s.a.item.node.name;
      s.(a := AIdle,
         log := s.log + [Created(name, s.clock, StampOf(s, name), s.a.sum)])
  }

  // do_analysis within the interval: cancel, add and record a timer.

  datatype DelayStep =
    | ALockGet
    | AReadTask
    | ALockCancel
    | ACancelTimer
    | ALockAdd
    | AAddTimer
    | ALockSet
    | ASetTask

  ghost predicate DelayEnabled(s: State, step: DelayStep)
  {
    match step
    case ALockGet => s.a.AGet? && s.mutex.Free?
    case AReadTask => s.a.AGetL?
    case ALockCancel => s.a.ACancel? && s.callbacksMutex.Free?
    case ACancelTimer => s.a.ACancelL?
    case ALockAdd => s.a.AAdd? && s.callbacksMutex.Free?
    case AAddTimer => s.a.AAddL?
    case ALockSet => s.a.ASet? && s.mutex.Free?
    case ASetTask => s.a.ASetL?
  }

  ghost function DelayNext(s: State, step: DelayStep): State
    requires DelayEnabled(s, step)
  {
    match step
    case ALockGet => s.(a := AGetL(s.a.item, s.a.now, s.a.stamp), mutex := Analysis)
    case AReadTask =>
      var name := s.a.item.node.name;
      s.(a := if name in s.tasks then ACancel(s.a.item, s.a.now, s.a.stamp, s.tasks[name])
              else AAdd(s.a.item, s.a.now, s.a.stamp),
         mutex := Free)
    case ALockCancel =>
      s.(a := ACancelL(s.a.item, s.a.now, s.a.stamp, s.a.task), callbacksMutex := Analysis)
    case ACancelTimer =>
      var found := IndexOf(s.pending, s.a.task) < |s.pending|;
      s.(a := AAdd(s.a.item, s.a.now, s.a.stamp),
         pending := Remove(s.pending, s.a.task),
         callbacksMutex := Free,
         h := if found then s.h.(cancelled := s.h.cancelled + [s.a.task.id]) else s.h)
    case ALockAdd => s.(a := AAddL(s.a.item, s.a.now, s.a.stamp), callbacksMutex := Analysis)
    case AAddTimer =>
      var timer := Timer(s.interval + s.a.now, s.nextId, s.a.item.node, s.a.stamp);
      s.(a := ASet(s.a.item, timer),
         pending := Timers.Insert(s.pending, timer),
         nextId := s.nextId + 1,
         callbacksMutex := Free)
    case ALockSet => s.(a := ASetL(s.a.item, s.a.timer), mutex := Analysis)
    case ASetTask =>
      var name := s.a.item.node.name;
      s.(a := AIdle, tasks := s.tasks[name := s.a.timer], mutex := Free,
         h := s.h.(delayed := s.h.delayed + {name}))
  }

  // do_analysis after the interval: the full check.

  datatype CheckStep =
    | AObserve(o: Observation)
    | AAlertDeleted
    | ADeleteRow
    | AUpdateRow
    | AAlertChanged
    | ALockForget
    | AForgetTask

  ghost predicate CheckEnabled(s: State, step: CheckStep)
  {
    match step
    case AObserve(_) => s.a.ACheck?
    case AAlertDeleted => s.a.AGone?
    case ADeleteRow => s.a.ADelete?
    case AUpdateRow => s.a.AUpdate?
    case AAlertChanged => s.a.AChanged?
    case ALockForget => s.a.AForget? && s.mutex.Free?
    case AForgetTask => s.a.AForgetL?
  }

  ghost function CheckNext(s: State, step: CheckStep): State
    requires CheckEnabled(s, step)
  {
    match step
    case AObserve(o) =>
      var name := s.a.item.node.name;
      s.(a := match o
              case Missing => AGone(s.a.item, s.a.sum)
              case Checksum(sum) =>
                if sum != s.a.sum then AUpdate(s.a.item, s.a.sum, sum) else AForget(s.a.item),
         h := s.h.(observed := s.h.observed[name := Sighting(o, true)]))
    case AAlertDeleted =>
      var name := s.a.item.node.name;
      s.(a := ADelete(s.a.item),
         log := s.log + [Deleted(name, s.clock, StampOf(s, name), s.a.sum)])
    case ADeleteRow =>
      s.(a := AForget(s.a.item), rows := Delete(s.rows, s.a.item.node.name))
    case AUpdateRow =>
      var name := s.a.item.node.name;
      s.(a := AChanged(s.a.item, s.a.was, s.a.sum),
         rows := Update(s.rows, name, s.a.sum, s.clock),
         h := s.h.(last := s.h.last[name := s.clock]))
    case AAlertChanged =>
      var name := s.a.item.node.name;
      s.(a := AForget(s.a.item),
         log := s.log + [Changed(name, s.clock, StampOf(s, name), s.a.was, s.a.sum)])
    case ALockForget => s.(a := AForgetL(s.a.item), mutex := Analysis)
    case AForgetTask =>
      var name := s.a.item.node.name;
      s.(a := AIdle, tasks := s.tasks - {name}, mutex := Free,
         h := s.h.(delayed := s.h.delayed - {name},
                   forgotten := s.h.forgotten + (if name in s.tasks then {s.tasks[name]} else {})))
  }

  // All steps.

  datatype Step =
    | ByWatch(WatchStep)
    | ByFire(FireStep)
    | ByTake(TakeStep)
    | ByNew(NewStep)
    | ByDelay(DelayStep)
    | ByCheck(CheckStep)

  ghost predicate Enabled(s: State, step: Step)
  {
    match step
    case ByWatch(x) => WatchEnabled(s, x)
    case ByFire(x) => FireEnabled(s, x)
    case ByTake(x) => TakeEnabled(s, x)
    case ByNew(x) => NewEnabled(s, x)
    case ByDelay(x) => DelayEnabled(s, x)
    case ByCheck(x) => CheckEnabled(s, x)
  }

  ghost function Apply(s: State, step: Step): State
    requires Enabled(s, step)
  {
    match step
    case ByWatch(x) => WatchNext(s, x)
    case ByFire(x) => FireNext(s, x)
    case ByTake(x) => TakeNext(s, x)
    case ByNew(x) => NewNext(s, x)
    case ByDelay(x) => DelayNext(s, x)
    case ByCheck(x) => CheckNext(s, x)
  }

  function Stamps(rows: seq<Row>): map<string, int>
  {
    map r | r in rows :: r.name := Find(rows, r.name).value.timestamp
  }

  /** Before the configuration is loaded: only the table may already hold rows. */
  ghost predicate Init(s: State)
  {
    && !s.started && s.queue == [] && s.pending == [] && s.tasks == map[] && s.nextId == 0
    && s.mutex.Free? && s.callbacksMutex.Free? && s.a.AIdle? && s.t.TIdle? && s.w.WIdle?
    && s.log == []
    && Unique(s.rows) && (forall r :: r in s.rows ==> r.timestamp <= s.clock)
    && s.h == History(s.clock, Stamps(s.rows), [], [], {}, map[], s.rows, {})
  }

  ghost predicate CanRun(s: State, steps: seq<Step>)
    decreases |steps|
  {
    steps == [] || (Enabled(s, steps[0]) && CanRun(Apply(s, steps[0]), steps[1..]))
  }

  /** The state after a run. */
  ghost function Run(s: State, steps: seq<Step>): State
    requires CanRun(s, steps)
    decreases |steps|
  {
    if steps == [] then s else Run(Apply(s, steps[0]), steps[1..])
  }
}
