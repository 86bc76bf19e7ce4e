/**
 The queue over whole runs: what is handed over is taken off in order and nothing is
 lost, told from the list of steps and the states before them.
 */
module MonitorQueue {
  import opened Options
  import opened FileDb
  import opened Timers
  import opened Monitor
  import opened MonitorFiles
  import opened MonitorDelays

  // ---------------------------------------------------------------------
  // What the steps of a run say.
  // ---------------------------------------------------------------------

  /** How many events for a node the watcher received. */
  function Events(steps: seq<Step>, n: Node): nat
  {
    if steps == [] then 0 else (if steps[0] == ByWatch(WEvent(n)) then 1 else 0) + Events(steps[1..], n)
  }

  /** The node that a step of the watcher, or of the timer thread, hands to add_queue. */
  ghost function WatcherHands(s: State, step: Step): seq<Node>
    requires Enabled(s, step)
  {
    if step == ByWatch(WEnqueue) then [s.w.node] else []
  }

  ghost function TimerHands(s: State, step: Step): seq<Node>
    requires Enabled(s, step)
  {
    if step == ByFire(TCall) then [s.pending[s.t.called].node] else []
  }

  /** The node that the analysis thread starts on when it takes one off the queue. */
  ghost function Takes(s: State, step: Step): seq<Node>
    requires Enabled(s, step)
  {
    var a := Apply(s, step).a;
    if step == ByTake(APop) && a.AStart? then [a.item.node] else []
  }

  ghost function Handed(s: State, steps: seq<Step>): seq<Node>
    requires CanRun(s, steps)
    decreases |steps|
  {
    if steps == [] then []
    else WatcherHands(s, steps[0]) + TimerHands(s, steps[0]) + Handed(Apply(s, steps[0]), steps[1..])
  }

  ghost function Taken(s: State, steps: seq<Step>): seq<Node>
    requires CanRun(s, steps)
    decreases |steps|
  {
    if steps == [] then [] else Takes(s, steps[0]) + Taken(Apply(s, steps[0]), steps[1..])
  }

  /** The nodes of the timers that were called. */
  ghost function TimersCalled(s: State, steps: seq<Step>): seq<Node>
    requires CanRun(s, steps)
    decreases |steps|
  {
    if steps == [] then [] else TimerHands(s, steps[0]) + TimersCalled(Apply(s, steps[0]), steps[1..])
  }

  function NodesOf(queue: seq<Item>): (ns: seq<Node>)
    ensures |ns| == |queue| && forall i :: 0 <= i < |queue| ==> ns[i] == queue[i].node
  {
    seq(|queue|, i requires 0 <= i < |queue| => queue[i].node)
  }

  /** The watcher has received an event for the node and not handed it over. */
  function Holds(w: WPc, n: Node): nat
  {
    if !w.WIdle? && w.node == n then 1 else 0
  }

  // ---------------------------------------------------------------------
  // First in, first out.
  // ---------------------------------------------------------------------

  lemma NodesAppend(queue: seq<Item>, item: Item)
    ensures NodesOf(queue + [item]) == NodesOf(queue) + [item.node]
  {
  }

  lemma NodesRest(queue: seq<Item>)
    requires queue != []
    ensures NodesOf(queue) == [queue[0].node] + NodesOf(queue[1..])
  {
  }

  lemma StepQueue(s: State, step: Step)
    requires Enabled(s, step)
    ensures NodesOf(s.queue) + (WatcherHands(s, step) + TimerHands(s, step))
         == Takes(s, step) + NodesOf(Apply(s, step).queue)
  {
    hide NodesOf;
    match step
    case ByWatch(x) => WatchQueue(s, x);
    case ByFire(x) => FireQueue(s, x);
    case ByTake(x) => TakeQueue(s, x);
    case ByNew(x) =>
    case ByDelay(x) => DelayQueue(s, x);
    case ByCheck(x) =>
  }

  lemma WatchQueue(s: State, x: WatchStep)
    requires WatchEnabled(s, x)
    ensures NodesOf(WatchNext(s, x).queue) == NodesOf(s.queue) + WatcherHands(s, ByWatch(x))
  {
    hide NodesOf;
    if x.WEnqueue? {
      NodesAppend(s.queue, Item(s.w.node, Event));
    }
  }

  lemma FireQueue(s: State, x: FireStep)
    requires FireEnabled(s, x)
    ensures NodesOf(FireNext(s, x).queue) == NodesOf(s.queue) + TimerHands(s, ByFire(x))
  {
    hide NodesOf;
    if x.TCall? {
      var timer := s.pending[s.t.called];
      NodesAppend(s.queue, Item(timer.node, Fired(timer)));
    }
  }

  lemma TakeQueue(s: State, x: TakeStep)
    requires TakeEnabled(s, x)
    ensures NodesOf(s.queue) == Takes(s, ByTake(x)) + NodesOf(TakeNext(s, x).queue)
  {
    hide NodesOf, Lookup;
    if x.APop? {
      NodesRest(s.queue);
    }
  }

  lemma DelayQueue(s: State, x: DelayStep)
    requires DelayEnabled(s, x)
    ensures DelayNext(s, x).queue == s.queue
  {
    hide Timers.Insert, Remove, IndexOf;
  }

  lemma Associate<T>(q: seq<T>, h: seq<T>, hs: seq<T>, t: seq<T>, q1: seq<T>, ts: seq<T>, q2: seq<T>)
    requires q + h == t + q1 && q1 + hs == ts + q2
    ensures q + (h + hs) == (t + ts) + q2
  {
    assert q + (h + hs) == (q + h) + hs;
    assert (t + q1) + hs == t + (q1 + hs);
  }

  lemma {:induction false} QueueFrom(s: State, steps: seq<Step>)
    requires CanRun(s, steps)
    ensures NodesOf(s.queue) + Handed(s, steps) == Taken(s, steps) + NodesOf(Run(s, steps).queue)
    decreases |steps|
  {
    hide NodesOf, WatcherHands, TimerHands, Takes, Enabled, Apply;
    if steps != [] {
      var s1 := Apply(s, steps[0]);
      StepQueue(s, steps[0]);
      QueueFrom(s1, steps[1..]);
      Associate(NodesOf(s.queue), WatcherHands(s, steps[0]) + TimerHands(s, steps[0]), Handed(s1, steps[1..]),
                Takes(s, steps[0]), NodesOf(s1.queue), Taken(s1, steps[1..]), NodesOf(Run(s, steps).queue));
    }
  }

  /** In every run the nodes taken off the queue, and then those in it, are the nodes handed over, in that order. */
  lemma QueueInOrder(s0: State, steps: seq<Step>)
    requires Init(s0) && CanRun(s0, steps)
    ensures Taken(s0, steps) + NodesOf(Run(s0, steps).queue) == Handed(s0, steps)
  {
    hide CanRun, Run, Handed, Taken;
    QueueFrom(s0, steps);
    assert NodesOf(s0.queue) == [];
    assert [] + Handed(s0, steps) == Handed(s0, steps);
  }

  // ---------------------------------------------------------------------
  // Nothing is lost.
  // ---------------------------------------------------------------------

  lemma StepEvents(s: State, step: Step, n: Node)
    requires Enabled(s, step)
    ensures Events([step], n) + Holds(s.w, n) == multiset(WatcherHands(s, step))[n] + Holds(Apply(s, step).w, n)
  {
    assert [step][1..] == [];
    assert Events([step], n) == if step == ByWatch(WEvent(n)) then 1 else 0;
    match step
    case ByWatch(x) =>
    case ByFire(x) =>
    case ByTake(x) =>
    case ByNew(x) =>
    case ByDelay(x) => DelayWatcher(s, x);
    case ByCheck(x) =>
  }

  lemma DelayWatcher(s: State, x: DelayStep)
    requires DelayEnabled(s, x)
    ensures DelayNext(s, x).w == s.w
  {
    hide Timers.Insert, Remove, IndexOf;
  }

  lemma CountParts(a: seq<Node>, b: seq<Node>, c: seq<Node>, n: Node)
    ensures multiset(a + b + c)[n] == multiset(a)[n] + multiset(b)[n] + multiset(c)[n]
    ensures multiset(a + b)[n] == multiset(a)[n] + multiset(b)[n]
  {
  }

  lemma {:induction false} EventsFrom(s: State, steps: seq<Step>, n: Node)
    requires CanRun(s, steps)
    ensures Events(steps, n) + multiset(TimersCalled(s, steps))[n] + Holds(s.w, n)
         == multiset(Handed(s, steps))[n] + Holds(Run(s, steps).w, n)
    decreases |steps|
  {
    hide WatcherHands, TimerHands, Enabled, Apply, Holds;
    if steps != [] {
      var s1 := Apply(s, steps[0]);
      StepEvents(s, steps[0], n);
      assert [steps[0]][1..] == [];
      EventsFrom(s1, steps[1..], n);
      CountParts(WatcherHands(s, steps[0]), TimerHands(s, steps[0]), Handed(s1, steps[1..]), n);
      CountParts(TimerHands(s, steps[0]), TimersCalled(s1, steps[1..]), [], n);
    }
  }

  /**
   In every run, for every node, the events received plus the timers called equal the
   times that it was taken off the queue, plus those it is in the queue, plus one if the
   watcher still holds it.
   */
  lemma NothingLost(s0: State, steps: seq<Step>, n: Node)
    requires Init(s0) && CanRun(s0, steps)
    ensures Events(steps, n) + multiset(TimersCalled(s0, steps))[n]
         == multiset(Taken(s0, steps))[n] + multiset(NodesOf(Run(s0, steps).queue))[n] + Holds(Run(s0, steps).w, n)
  {
    hide CanRun, Run, Handed, Taken, TimersCalled, Events;
    QueueInOrder(s0, steps);
    EventsFrom(s0, steps, n);
    CountParts(Taken(s0, steps), NodesOf(Run(s0, steps).queue), [], n);
  }

  lemma {:induction false} CalledFrom(s: State, steps: seq<Step>)
    requires CanRun(s, steps)
    ensures Nodes(Run(s, steps).h.fired) == Nodes(s.h.fired) + TimersCalled(s, steps)
    decreases |steps|
  {
    hide Enabled, Apply, TimerHands, Nodes;
    if steps != [] {
      StepCalled(s, steps[0]);
      CalledFrom(Apply(s, steps[0]), steps[1..]);
    }
  }

  lemma StepCalled(s: State, step: Step)
    requires Enabled(s, step)
    ensures Nodes(Apply(s, step).h.fired) == Nodes(s.h.fired) + TimerHands(s, step)
  {
    match step
    case ByWatch(x) =>
    case ByFire(x) =>
    case ByTake(x) =>
    case ByNew(x) =>
    case ByDelay(x) => DelayFired(s, x);
    case ByCheck(x) =>
  }

  lemma DelayFired(s: State, x: DelayStep)
    requires DelayEnabled(s, x)
    ensures DelayNext(s, x).h.fired == s.h.fired
  {
    hide Timers.Insert, Remove, IndexOf;
  }

  /** The timers called are the ones that the history counts as fired, in that order. */
  lemma CalledIsFired(s0: State, steps: seq<Step>)
    requires Init(s0) && CanRun(s0, steps)
    ensures TimersCalled(s0, steps) == Nodes(Run(s0, steps).h.fired)
  {
    hide CanRun, Run, TimersCalled;
    CalledFrom(s0, steps);
    assert Nodes(s0.h.fired) == [];
  }

  // ---------------------------------------------------------------------
  // The timer that a delay adds.
  // ---------------------------------------------------------------------

  /** The clock at the last reading of it in do_analysis, if there was one. */
  ghost function LastRead(s: State, steps: seq<Step>, before: int): int
    requires CanRun(s, steps)
    decreases |steps|
  {
    if steps == [] then before
    else LastRead(Apply(s, steps[0]), steps[1..], if steps[0] == ByTake(ANow) then s.clock else before)
  }

  lemma StepRead(s: State, step: Step)
    requires Enabled(s, step)
    ensures Apply(s, step).h.seen == if step == ByTake(ANow) then s.clock else s.h.seen
  {
    match step
    case ByWatch(x) =>
    case ByFire(x) =>
    case ByTake(x) =>
    case ByNew(x) =>
    case ByDelay(x) => DelayRead(s, x);
    case ByCheck(x) =>
  }

  lemma DelayRead(s: State, x: DelayStep)
    requires DelayEnabled(s, x)
    ensures DelayNext(s, x).h.seen == s.h.seen
  {
    hide Timers.Insert, Remove, IndexOf;
  }

  lemma {:induction false} ReadFrom(s: State, steps: seq<Step>)
    requires CanRun(s, steps)
    ensures Run(s, steps).h.seen == LastRead(s, steps, s.h.seen)
    decreases |steps|
  {
    hide Enabled, Apply;
    if steps != [] {
      StepRead(s, steps[0]);
      ReadFrom(Apply(s, steps[0]), steps[1..]);
    }
  }

  /**
   In every run the delay branch adds one timer: for the node at hand, to expire an
   interval after the clock was read.
   */
  lemma DelayAddsTimer(s0: State, steps: seq<Step>)
    requires Init(s0) && CanRun(s0, steps) && Enabled(Run(s0, steps), ByDelay(AAddTimer))
    ensures
      var s := Run(s0, steps);
      var s' := Apply(s, ByDelay(AAddTimer));
      exists t ::
        && multiset(s'.pending) == multiset(s.pending) + multiset{t}
        && t.node == Working(s.a).value.node && t.expiration == LastRead(s0, steps, s0.h.seen) + s.interval
        && t.id == s.nextId
  {
    hide Init, CanRun, Run, Inv, LastRead, DelayNext;
    var s := Run(s0, steps);
    InvInit(s0);
    InvRun(s0, steps);
    ReadFrom(s0, steps);
    NowIsRead(s);
    AddsTimer(s);
  }

  lemma NowIsRead(s: State)
    requires Inv(s) && s.a.AAddL?
    ensures s.a.now == s.h.seen
  {
    hide Global, PendingInv, RowInv, TrackedInv;
    InvOf(s, s.a.item.node.name);
  }

  lemma AddsTimer(s: State)
    requires DelayEnabled(s, AAddTimer)
    ensures exists t ::
      && multiset(DelayNext(s, AAddTimer).pending) == multiset(s.pending) + multiset{t}
      && t.node == s.a.item.node && t.expiration == s.a.now + s.interval && t.id == s.nextId
  {
    hide Timers.Insert;
    var t := Timer(s.interval + s.a.now, s.nextId, s.a.item.node, s.a.stamp);
    InsertBag(s.pending, t);
  }

  lemma InsertBag(ts: seq<Timer>, t: Timer)
    ensures multiset(Timers.Insert(ts, t)) == multiset(ts) + multiset{t}
  {
    var n := UpperBound(ts, t.expiration);
    assert ts == ts[..n] + ts[n..];
  }

  // ---------------------------------------------------------------------
  // Ignored files.
  // ---------------------------------------------------------------------

  ghost predicate Unmentioned(s: State)
  {
    forall i :: 0 <= i < |s.log| ==> s.log[i].name !in s.ignored
  }

  lemma StepUnmentioned(s: State, step: Step)
    requires Unmentioned(s) && Enabled(s, step)
    requires Working(s.a).Some? && !s.a.AStart? ==> Working(s.a).value.node.name !in s.ignored
    ensures Unmentioned(Apply(s, step))
  {
    match step
    case ByWatch(x) =>
    case ByFire(x) =>
    case ByTake(x) =>
    case ByNew(x) =>
    case ByDelay(x) => DelayLog(s, x);
    case ByCheck(x) =>
  }

  lemma DelayLog(s: State, x: DelayStep)
    requires DelayEnabled(s, x)
    ensures DelayNext(s, x).log == s.log && DelayNext(s, x).ignored == s.ignored
  {
    hide Timers.Insert, Remove, IndexOf;
  }

  lemma WorkNotIgnored(s: State)
    requires Inv(s)
    ensures Working(s.a).Some? && !s.a.AStart? ==> Working(s.a).value.node.name !in s.ignored
  {
    hide Global, PendingInv, RowInv, TrackedInv;
    if Working(s.a).Some? {
      InvOf(s, Working(s.a).value.node.name);
    }
  }

  lemma {:induction false} UnmentionedFrom(s: State, steps: seq<Step>)
    requires Inv(s) && Unmentioned(s) && CanRun(s, steps)
    ensures Unmentioned(Run(s, steps))
    decreases |steps|
  {
    hide Inv, Unmentioned, Enabled, Apply;
    if steps != [] {
      WorkNotIgnored(s);
      StepUnmentioned(s, steps[0]);
      InvStep(s, steps[0]);
      UnmentionedFrom(Apply(s, steps[0]), steps[1..]);
    }
  }

  /** In every run no alert is raised for a file that the filters reject. */
  lemma IgnoredUnmentioned(s0: State, steps: seq<Step>, i: nat)
    requires Init(s0) && CanRun(s0, steps) && i < |Run(s0, steps).log|
    ensures Run(s0, steps).log[i].name !in Run(s0, steps).ignored
  {
    hide CanRun, Run, Inv;
    InvInit(s0);
    UnmentionedFrom(s0, steps);
  }
}
