/**
 Conservation of timers: over every run each timer id is waiting, fired or
 cancelled, in exactly one of the three and exactly once.
 */
module MonitorTimers {
  import opened FileDb
  import opened Timers
  import opened Monitor
  import opened MonitorLocks

  function Below(n: nat): (q: seq<nat>)
    ensures |q| == n && forall i :: 0 <= i < n ==> q[i] == i
  {
    seq(n, i => i)
  }

  /** Where every id handed out so far is. */
  function Ledger(s: State): multiset<nat>
  {
    multiset(Ids(Waiting(s))) + multiset(Ids(s.h.fired)) + multiset(s.h.cancelled)
  }

  ghost predicate TimerInv(s: State)
  {
    && Sorted(s.pending)
    && Called(s.t) <= |s.pending|
    && Called(s.t) <= |s.h.fired|
    && s.h.fired[|s.h.fired| - Called(s.t)..] == s.pending[..Called(s.t)]
    && Ledger(s) == multiset(Below(s.nextId))
    && (!s.t.TIdle? ==> s.t.now <= s.clock)
    && (!s.started ==> s.t.TIdle?)
  }

  lemma {:induction false} BelowCounts(n: nat, id: nat)
    ensures multiset(Below(n))[id] == if id < n then 1 else 0
  {
    if n > 0 {
      assert Below(n) == Below(n - 1) + [n - 1];
      BelowCounts(n - 1, id);
    }
  }

  lemma DistinctIds(ts: seq<Timer>, n: nat)
    requires multiset(Ids(ts)) <= multiset(Below(n))
    ensures forall i, j :: 0 <= i < j < |ts| ==> ts[i].id != ts[j].id
  {
    forall i, j | 0 <= i < j < |ts|
      ensures ts[i].id != ts[j].id
    {
      var q := Ids(ts);
      BelowCounts(n, q[i]);
      assert q == q[..i] + [q[i]] + q[i + 1..j] + [q[j]] + q[j + 1..];
      assert multiset(q)[q[i]] >= if q[i] == q[j] then 2 else 1;
    }
  }

  /** The ids of pending timers are distinct when no pass is running. */
  lemma PendingDistinct(s: State)
    requires TimerInv(s) && s.t.TIdle?
    ensures forall i, j :: 0 <= i < j < |s.pending| ==> s.pending[i].id != s.pending[j].id
    ensures forall t :: t in s.pending ==> t.id < s.nextId
  {
    assert Waiting(s) == s.pending;
    DistinctIds(s.pending, s.nextId);
    forall t | t in s.pending
      ensures t.id < s.nextId
    {
      var i :| 0 <= i < |s.pending| && s.pending[i] == t;
      assert Ids(s.pending)[i] == t.id;
      assert t.id in multiset(Ids(s.pending));
      BelowCounts(s.nextId, t.id);
    }
  }

  lemma TimerAdd(s: State)
    requires TimerInv(s) && s.t.TIdle? && s.a.AAddL?
    ensures TimerInv(DelayNext(s, AAddTimer))
  {
    hide Ids, Sorted, Timers.Insert;
    var s' := DelayNext(s, AAddTimer);
    var timer := s'.a.timer;
    InsertKeepsSorted(s.pending, timer);
    assert Waiting(s) == s.pending && Waiting(s') == s'.pending;
    InsertIds(s.pending, timer);
    assert Below(s.nextId + 1) == Below(s.nextId) + [s.nextId];
  }

  lemma TimerCancel(s: State)
    requires TimerInv(s) && s.t.TIdle? && s.a.ACancelL?
    ensures TimerInv(DelayNext(s, ACancelTimer))
  {
    hide Ids, Sorted, Below;
    var s' := DelayNext(s, ACancelTimer);
    RemoveKeepsSorted(s.pending, s.a.task);
    assert Waiting(s) == s.pending && Waiting(s') == s'.pending;
    if IndexOf(s.pending, s.a.task) < |s.pending| {
      RemoveIds(s.pending, s.a.task);
    }
  }

  lemma TimerCall(s: State)
    requires TimerInv(s) && LockInv(s) && s.t.TPushL?
    ensures TimerInv(FireNext(s, TCall))
  {
    hide Ids, Sorted, Below, Waiting;
    PassRoom(s);
    var s' := FireNext(s, TCall);
    var k := s.t.called;
    CallWaiting(s);
    MovedToFired(s.pending[k], Waiting(s'), s.h.fired);
    CalledShift(s.h.fired, s.pending, k);
  }

  lemma PassRoom(s: State)
    requires LockInv(s) && s.t.TPushL?
    ensures s.t.called < |s.pending|
  {
  }

  lemma CallWaiting(s: State)
    requires s.t.TPushL? && s.t.called < |s.pending|
    ensures Waiting(s) == [s.pending[s.t.called]] + Waiting(FireNext(s, TCall))
  {
  }

  /** A timer that is called moves from the waiting ones to the fired ones. */
  lemma MovedToFired(timer: Timer, waiting: seq<Timer>, fired: seq<Timer>)
    ensures multiset(Ids([timer] + waiting)) + multiset(Ids(fired))
         == multiset(Ids(waiting)) + multiset(Ids(fired + [timer]))
  {
    hide Ids;
    IdsConcat([timer], waiting);
    IdsConcat(fired, [timer]);
  }

  lemma CalledShift(fired: seq<Timer>, pending: seq<Timer>, k: nat)
    requires k < |pending| && k <= |fired| && fired[|fired| - k..] == pending[..k]
    ensures (fired + [pending[k]])[|fired| - k..] == pending[..k + 1]
  {
  }

  lemma TimerErase(s: State)
    requires TimerInv(s) && LockInv(s) && FireEnabled(s, TErase)
    ensures TimerInv(FireNext(s, TErase))
  {
  }

  /** Steps that leave the multimap and its history alone. */
  lemma TimerSame(s: State, s': State)
    requires TimerInv(s)
    requires s'.pending == s.pending && s'.nextId == s.nextId && s'.clock >= s.clock
    requires s'.h.fired == s.h.fired && s'.h.cancelled == s.h.cancelled
    requires s'.t == s.t && (s.started ==> s'.started)
    ensures TimerInv(s')
  {
  }

  lemma TimerLock(s: State, step: FireStep)
    requires TimerInv(s) && FireEnabled(s, step) && (step.TLock? || step.TLockQueue?)
    ensures TimerInv(FireNext(s, step))
  {
  }

  lemma LockIdle(s: State)
    requires LockInv(s)
    ensures s.a.AAddL? || s.a.ACancelL? ==> s.t.TIdle?
  {
  }

  lemma TimerStep(s: State, step: Step)
    requires TimerInv(s) && LockInv(s) && Enabled(s, step)
    ensures TimerInv(Apply(s, step))
  {
    hide TimerInv, LockInv;
    LockIdle(s);
    match step
    case ByFire(x) =>
      if x.TCall? {
        TimerCall(s);
      } else if x.TErase? {
        TimerErase(s);
      } else {
        TimerLock(s, x);
      }
    case ByDelay(x) =>
      if x.AAddTimer? {
        TimerAdd(s);
      } else if x.ACancelTimer? {
        TimerCancel(s);
      } else {
        TimerSame(s, DelayNext(s, x));
      }
    case _ => TimerQuiet(s, step);
  }

  lemma TimerQuiet(s: State, step: Step)
    requires TimerInv(s) && Enabled(s, step)
    requires !step.ByFire? && !step.ByDelay?
    ensures TimerInv(Apply(s, step))
  {
    hide TimerInv;
    match step
    case ByWatch(x) => TimerSame(s, WatchNext(s, x));
    case ByTake(x) => TimerSame(s, TakeNext(s, x));
    case ByNew(x) => TimerSame(s, NewNext(s, x));
    case ByCheck(x) => TimerSame(s, CheckNext(s, x));
  }

  lemma InitTimers(s: State)
    requires Init(s)
    ensures TimerInv(s)
  {
  }

  lemma {:induction false} TimerRun(s: State, steps: seq<Step>)
    requires LockInv(s) && TimerInv(s) && CanRun(s, steps)
    ensures LockInv(Run(s, steps)) && TimerInv(Run(s, steps))
    decreases |steps|
  {
    hide TimerInv, LockInv, Apply;
    if steps != [] {
      LockStep(s, steps[0]);
      TimerStep(s, steps[0]);
      TimerRun(Apply(s, steps[0]), steps[1..]);
    }
  }

  /** Conservation over every run, and what a finished pass has called. */
  lemma TimersConserved(s0: State, steps: seq<Step>, id: nat)
    requires Init(s0) && CanRun(s0, steps)
    ensures
      var s := Run(s0, steps);
      multiset(Ids(Waiting(s)))[id] + multiset(Ids(s.h.fired))[id] + multiset(s.h.cancelled)[id]
      == if id < s.nextId then 1 else 0
  {
    InitLocked(s0);
    InitTimers(s0);
    TimerRun(s0, steps);
    BelowCounts(Run(s0, steps).nextId, id);
  }

  /** The clock when the timer thread last began a pass. */
  ghost function PassStart(s: State, steps: seq<Step>, before: int): int
    requires CanRun(s, steps)
    decreases |steps|
  {
    if steps == [] then before
    else PassStart(Apply(s, steps[0]), steps[1..], if steps[0] == ByFire(TLock) then s.clock else before)
  }

  lemma StepPass(s: State, step: Step)
    requires Enabled(s, step)
    ensures
      var t := Apply(s, step).t;
      t.TIdle? || (if step == ByFire(TLock) then t.now == s.clock else !s.t.TIdle? && t.now == s.t.now)
  {
    match step
    case ByWatch(x) =>
    case ByFire(x) =>
    case ByTake(x) =>
    case ByNew(x) =>
    case ByDelay(x) => DelayPass(s, x);
    case ByCheck(x) =>
  }

  lemma DelayPass(s: State, x: DelayStep)
    requires DelayEnabled(s, x)
    ensures DelayNext(s, x).t == s.t
  {
    hide Timers.Insert, Remove, IndexOf;
  }

  lemma {:induction false} PassFrom(s: State, steps: seq<Step>, before: int)
    requires CanRun(s, steps) && (s.t.TIdle? || s.t.now == before)
    ensures Run(s, steps).t.TIdle? || Run(s, steps).t.now == PassStart(s, steps, before)
    decreases |steps|
  {
    hide Enabled, Apply;
    if steps != [] {
      StepPass(s, steps[0]);
      PassFrom(Apply(s, steps[0]), steps[1..], if steps[0] == ByFire(TLock) then s.clock else before);
    }
  }

  /**
   When a pass ends, it has called exactly the timers due at the time it began,
   in nondecreasing order of expiration, and everything left is due later.
   */
  lemma PassExact(s0: State, steps: seq<Step>)
    requires Init(s0) && CanRun(s0, steps) && FireEnabled(Run(s0, steps), TErase)
    ensures
      var s := Run(s0, steps);
      var k := s.t.called;
      && k <= |s.h.fired|
      && var called := s.h.fired[|s.h.fired| - k..];
      && called == s.pending[..k] && Sorted(called)
      && (forall t :: t in called ==> t.expiration <= PassStart(s0, steps, 0))
      && (forall t :: t in FireNext(s, TErase).pending ==> t.expiration > PassStart(s0, steps, 0))
  {
    hide CanRun, Run, PassStart, TimerInv, LockInv;
    PassFrom(s0, steps, 0);
    InitLocked(s0);
    InitTimers(s0);
    TimerRun(s0, steps);
    PassEnd(Run(s0, steps));
  }

  lemma PassEnd(s: State)
    requires TimerInv(s) && FireEnabled(s, TErase)
    ensures
      var k := s.t.called;
      && k <= |s.h.fired|
      && var called := s.h.fired[|s.h.fired| - k..];
      && called == s.pending[..k] && Sorted(called)
      && (forall t :: t in called ==> t.expiration <= s.t.now)
      && (forall t :: t in FireNext(s, TErase).pending ==> t.expiration > s.t.now)
  {
    var k := s.t.called;
    forall t | t in s.pending[k..]
      ensures t.expiration > s.t.now
    {
      var i :| k <= i < |s.pending| && s.pending[i] == t;
      assert s.pending[k].expiration <= s.pending[i].expiration;
    }
  }
}
