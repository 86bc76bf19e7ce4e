/**
 A run in which one file has two timers that are both not yet due: the full
 check forgets its timer without cancelling it. The bound of two is tight, and
 "at most one timer per file" is false.
 */
module MonitorExample {
  import opened Options
  import opened FileDb
  import opened Timers
  import opened Monitor
  import opened MonitorDelays

  /** A run can be extended by any enabled step. */
  lemma {:induction false} RunAppend(s: State, a: seq<Step>, step: Step)
    requires CanRun(s, a) && Enabled(Run(s, a), step)
    ensures CanRun(s, a + [step]) && Run(s, a + [step]) == Apply(Run(s, a), step)
    decreases |a|
  {
    if a == [] {
      assert a + [step] == [step];
      assert [step][1..] == [];
      assert CanRun(Apply(s, step), []);
    } else {
      assert (a + [step])[1..] == a[1..] + [step];
      RunAppend(Apply(s, a[0]), a[1..], step);
    }
  }

  /** s can be reached from s0. */
  ghost predicate Reaches(s0: State, s: State)
  {
    exists steps :: CanRun(s0, steps) && Run(s0, steps) == s
  }

  lemma Then(s0: State, s: State, step: Step)
    requires Reaches(s0, s) && Enabled(s, step)
    ensures Reaches(s0, Apply(s, step))
  {
    var steps :| CanRun(s0, steps) && Run(s0, steps) == s;
    RunAppend(s0, steps, step);
  }

  /** Start-up: the file is looked up at the current time. */
  lemma LookUp(s0: State, s: State, node: Node) returns (s': State)
    requires Reaches(s0, s) && !s.started && s.a.AIdle? && node.name !in s.ignored
    ensures Reaches(s0, s')
    ensures s' == s.(a := Lookup(s, Item(node, Event), s.clock), h := s.h.(seen := s.clock))
  {
    hide Reaches, Lookup;
    var s1 := WatchNext(s, Scan(node));
    Then(s0, s, ByWatch(Scan(node)));
    var s2 := TakeNext(s1, ANow);
    Then(s0, s1, ByTake(ANow));
    s' := TakeNext(s2, ALookup);
    Then(s0, s2, ByTake(ALookup));
    assert Lookup(s2, Item(node, Event), s.clock) == Lookup(s, Item(node, Event), s.clock) by {
      SameLookup(s2, s, Item(node, Event), s.clock);
    }
  }

  lemma SameLookup(s: State, t: State, item: Item, now: int)
    requires s.rows == t.rows && s.interval == t.interval
    ensures Lookup(s, item, now) == Lookup(t, item, now)
  {
  }

  /** A first delay adds a timer that expires an interval from now. */
  lemma Delay(s0: State, s: State, item: Item, now: int, stamp: int) returns (s': State)
    requires Reaches(s0, s) && s.a == AGet(item, now, stamp) && item.node.name !in s.tasks
    requires s.mutex.Free? && s.callbacksMutex.Free?
    ensures Reaches(s0, s')
    ensures
      var timer := Timer(s.interval + now, s.nextId, item.node, stamp);
      s' == s.(a := AIdle, tasks := s.tasks[item.node.name := timer], nextId := s.nextId + 1,
               pending := Timers.Insert(s.pending, timer),
               h := s.h.(delayed := s.h.delayed + {item.node.name}))
  {
    hide Reaches, Timers.Insert;
    var s1 := DelayNext(s, ALockGet);
    Then(s0, s, ByDelay(ALockGet));
    var s2 := DelayNext(s1, AReadTask);
    Then(s0, s1, ByDelay(AReadTask));
    var s3 := DelayNext(s2, ALockAdd);
    Then(s0, s2, ByDelay(ALockAdd));
    var s4 := DelayNext(s3, AAddTimer);
    Then(s0, s3, ByDelay(AAddTimer));
    var s5 := DelayNext(s4, ALockSet);
    Then(s0, s4, ByDelay(ALockSet));
    s' := DelayNext(s5, ASetTask);
    Then(s0, s5, ByDelay(ASetTask));
  }

  /** A check that finds a new checksum rewrites the row and forgets the timer, which stays pending. */
  lemma Check(s0: State, s: State, item: Item, was: string, sum: string) returns (s': State)
    requires Reaches(s0, s) && s.a == ACheck(item, was) && sum != was && s.mutex.Free?
    ensures Reaches(s0, s')
    ensures s'.rows == Update(s.rows, item.node.name, sum, s.clock)
    ensures s'.tasks == s.tasks - {item.node.name} && s'.pending == s.pending && s'.a == AIdle
    ensures s'.clock == s.clock && s'.interval == s.interval && s'.ignored == s.ignored
    ensures s'.started == s.started && s'.mutex.Free? && s'.callbacksMutex == s.callbacksMutex
    ensures s'.nextId == s.nextId
  {
    hide Reaches, Update;
    var s1 := CheckNext(s, AObserve(Checksum(sum)));
    Then(s0, s, ByCheck(AObserve(Checksum(sum))));
    var s2 := CheckNext(s1, AUpdateRow);
    Then(s0, s1, ByCheck(AUpdateRow));
    var s3 := CheckNext(s2, AAlertChanged);
    Then(s0, s2, ByCheck(AAlertChanged));
    var s4 := CheckNext(s3, ALockForget);
    Then(s0, s3, ByCheck(ALockForget));
    s' := CheckNext(s4, AForgetTask);
    Then(s0, s4, ByCheck(AForgetTask));
  }

  const NODE := Node("/d", "/d/f")
  const OLD_ROW := Row("/d/f", "a", 0)

  ghost function Begin(): State
  {
    State(9, 10, iset{}, false, [], [], map[], [OLD_ROW], 0, Free, Free, AIdle, TIdle, WIdle, [],
          History(9, Stamps([OLD_ROW]), [], [], {}, map[], [OLD_ROW], {}))
  }

  /**
   Two timers for one file, both in the future, up to two seconds before the row is an
   interval old.
   */
  lemma TwoTimersReachable()
    ensures Init(Begin())
    ensures exists s ::
      && Reaches(Begin(), s) && |Live(s, "/d/f")| == 2
      && Find(s.rows, "/d/f") == Some(Row("/d/f", "b", 10)) && s.clock == 10 + s.interval - 2
  {
    hide Reaches, Live, Stamps, Timers.Insert;
    var s0 := Begin();
    assert Reaches(s0, s0) by { Reflexive(s0); }
    var item := Item(NODE, Event);
    assert Find(s0.rows, "/d/f") == Some(OLD_ROW);
    var s1 := LookUp(s0, s0, NODE);
    var s2 := Delay(s0, s1, item, 9, 0);
    var s3 := s2.(clock := 10);
    Then(s0, s2, ByWatch(Tick(1)));
    var s4 := LookUp(s0, s3, NODE);
    var s5 := Check(s0, s4, item, "a", "b");
    FindAfterUpdate(s4.rows, "/d/f", "b", 10, "/d/f");
    var s6 := LookUp(s0, s5, NODE);
    var s7 := Delay(s0, s6, item, 10, 10);
    var s8 := s7.(clock := 18);
    Then(s0, s7, ByWatch(Tick(8)));
    TwoLive(s8, Timer(19, 0, NODE, 0), Timer(20, 1, NODE, 10));
  }

  /** A file that is gone before it was ever seen: it gets a row without a checksum and a CREATED alert. */
  lemma MissingIsCreated()
    ensures exists s ::
      && Reaches(Begin(), s) && s.a.AIdle? && s.h.observed == map["/d/g" := Sighting(Missing, false)]
      && Find(s.rows, "/d/g") == Some(Row("/d/g", "", 9)) && s.log == [Created("/d/g", 9, 9, "")]
  {
    hide Reaches, Stamps, FileDb.Insert;
    var s0 := Begin();
    assert Reaches(s0, s0) by { Reflexive(s0); }
    var node := Node("/d", "/d/g");
    assert Find(s0.rows, "/d/g") == None;
    var s1 := LookUp(s0, s0, node);
    FindAfterInsert(s1.rows, "/d/g", "", 9, "/d/g");
    var s2 := NewNext(s1, AObserveNew(Missing));
    Then(s0, s1, ByNew(AObserveNew(Missing)));
    var s3 := NewNext(s2, AInsertRow);
    Then(s0, s2, ByNew(AInsertRow));
    var s4 := NewNext(s3, AAlertCreated);
    Then(s0, s3, ByNew(AAlertCreated));
    assert Reaches(s0, s4);
  }

  lemma Reflexive(s: State)
    ensures Reaches(s, s)
  {
    assert CanRun(s, []) && Run(s, []) == s;
  }

  lemma TwoLive(s: State, t: Timer, u: Timer)
    requires s.clock < 19 && t == Timer(19, 0, NODE, 0) && u == Timer(20, 1, NODE, 10)
    requires s.pending == Timers.Insert(Timers.Insert([], t), u)
    ensures |Live(s, "/d/f")| == 2
  {
    InsertMembers([], t);
    InsertMembers([t], u);
    assert Live(s, "/d/f") == {t, u};
  }
}
