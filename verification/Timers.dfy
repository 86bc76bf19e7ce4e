/**
 The timer queue of src/TaskTimerManager.hpp: a multimap from expiration to
 timer. The multimap is a sequence in key order; equal keys stay in insertion
 order.
 */
module Timers {
  datatype Node = Node(dir: string, name: string)

  /**
   A delayed check. `stamp` is not stored by the program: it is the timestamp
   of the file's row when the timer was created, kept here as history.
   */
  datatype Timer = Timer(expiration: int, id: nat, node: Node, stamp: int)

  ghost predicate Sorted(ts: seq<Timer>)
  {
    forall i, j :: 0 <= i < j < |ts| ==> ts[i].expiration <= ts[j].expiration
  }

  /** upper_bound: the index of the first key beyond the bound. */
  function UpperBound(ts: seq<Timer>, bound: int): (n: nat)
    ensures n <= |ts|
    ensures forall i :: 0 <= i < n ==> ts[i].expiration <= bound
    ensures n < |ts| ==> ts[n].expiration > bound
  {
    if ts == [] || ts[0].expiration > bound then 0 else 1 + UpperBound(ts[1..], bound)
  }

  /** insert: after every entry with the same or a smaller key. */
  function Insert(ts: seq<Timer>, t: Timer): seq<Timer>
  {
    var n := UpperBound(ts, t.expiration);
    ts[..n] + [t] + ts[n..]
  }

  /** Where cancel finds the timer, or |ts|. */
  function IndexOf(ts: seq<Timer>, t: Timer): (n: nat)
    ensures n <= |ts|
    ensures n < |ts| ==> ts[n].expiration == t.expiration && ts[n].id == t.id
    ensures forall i :: 0 <= i < n ==> !(ts[i].expiration == t.expiration && ts[i].id == t.id)
  {
    if ts == [] || (ts[0].expiration == t.expiration && ts[0].id == t.id) then 0
    else 1 + IndexOf(ts[1..], t)
  }

  function Remove(ts: seq<Timer>, t: Timer): seq<Timer>
  {
    var n := IndexOf(ts, t);
    if n == |ts| then ts else ts[..n] + ts[n + 1..]
  }

  function Ids(ts: seq<Timer>): seq<nat>
  {
    seq(|ts|, i requires 0 <= i < |ts| => ts[i].id)
  }

  /** A new timer goes behind those that expire no later, and before the others. */
  lemma InsertBehind(ts: seq<Timer>, t: Timer)
    requires Sorted(ts)
    ensures exists n: nat ::
      && n <= |ts| && Insert(ts, t) == ts[..n] + [t] + ts[n..]
      && (forall i :: 0 <= i < n ==> ts[i].expiration <= t.expiration)
      && (forall i :: n <= i < |ts| ==> ts[i].expiration > t.expiration)
  {
    var n := UpperBound(ts, t.expiration);
    assert forall i :: n <= i < |ts| ==> ts[n].expiration <= ts[i].expiration;
  }

  lemma InsertKeepsSorted(ts: seq<Timer>, t: Timer)
    requires Sorted(ts)
    ensures Sorted(Insert(ts, t))
  {
  }

  lemma RemoveKeepsSorted(ts: seq<Timer>, t: Timer)
    requires Sorted(ts)
    ensures Sorted(Remove(ts, t))
  {
  }

  lemma InsertMembers(ts: seq<Timer>, t: Timer)
    ensures forall u :: u in Insert(ts, t) <==> u == t || u in ts
  {
  }

  lemma RemoveMembers(ts: seq<Timer>, t: Timer)
    ensures forall u :: u in Remove(ts, t) ==> u in ts
    ensures forall u :: u in ts && u.id != t.id ==> u in Remove(ts, t)
  {
  }

  lemma IdsConcat(a: seq<Timer>, b: seq<Timer>)
    ensures Ids(a + b) == Ids(a) + Ids(b)
  {
  }

  lemma InsertIds(ts: seq<Timer>, t: Timer)
    ensures multiset(Ids(Insert(ts, t))) == multiset(Ids(ts)) + multiset{t.id}
  {
    var n := UpperBound(ts, t.expiration);
    var a, b := ts[..n], ts[n..];
    assert ts == a + b;
    IdsConcat(a, b);
    IdsConcat(a + [t], b);
    IdsConcat(a, [t]);
    assert Ids([t]) == [t.id];
    assert Ids(Insert(ts, t)) == Ids(a) + [t.id] + Ids(b);
  }

  lemma RemoveIds(ts: seq<Timer>, t: Timer)
    requires IndexOf(ts, t) < |ts|
    ensures multiset(Ids(ts)) == multiset(Ids(Remove(ts, t))) + multiset{t.id}
  {
    var n := IndexOf(ts, t);
    assert ts == ts[..n] + [ts[n]] + ts[n + 1..];
    IdsConcat(ts[..n] + [ts[n]], ts[n + 1..]);
    IdsConcat(ts[..n], [ts[n]]);
    IdsConcat(ts[..n], ts[n + 1..]);
  }

  /** With distinct ids, cancelling removes exactly the timer and nothing else. */
  lemma RemoveExact(ts: seq<Timer>, t: Timer)
    requires t in ts
    requires forall i, j :: 0 <= i < j < |ts| ==> ts[i].id != ts[j].id
    ensures forall u :: u in Remove(ts, t) <==> u in ts && u != t
  {
  }

  /** The nodes that the callbacks enqueue. */
  function Nodes(ts: seq<Timer>): (ns: seq<Node>)
    ensures |ns| == |ts| && forall i :: 0 <= i < |ts| ==> ns[i] == ts[i].node
  {
    seq(|ts|, i requires 0 <= i < |ts| => ts[i].node)
  }

  // ---------------------------------------------------------------------
  // The program.
  // ---------------------------------------------------------------------

  /** The shared queue of src/file_analysis.cpp. */
  class AnalysisQueue {
    var items: seq<Node>

    constructor ()
      ensures items == []
    {
      items := [];
    }

    /** add_queue */
    method AddQueue(node: Node)
      modifies this
      ensures items == old(items) + [node]
    {
      items := items + [node];
    }
  }

  class TaskTimerManager {
    var callbacks: seq<Timer>

    ghost predicate Valid()
      reads this
    {
      Sorted(callbacks)
    }

    constructor ()
      ensures Valid() && callbacks == []
    {
      callbacks := [];
    }

    method Add(timer: Timer)
      requires Valid()
      modifies this
      ensures Valid()
      ensures callbacks == Insert(old(callbacks), timer)
    {
      InsertKeepsSorted(callbacks, timer);
      var n := UpperBound(callbacks, timer.expiration);
      callbacks := callbacks[..n] + [timer] + callbacks[n..];
    }

    /** cancel: search the entries with the same key for the same id. */
    method Cancel(timer: Timer)
      requires Valid()
      modifies this
      ensures Valid()
      ensures callbacks == Remove(old(callbacks), timer)
    {
      RemoveKeepsSorted(callbacks, timer);
      var last := UpperBound(callbacks, timer.expiration);
      var it := UpperBound(callbacks, timer.expiration - 1);
      while it != last && callbacks[it].id != timer.id
        invariant it <= last <= |callbacks|
        invariant it <= IndexOf(callbacks, timer)
        decreases last - it
      {
        it := it + 1;
      }
      if it != last {
        callbacks := callbacks[..it] + callbacks[it + 1..];
      }
    }

    /** One iteration of execute: call what is due, then erase what was called. */
    method ExecutePass(now: int, queue: AnalysisQueue)
      requires Valid()
      modifies this, queue
      ensures Valid()
      ensures exists n | 0 <= n <= |old(callbacks)| ::
        && (forall i :: 0 <= i < n ==> old(callbacks)[i].expiration <= now)
        && (forall i :: n <= i < |old(callbacks)| ==> old(callbacks)[i].expiration > now)
        && queue.items == old(queue.items) + Nodes(old(callbacks)[..n])
        && callbacks == old(callbacks)[n..]
    {
      var end := UpperBound(callbacks, now);
      var it := 0;
      while it != end
        invariant it <= end <= |callbacks| && callbacks == old(callbacks)
        invariant queue.items == old(queue.items) + Nodes(callbacks[..it])
        decreases end - it
      {
        queue.AddQueue(callbacks[it].node);
        it := it + 1;
      }
      callbacks := callbacks[end..];
    }
  }
}
