/**
 Removing a setting: its place in the parent's list goes, and so does everything
 whose chain of parents passes through it.
 */
module ConfigRemoval {
  import opened Options
  import opened ConfigStore
  import opened ConfigMeaning
  import opened ConfigList
  import opened ConfigTree

  /** The chain of parents from k passes through id. */
  predicate Under(st: Store, k: Id, id: Id)
    decreases k
  {
    k == id ||
    (k in st.nodes && st.nodes[k].parent.Some? && st.nodes[k].parent.value < k
     && Under(st, st.nodes[k].parent.value, id))
  }

  lemma {:induction false} UnderAbove(st: Store, k: Id, id: Id)
    requires Under(st, k, id)
    ensures id <= k
    decreases k
  {
    if k != id {
      UnderAbove(st, st.nodes[k].parent.value, id);
    }
  }

  lemma NotUnder(st: Store, k: Id, id: Id)
    requires k < id
    ensures !Under(st, k, id)
  {
  }

  lemma {:induction false} UnderTrans(st: Store, k: Id, a: Id, b: Id)
    requires Under(st, k, a) && Under(st, a, b)
    ensures Under(st, k, b)
    decreases k
  {
    if k != a {
      UnderTrans(st, st.nodes[k].parent.value, a, b);
    }
  }

  /** The chain is a chain. */
  lemma {:induction false} UnderLinear(st: Store, k: Id, a: Id, b: Id)
    requires Under(st, k, a) && Under(st, k, b)
    ensures Under(st, a, b) || Under(st, b, a)
    decreases k
  {
    if k != a && k != b {
      UnderLinear(st, st.nodes[k].parent.value, a, b);
    }
  }

  /** Nothing is under two elements of the same setting. */
  lemma Siblings(st: Store, id: Id, k: Id, a: Id, b: Id)
    requires Wf(st) && id in st.nodes && a in Children(st.nodes[id]) && b in Children(st.nodes[id])
    requires Under(st, k, a) && Under(st, k, b)
    ensures a == b
  {
    UnderLinear(st, k, a, b);
    if Under(st, a, b) && a != b {
      UnderAbove(st, id, b);
    } else if Under(st, b, a) && a != b {
      UnderAbove(st, id, a);
    }
  }

  /** Everything under a setting is the setting or is under one of its elements. */
  lemma {:induction false} UnderElement(st: Store, k: Id, id: Id)
    requires Wf(st) && Linked(st) && k in st.nodes && id in st.nodes && Under(st, k, id) && k != id
    ensures exists c :: c in Children(st.nodes[id]) && Under(st, k, c)
    decreases k
  {
    var p := st.nodes[k].parent.value;
    assert LinkedNode(st, k);
    if p == id {
      assert k in Children(st.nodes[id]) && Under(st, k, k);
    } else {
      UnderElement(st, p, id);
      var c :| c in Children(st.nodes[id]) && Under(st, p, c);
      assert Under(st, k, c);
    }
  }

  lemma ElementUnder(st: Store, id: Id, c: Id)
    requires Wf(st) && id in st.nodes && c in Children(st.nodes[id])
    ensures Under(st, c, id)
  {
  }

  /** The settings that are not under id. */
  function Without(nodes: map<Id, Setting>, st: Store, id: Id): map<Id, Setting>
  {
    map k | k in nodes && !Under(st, k, id) :: nodes[k]
  }

  /** Take the element at a position out of the tree. */
  function RemoveAt(st: Store, parent: Id, idx: nat): Store
    requires parent in st.nodes && idx < |Children(st.nodes[parent])|
  {
    var p := st.nodes[parent];
    var detached := st.nodes[parent := p.(payload := ListRemove(p.payload, idx))];
    st.(nodes := Without(detached, st, Children(p)[idx]))
  }

  /** What is left. */
  lemma RemoveAtNodes(st: Store, parent: Id, idx: nat)
    requires Wf(st) && parent in st.nodes && idx < |Children(st.nodes[parent])|
    ensures
      var c := Children(st.nodes[parent])[idx];
      var st' := RemoveAt(st, parent, idx);
      && st'.next == st.next && parent in st'.nodes
      && (forall k :: k in st'.nodes <==> k in st.nodes && !Under(st, k, c))
      && (forall k :: k in st'.nodes && k != parent ==> st'.nodes[k] == st.nodes[k])
      && st'.nodes[parent] == st.nodes[parent].(payload := ListRemove(st.nodes[parent].payload, idx))
  {
    hide ListRemove, Under;
    var c := Children(st.nodes[parent])[idx];
    assert c in Children(st.nodes[parent]);
    NotUnder(st, parent, c);
  }

  lemma ListRemoveIn(p: Payload, idx: nat, k: Id)
    requires p.Elements? && idx < |p.ids| && Distinct(p.ids)
    ensures k in ListRemove(p, idx).ids <==> k in p.ids && k != p.ids[idx]
  {
  }

  /** The elements of what is left: all the same, but for the one removed. */
  lemma LeftElements(st: Store, parent: Id, idx: nat, id: Id, k: Id)
    requires Tree(st) && parent in st.nodes && idx < |Children(st.nodes[parent])|
    requires id in RemoveAt(st, parent, idx).nodes
    ensures
      var st' := RemoveAt(st, parent, idx);
      && id in st.nodes
      && (k in Children(st'.nodes[id]) ==> k in Children(st.nodes[id]) && k in st'.nodes)
      && (k in Children(st.nodes[id]) && k in st'.nodes ==> k in Children(st'.nodes[id]))
  {
    hide ListRemove, Names, Linked, RemoveAt;
    var c := Children(st.nodes[parent])[idx];
    assert c in Children(st.nodes[parent]);
    RemoveAtNodes(st, parent, idx);
    assert NodeOk(st, parent);
    ListRemoveIn(st.nodes[parent].payload, idx, k);
    assert st.nodes[c].parent == Some(parent);
    assert Under(st, c, c);
    assert k in Children(st.nodes[id]) && Under(st, k, c) && k != c ==> Under(st, id, c);
  }

  lemma RemoveWf(st: Store, parent: Id, idx: nat)
    requires Tree(st) && parent in st.nodes && idx < |Children(st.nodes[parent])|
    ensures Wf(RemoveAt(st, parent, idx))
  {
    hide ListRemove, Names, Linked, RemoveAt, Children, Under;
    var st' := RemoveAt(st, parent, idx);
    RemoveAtNodes(st, parent, idx);
    forall id, k | id in st'.nodes && k in Children(st'.nodes[id])
      ensures k in st'.nodes && id < k && st'.nodes[k].parent == Some(id)
    {
      LeftElements(st, parent, idx, id, k);
    }
  }

  lemma RemoveLinked(st: Store, parent: Id, idx: nat)
    requires Tree(st) && parent in st.nodes && idx < |Children(st.nodes[parent])|
    ensures Linked(RemoveAt(st, parent, idx))
  {
    hide ListRemove, NodeOk, RemoveAt, Children;
    var st' := RemoveAt(st, parent, idx);
    var c := Children(st.nodes[parent])[idx];
    assert c in Children(st.nodes[parent]);
    RemoveAtNodes(st, parent, idx);
    assert !Under(st, 0, c);
    forall k | k in st'.nodes && k != 0
      ensures LinkedNode(st', k)
    {
      assert k in st.nodes && LinkedNode(st, k) && st'.nodes[k].parent == st.nodes[k].parent;
      var p := st.nodes[k].parent.value;
      assert k in Children(st.nodes[p]);
      assert p < k;
      assert !Under(st, p, c);
      LeftElements(st, parent, idx, p, k);
    }
  }

  function Take<T>(s: seq<T>, idx: nat): seq<T>
    requires idx < |s|
  {
    s[..idx] + s[idx + 1..]
  }

  lemma NamesTake(names: seq<Option<string>>, idx: nat, group: bool)
    requires Names(names, group) && idx < |names|
    ensures Names(Take(names, idx), group)
  {
  }

  lemma ShapeTake(s: Setting, idx: nat)
    requires Shape(s) && idx < |Children(s)|
    ensures Shape(s.(payload := ListRemove(s.payload, idx)))
  {
  }

  /** Names and kinds after a removal. */
  lemma RemoveNames(st: Store, parent: Id, idx: nat, id: Id)
    requires Tree(st) && parent in st.nodes && idx < |Children(st.nodes[parent])|
    requires id in RemoveAt(st, parent, idx).nodes && Wf(RemoveAt(st, parent, idx))
    ensures
      var st' := RemoveAt(st, parent, idx);
      && id in st.nodes && st'.nodes[id].kind == st.nodes[id].kind
      && NamesOf(st', Children(st'.nodes[id]))
         == (if id == parent then Take(NamesOf(st, Children(st.nodes[id])), idx) else NamesOf(st, Children(st.nodes[id])))
      && KindsOf(st', Children(st'.nodes[id]))
         == (if id == parent then Take(KindsOf(st, Children(st.nodes[id])), idx) else KindsOf(st, Children(st.nodes[id])))
  {
    hide NodeOk, Linked, RemoveAt, Under, NamesOf, KindsOf, Take;
    var st' := RemoveAt(st, parent, idx);
    RemoveAtNodes(st, parent, idx);
    var ids, ids' := Children(st.nodes[id]), Children(st'.nodes[id]);
    assert forall k :: k in ids' ==> k in st'.nodes;
    if id == parent {
      TakeNames(st, ids, idx);
    }
    SameSettings(st, st', ids');
  }

  lemma TakeNames(st: Store, ids: seq<Id>, idx: nat)
    requires idx < |ids| && forall k :: k in ids ==> k in st.nodes
    ensures forall k :: k in Take(ids, idx) ==> k in st.nodes
    ensures NamesOf(st, Take(ids, idx)) == Take(NamesOf(st, ids), idx)
    ensures KindsOf(st, Take(ids, idx)) == Take(KindsOf(st, ids), idx)
    ensures Take(ids, idx) == ids[..idx] + ids[idx + 1..]
  {
    assert forall i :: 0 <= i < |Take(ids, idx)| ==> Take(ids, idx)[i] == ids[if i < idx then i else i + 1];
  }

  lemma SameSettings(st: Store, st': Store, ids: seq<Id>)
    requires forall k :: k in ids ==> k in st.nodes && k in st'.nodes
    requires forall k :: k in ids ==> st'.nodes[k].name == st.nodes[k].name && st'.nodes[k].kind == st.nodes[k].kind
    ensures NamesOf(st', ids) == NamesOf(st, ids) && KindsOf(st', ids) == KindsOf(st, ids)
  {
  }

  lemma RemoveTree(st: Store, parent: Id, idx: nat)
    requires Tree(st) && parent in st.nodes && idx < |Children(st.nodes[parent])|
    ensures Tree(RemoveAt(st, parent, idx))
  {
    hide Names, Shape, Linked, RemoveAt, Children, ListRemove;
    var st' := RemoveAt(st, parent, idx);
    RemoveWf(st, parent, idx);
    RemoveLinked(st, parent, idx);
    RemoveAtNodes(st, parent, idx);
    forall id | id in st'.nodes
      ensures NodeOk(st', id)
    {
      assert NodeOk(st, id);
      RemoveNames(st, parent, idx, id);
      if id == parent {
        NamesTake(NamesOf(st, Children(st.nodes[id])), idx, st.nodes[id].kind.GroupKind?);
        ShapeTake(st.nodes[id], idx);
      }
    }
  }

  lemma RemoveStrict(st: Store, parent: Id, idx: nat)
    requires Tree(st) && Strict(st) && parent in st.nodes && idx < |Children(st.nodes[parent])|
    ensures Wf(RemoveAt(st, parent, idx)) && Strict(RemoveAt(st, parent, idx))
  {
    hide NodeOk, Linked, RemoveAt, Children, ListRemove;
    var st' := RemoveAt(st, parent, idx);
    RemoveWf(st, parent, idx);
    forall id | id in st'.nodes
      ensures StrictNode(st', id)
    {
      RemoveNames(st, parent, idx, id);
      assert StrictNode(st, id);
    }
  }
}
