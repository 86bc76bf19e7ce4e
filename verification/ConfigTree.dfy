/**
 The invariant of the settings tree, and what the elementary changes keep of it.
 */
module ConfigTree {
  import opened Options
  import opened ConfigStore
  import opened ConfigMeaning
  import opened ConfigList

  predicate IsScalar(k: Kind) { !Aggregate(k) && !k.NoneKind? }

  /** The member of the value union that a kind uses. */
  predicate Fits(k: Kind, p: Payload)
  {
    p.Zero? ||
    match k
    case NoneKind => false
    case GroupKind => p.Elements?
    case ArrayKind => p.Elements?
    case ListKind => p.Elements?
    case IntKind => p.IntVal?
    case BoolKind => p.IntVal?
    case Int64Kind => p.Int64Val?
    case FloatKind => p.FloatVal?
    case StringKind => p.StringVal?
  }

  predicate Distinct(ids: seq<Id>)
  {
    forall i, j :: 0 <= i < j < |ids| ==> ids[i] != ids[j]
  }

  /** One setting: its value fits its kind, and its element buffer covers whole chunks. */
  predicate Shape(s: Setting)
  {
    && Fits(s.kind, s.payload)
    && (s.payload.Elements? ==>
          Distinct(s.payload.ids) && RoundUp(|s.payload.ids|, CHUNK_SIZE) <= s.payload.capacity)
  }

  /** The root is a nameless group, and every other setting is an element of its parent. */
  ghost predicate Linked(st: Store)
  {
    && 0 in st.nodes
    && st.nodes[0].parent == None && st.nodes[0].name == None && st.nodes[0].kind == GroupKind
    && forall id {:trigger LinkedNode(st, id)} :: id in st.nodes && id != 0 ==> LinkedNode(st, id)
  }

  predicate LinkedNode(st: Store, id: Id)
    requires id in st.nodes
  {
    st.nodes[id].parent.Some? && st.nodes[id].parent.value in st.nodes
    && id in Children(st.nodes[st.nodes[id].parent.value])
  }

  /** The names and the kinds of elements. */
  ghost function NamesOf(st: Store, ids: seq<Id>): (r: seq<Option<string>>)
    requires forall k :: k in ids ==> k in st.nodes
    ensures |r| == |ids| && forall i :: 0 <= i < |r| ==> r[i] == st.nodes[ids[i]].name
  {
    seq(|ids|, i requires 0 <= i < |ids| => assert ids[i] in ids; st.nodes[ids[i]].name)
  }

  ghost function KindsOf(st: Store, ids: seq<Id>): (r: seq<Kind>)
    requires forall k :: k in ids ==> k in st.nodes
    ensures |r| == |ids| && forall i :: 0 <= i < |r| ==> r[i] == st.nodes[ids[i]].kind
  {
    seq(|ids|, i requires 0 <= i < |ids| => assert ids[i] in ids; st.nodes[ids[i]].kind)
  }

  /** Names of elements: valid and unique in a group, absent in an array or list. */
  predicate Names(names: seq<Option<string>>, group: bool)
  {
    && (forall i :: 0 <= i < |names| && names[i].Some? ==> group && ValidName(names[i].value))
    && (forall i, j :: 0 <= i < j < |names| && names[i].Some? ==> names[i] != names[j])
  }

  /** All members of a group are named, and the elements of an array are scalars of one kind. */
  predicate StrictNames(names: seq<Option<string>>)
  {
    forall i :: 0 <= i < |names| ==> names[i].Some?
  }

  predicate OneKind(kinds: seq<Kind>)
  {
    forall i :: 0 <= i < |kinds| ==> IsScalar(kinds[i]) && kinds[i] == kinds[0]
  }

  ghost predicate NodeOk(st: Store, id: Id)
    requires Wf(st) && id in st.nodes
  {
    Shape(st.nodes[id]) && Names(NamesOf(st, Children(st.nodes[id])), st.nodes[id].kind.GroupKind?)
  }

  ghost predicate Tree(st: Store)
  {
    Wf(st) && Linked(st) && forall id :: id in st.nodes ==> NodeOk(st, id)
  }

  ghost predicate StrictNode(st: Store, id: Id)
    requires Wf(st) && id in st.nodes
  {
    var ids := Children(st.nodes[id]);
    && (st.nodes[id].kind.GroupKind? ==> StrictNames(NamesOf(st, ids)))
    && (st.nodes[id].kind.ArrayKind? ==> OneKind(KindsOf(st, ids)))
  }

  ghost predicate Strict(st: Store)
    requires Wf(st)
  {
    forall id :: id in st.nodes ==> StrictNode(st, id)
  }

  lemma EmptyTree()
    ensures Tree(EMPTY) && Strict(EMPTY)
  {
  }

  // ---------------------------------------------------------------------
  // A new element.
  // ---------------------------------------------------------------------

  /** A name that may join the elements of a parent. */
  ghost predicate FreshName(st: Store, parent: Id, name: Option<string>)
    requires Wf(st) && parent in st.nodes
  {
    name.Some? ==>
      st.nodes[parent].kind.GroupKind? && ValidName(name.value)
      && name !in NamesOf(st, Children(st.nodes[parent]))
  }

  lemma CreateChildren(st: Store, parent: Id, name: Option<string>, kind: Kind)
    requires parent in st.nodes
    ensures Children(Create(st, parent, name, kind).nodes[parent])
         == if parent == st.next then [] else Children(st.nodes[parent]) + [st.next]
  {
  }

  lemma CreateWf(st: Store, parent: Id, name: Option<string>, kind: Kind)
    requires Wf(st) && parent in st.nodes
    ensures Wf(Create(st, parent, name, kind))
  {
    hide ListAdd, Children;
    var st' := Create(st, parent, name, kind);
    CreateChildren(st, parent, name, kind);
    assert Children(st'.nodes[st.next]) == [] by { NoChildren(st'.nodes[st.next]); }
    forall id, k | id in st'.nodes && k in Children(st'.nodes[id])
      ensures k in st'.nodes && id < k && st'.nodes[k].parent == Some(id)
    {
      if id == parent && k != st.next {
        assert k in Children(st.nodes[id]);
      }
    }
  }

  lemma NoChildren(s: Setting)
    requires !s.payload.Elements?
    ensures Children(s) == []
  {
  }

  lemma CreateLinked(st: Store, parent: Id, name: Option<string>, kind: Kind)
    requires Wf(st) && Linked(st) && parent in st.nodes
    ensures Linked(Create(st, parent, name, kind))
  {
    hide ListAdd, Children;
    var st' := Create(st, parent, name, kind);
    CreateChildren(st, parent, name, kind);
    var before := Children(st.nodes[parent]);
    assert forall k :: k in before + [st.next] <==> k in before || k == st.next;
    forall id | id in st'.nodes && id != 0
      ensures LinkedNode(st', id)
    {
      if id != st.next {
        assert LinkedNode(st, id) && st'.nodes[id].parent == st.nodes[id].parent;
        var p := st.nodes[id].parent.value;
        assert id in Children(st.nodes[p]) && p != st.next;
      }
    }
  }

  lemma CreateTree(st: Store, parent: Id, name: Option<string>, kind: Kind)
    requires Tree(st) && parent in st.nodes && Aggregate(st.nodes[parent].kind) && FreshName(st, parent, name)
    ensures Tree(Create(st, parent, name, kind))
  {
    hide Names, Shape, Linked, FreshName;
    var st' := Create(st, parent, name, kind);
    CreateWf(st, parent, name, kind);
    CreateLinked(st, parent, name, kind);
    forall id | id in st'.nodes
      ensures NodeOk(st', id)
    {
      if id == parent {
        CreateAtParent(st, parent, name, kind);
      } else if id == st.next {
        NewNode(st'.nodes[id], NamesOf(st', []));
      } else {
        assert NodeOk(st, id);
        CreateElsewhere(st, parent, name, kind, id);
      }
    }
  }

  lemma NewNode(s: Setting, names: seq<Option<string>>)
    requires s.payload.Zero? && names == []
    ensures Shape(s) && Children(s) == [] && Names(names, s.kind.GroupKind?)
  {
  }

  /** A new element changes the names and kinds of its parent's elements only. */
  lemma CreateElsewhere(st: Store, parent: Id, name: Option<string>, kind: Kind, id: Id)
    requires parent in st.nodes && Wf(st) && Wf(Create(st, parent, name, kind)) && id in st.nodes && id != parent
    ensures
      var st' := Create(st, parent, name, kind);
      && st'.nodes[id] == st.nodes[id]
      && NamesOf(st', Children(st'.nodes[id])) == NamesOf(st, Children(st.nodes[id]))
      && KindsOf(st', Children(st'.nodes[id])) == KindsOf(st, Children(st.nodes[id]))
  {
  }

  lemma CreateBelow(st: Store, parent: Id, name: Option<string>, kind: Kind)
    requires parent in st.nodes && Wf(st) && Wf(Create(st, parent, name, kind))
    ensures
      var st' := Create(st, parent, name, kind);
      && NamesOf(st', Children(st'.nodes[parent])) == NamesOf(st, Children(st.nodes[parent])) + [name]
      && KindsOf(st', Children(st'.nodes[parent])) == KindsOf(st, Children(st.nodes[parent])) + [kind]
  {
  }

  lemma NamesAppend(names: seq<Option<string>>, name: Option<string>, group: bool)
    requires Names(names, group)
    requires name.Some? ==> group && ValidName(name.value) && name !in names
    ensures Names(names + [name], group)
  {
  }

  lemma ShapeAppend(s: Setting, k: Id)
    requires Shape(s) && Aggregate(s.kind) && k !in Children(s)
    ensures Shape(s.(payload := ListAdd(s.payload, k)))
  {
  }

  lemma CreateAtParent(st: Store, parent: Id, name: Option<string>, kind: Kind)
    requires Tree(st) && parent in st.nodes && Aggregate(st.nodes[parent].kind) && FreshName(st, parent, name)
    requires Wf(Create(st, parent, name, kind))
    ensures NodeOk(Create(st, parent, name, kind), parent)
  {
    hide Names, Shape, Linked, ListAdd;
    assert NodeOk(st, parent);
    CreateBelow(st, parent, name, kind);
    assert st.next !in Children(st.nodes[parent]);
    ShapeAppend(st.nodes[parent], st.next);
    NamesAppend(NamesOf(st, Children(st.nodes[parent])), name, st.nodes[parent].kind.GroupKind?);
  }

  // ---------------------------------------------------------------------
  // A new value in place.
  // ---------------------------------------------------------------------

  /** Replace one setting by another without touching links, names and elements. */
  ghost predicate InPlace(s: Setting, s': Setting)
  {
    && s'.name == s.name && s'.parent == s.parent && Children(s') == Children(s)
    && (s'.kind == s.kind || (s.kind.NoneKind? && Children(s) == []))
    && Shape(s')
  }

  function Replace(st: Store, id: Id, s: Setting): Store
  {
    st.(nodes := st.nodes[id := s])
  }

  lemma ReplaceWf(st: Store, id: Id, s: Setting)
    requires Wf(st) && id in st.nodes && InPlace(st.nodes[id], s)
    ensures Wf(Replace(st, id, s))
  {
  }

  lemma ReplaceLinked(st: Store, id: Id, s: Setting)
    requires Linked(st) && id in st.nodes && InPlace(st.nodes[id], s)
    ensures Linked(Replace(st, id, s))
  {
    hide Children, Shape;
    var st' := Replace(st, id, s);
    forall k | k in st'.nodes && k != 0
      ensures LinkedNode(st', k)
    {
      assert LinkedNode(st, k) && st'.nodes[k].parent == st.nodes[k].parent;
      var p := st.nodes[k].parent.value;
      assert Children(st'.nodes[p]) == Children(st.nodes[p]);
    }
  }

  lemma ReplaceNames(st: Store, id: Id, s: Setting, k: Id)
    requires Wf(st) && Wf(Replace(st, id, s)) && id in st.nodes && k in st.nodes && InPlace(st.nodes[id], s)
    ensures
      var st' := Replace(st, id, s);
      && NamesOf(st', Children(st'.nodes[k])) == NamesOf(st, Children(st.nodes[k]))
  {
  }

  lemma ReplaceTree(st: Store, id: Id, s: Setting)
    requires Tree(st) && id in st.nodes && InPlace(st.nodes[id], s)
    ensures Tree(Replace(st, id, s))
  {
    hide Names, Shape, Linked;
    var st' := Replace(st, id, s);
    ReplaceWf(st, id, s);
    ReplaceLinked(st, id, s);
    forall k | k in st'.nodes
      ensures NodeOk(st', k)
    {
      assert NodeOk(st, k);
      ReplaceNames(st, id, s, k);
      NamesOfNothing(NamesOf(st, Children(st.nodes[k])), st.nodes[k].kind.GroupKind?, st'.nodes[k].kind.GroupKind?);
    }
  }

  lemma NamesOfNothing(names: seq<Option<string>>, group: bool, group': bool)
    requires Names(names, group) && (group == group' || names == [])
    ensures Names(names, group')
  {
  }
}
