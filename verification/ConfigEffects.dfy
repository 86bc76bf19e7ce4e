/**
 What the editing calls do to the meaning of the tree: which values are stored, which
 elements come and go, and that everything else is as before.
 */
module ConfigEffects {
  import opened Options
  import opened ConfigStore
  import opened ConfigMeaning
  import opened ConfigList
  import opened ConfigTree
  import opened ConfigRemoval
  import opened ConfigEdits
  import opened ConfigLookup

  // ---------------------------------------------------------------------
  // Frames.
  // ---------------------------------------------------------------------

  /** Everything under k is in both stores the same. */
  ghost predicate SameUnder(st: Store, st': Store, k: Id)
  {
    forall n :: n in st.nodes && Under(st, n, k) ==> n in st'.nodes && st'.nodes[n] == st.nodes[n]
  }

  lemma SameUnderElement(st: Store, st': Store, k: Id, c: Id)
    requires Wf(st) && k in st.nodes && c in Children(st.nodes[k]) && SameUnder(st, st', k)
    ensures SameUnder(st, st', c)
  {
    hide Under;
    ElementUnder(st, k, c);
    forall n | n in st.nodes && Under(st, n, c)
      ensures n in st'.nodes && st'.nodes[n] == st.nodes[n]
    {
      UnderTrans(st, n, c, k);
    }
  }

  /** The meaning of a setting depends on nothing but what is under it. */
  lemma {:induction false} SameMeaning(st: Store, st': Store, k: Id)
    requires Wf(st) && Wf(st') && k in st.nodes && SameUnder(st, st', k)
    ensures k in st'.nodes && Abs(st', k) == Abs(st, k)
    decreases st.next - k
  {
    hide Under, SameUnder;
    assert k in st'.nodes && st'.nodes[k] == st.nodes[k] by { SameAt(st, st', k); }
    ChildrenAbove(st, k);
    ChildrenAbove(st', k);
    var ids := Children(st.nodes[k]);
    forall i | 0 <= i < |ids|
      ensures SameUnder(st, st', ids[i])
    {
      assert ids[i] in ids;
      SameUnderElement(st, st', k, ids[i]);
    }
    SameMeanings(st, st', ids, k);
  }

  lemma SameAt(st: Store, st': Store, k: Id)
    requires k in st.nodes && SameUnder(st, st', k)
    ensures k in st'.nodes && st'.nodes[k] == st.nodes[k]
  {
    assert Under(st, k, k);
  }

  lemma {:induction false} SameMeanings(st: Store, st': Store, ids: seq<Id>, lo: Id)
    requires Wf(st) && Wf(st') && Above(st, ids, lo) && lo < st.next
    requires forall i :: 0 <= i < |ids| ==> SameUnder(st, st', ids[i])
    ensures Above(st', ids, lo) && AbsAll(st', ids, lo) == AbsAll(st, ids, lo)
    ensures AbsMembers(st', ids, lo) == AbsMembers(st, ids, lo)
    decreases st.next - lo, |ids|
  {
    hide Under, SameUnder, Abs;
    if ids != [] {
      SameAt(st, st', ids[0]);
      assert ids[0] < st.next;
      SameMeaning(st, st', ids[0]);
      SameMeanings(st, st', ids[1..], lo);
    }
  }

  /** A setting that does not hold the changed one means what it meant. */
  lemma ApartFrom(st: Store, st': Store, id: Id, k: Id)
    requires forall n :: n in st.nodes && n != id ==> n in st'.nodes && st'.nodes[n] == st.nodes[n]
    requires !Under(st, id, k)
    ensures SameUnder(st, st', k)
  {
    hide Under;
  }

  // ---------------------------------------------------------------------
  // What a value means.
  // ---------------------------------------------------------------------

  /** The meaning of a value that is stored with a format. */
  function Said(d: Datum, format: int): Ast
  {
    match d
    case DInt(i) => AInt(i, format)
    case DInt64(l) => AInt64(l, format)
    case DFloat(text) => AFloat(text)
    case DBool(i) => ABool(i)
    case DString(s) => AString(s)
  }

  /** A new setting without a value. */
  function Blank(kind: Kind): Ast
  {
    match kind
    case NoneKind => ANone
    case BoolKind => ABool(0)
    case IntKind => AInt(0, FORMAT_DEFAULT)
    case Int64Kind => AInt64(0, FORMAT_DEFAULT)
    case FloatKind => AFloat("")
    case StringKind => AString(None)
    case ArrayKind => AArray([])
    case ListKind => AList([])
    case GroupKind => AGroup([])
  }

  /** The elements of an aggregate: their names and meanings. */
  ghost function Members(st: Store, id: Id): (r: seq<AMember>)
    requires Wf(st) && id in st.nodes
    ensures |r| == |Children(st.nodes[id])|
    ensures forall i :: 0 <= i < |r| ==>
      Children(st.nodes[id])[i] in st.nodes
      && r[i] == AMember(st.nodes[Children(st.nodes[id])[i]].name, Abs(st, Children(st.nodes[id])[i]))
  {
    var ids := Children(st.nodes[id]);
    ChildrenAbove(st, id);
    seq(|ids|, i requires 0 <= i < |ids| => AMember(st.nodes[ids[i]].name, Abs(st, ids[i])))
  }

  // ---------------------------------------------------------------------
  // A new element.
  // ---------------------------------------------------------------------

  /** One setting was added at the end of another's elements; nothing else changed. */
  ghost predicate Extended(st: Store, st': Store, parent: Id, name: Option<string>, kind: Kind, meaning: Ast)
  {
    && Wf(st) && Wf(st') && parent in st.nodes && st.next !in st.nodes
    && st'.nodes.Keys == st.nodes.Keys + {st.next}
    && (forall k :: k in st.nodes && k != parent ==> st'.nodes[k] == st.nodes[k])
    && st'.nodes[parent].name == st.nodes[parent].name && st'.nodes[parent].kind == st.nodes[parent].kind
    && st'.nodes[parent].parent == st.nodes[parent].parent && st'.nodes[parent].format == st.nodes[parent].format
    && st'.nodes[st.next].name == name && st'.nodes[st.next].kind == kind && st'.nodes[st.next].parent == Some(parent)
    && Abs(st', st.next) == meaning
    && Children(st'.nodes[parent]) == Children(st.nodes[parent]) + [st.next]
    && Members(st', parent) == Members(st, parent) + [AMember(name, meaning)]
  }

  lemma ExtendedMembers(st: Store, st': Store, parent: Id, name: Option<string>, meaning: Ast)
    requires Wf(st) && Wf(st') && parent in st.nodes && parent in st'.nodes && st.next in st'.nodes
    requires forall k :: k in st.nodes && k != parent ==> k in st'.nodes && st'.nodes[k] == st.nodes[k]
    requires Children(st'.nodes[parent]) == Children(st.nodes[parent]) + [st.next]
    requires st'.nodes[st.next].name == name && Abs(st', st.next) == meaning
    ensures Members(st', parent) == Members(st, parent) + [AMember(name, meaning)]
  {
    hide Under, Abs;
    var ids := Children(st.nodes[parent]);
    forall i | 0 <= i < |ids|
      ensures Members(st', parent)[i] == Members(st, parent)[i]
    {
      assert ids[i] in ids;
      NotUnder(st, parent, ids[i]);
      ApartFrom(st, st', parent, ids[i]);
      SameMeaning(st, st', ids[i]);
    }
  }

  lemma CreateExtends(st: Store, parent: Id, name: Option<string>, kind: Kind)
    requires Tree(st) && parent in st.nodes && Aggregate(st.nodes[parent].kind)
    requires FreshName(st, parent, name)
    ensures Extended(st, Create(st, parent, name, kind), parent, name, kind, Blank(kind))
  {
    hide Names, Shape, Linked, Members, NodeOk, FreshName;
    var st' := Create(st, parent, name, kind);
    CreateWf(st, parent, name, kind);
    CreateChildren(st, parent, name, kind);
    BlankMeaning(st', st.next, kind);
    ExtendedMembers(st, st', parent, name, Blank(kind));
  }

  lemma BlankMeaning(st: Store, id: Id, kind: Kind)
    requires Wf(st) && id in st.nodes && st.nodes[id].payload == Zero && st.nodes[id].kind == kind
    requires st.nodes[id].format == FORMAT_DEFAULT
    ensures Abs(st, id) == Blank(kind)
  {
    assert Children(st.nodes[id]) == [];
  }

  lemma SaidMeaning(st: Store, id: Id, d: Datum)
    requires Wf(st) && id in st.nodes
    requires st.nodes[id].kind == DatumKind(d) && st.nodes[id].payload == DatumPayload(d)
    ensures Abs(st, id) == Said(d, st.nodes[id].format)
  {
  }

  /** config_setting_add adds an empty setting of the given kind, named in a group only. */
  lemma AddEffect(st: Store, parent: Id, name: Option<string>, kind: Kind)
    requires Tree(st) && parent in st.nodes && Perform(st, AddSetting(parent, name, kind)).Some?
    ensures Extended(st, Perform(st, AddSetting(parent, name, kind)).value, parent,
                     if st.nodes[parent].kind.GroupKind? then name else None, kind, Blank(kind))
  {
    hide Tree, Create, FreshName, Extended, Add;
    AddFresh(st, parent, name, kind);
    CreateExtends(st, parent, if st.nodes[parent].kind.GroupKind? then name else None, kind);
  }

  /** config_setting_set_*_elem with a negative index appends the value with the default format. */
  lemma AppendEffect(st: Store, v: Id, idx: int, d: Datum)
    requires Tree(st) && v in st.nodes && idx < 0 && Perform(st, SetElement(v, idx, d)).Some?
    ensures Extended(st, Perform(st, SetElement(v, idx, d)).value, v, None, DatumKind(d), Said(d, FORMAT_DEFAULT))
  {
    hide Names, Shape, Linked, Members, NodeOk, Append, InPlace, Fits, Under, Abs;
    DatumFits(d);
    ElementBelow(st, v);
    AppendParts(st, v, DatumKind(d), DatumPayload(d), FORMAT_DEFAULT);
    EditKeepsTree(st, SetElement(v, idx, d));
    CreateChildren(st, v, None, DatumKind(d));
    var st' := Perform(st, SetElement(v, idx, d)).value;
    SaidMeaning(st', st.next, d);
    ExtendedMembers(st, st', v, None, Said(d, FORMAT_DEFAULT));
  }

  lemma ElementBelow(st: Store, v: Id)
    requires Wf(st) && v in st.nodes
    ensures v < st.next && st.next !in st.nodes
  {
  }

  // ---------------------------------------------------------------------
  // A new value in place.
  // ---------------------------------------------------------------------

  /** One setting has a new meaning; links, names and everything not above it are as before. */
  ghost predicate Changed(st: Store, st': Store, id: Id, meaning: Ast)
  {
    && Wf(st) && Wf(st') && id in st.nodes && st'.nodes.Keys == st.nodes.Keys
    && (forall k :: k in st.nodes && k != id ==> st'.nodes[k] == st.nodes[k])
    && st'.nodes[id].name == st.nodes[id].name && st'.nodes[id].parent == st.nodes[id].parent
    && Abs(st', id) == meaning
    && (forall k :: k in st.nodes && !Under(st, id, k) ==> Abs(st', k) == Abs(st, k))
  }

  /** The elements around a changed one mean what they meant. */
  lemma OnlyThatElement(st: Store, st': Store, v: Id, idx: nat, meaning: Ast)
    requires Tree(st) && v in st.nodes && idx < |Children(st.nodes[v])|
    requires Changed(st, st', Children(st.nodes[v])[idx], meaning)
    ensures Members(st', v) == Members(st, v)[idx := AMember(Members(st, v)[idx].name, meaning)]
  {
    hide Under, Abs, NodeOk, Linked;
    var ids := Children(st.nodes[v]);
    var id := ids[idx];
    assert id in ids;
    assert Children(st'.nodes[v]) == ids;
    DistinctIds(st, v);
    forall i | 0 <= i < |ids| && i != idx
      ensures Members(st', v)[i] == Members(st, v)[i]
    {
      assert ids[i] in ids;
      UnderSelf(st, id);
      if Under(st, id, ids[i]) {
        Siblings(st, v, id, ids[i], id);
      }
    }
  }

  lemma DistinctIds(st: Store, v: Id)
    requires Tree(st) && v in st.nodes
    ensures Distinct(Children(st.nodes[v]))
  {
    assert NodeOk(st, v);
  }

  lemma UnderSelf(st: Store, id: Id)
    ensures Under(st, id, id)
  {
  }

  lemma ReplaceChanges(st: Store, id: Id, s: Setting, meaning: Ast)
    requires Tree(st) && id in st.nodes && InPlace(st.nodes[id], s)
    requires Wf(Replace(st, id, s)) && Abs(Replace(st, id, s), id) == meaning
    ensures Changed(st, Replace(st, id, s), id, meaning)
  {
    hide Under, Abs, Shape, Tree;
    assert Wf(st) by { TreeWf(st); }
    var st' := Replace(st, id, s);
    forall k | k in st.nodes && !Under(st, id, k)
      ensures Abs(st', k) == Abs(st, k)
    {
      ApartFrom(st, st', id, k);
      SameMeaning(st, st', k);
    }
  }

  lemma TreeWf(st: Store)
    requires Tree(st)
    ensures Wf(st) && Linked(st)
  {
  }

  /** What a setting means once a value was stored in it: the value, or what of it fits an int. */
  function Kept(s: Setting, d: Datum): Ast
  {
    if s.kind.IntKind? && d.DInt64? then AInt(if -0x8000_0000 <= d.l <= 0x7FFF_FFFF then d.l else 0, s.format)
    else Said(d, s.format)
  }

  lemma AssignEffect(st: Store, id: Id, d: Datum)
    requires Tree(st) && id in st.nodes && Assign(st.nodes[id], d).Some?
    ensures Changed(st, Replace(st, id, Assign(st.nodes[id], d).value), id, Kept(st.nodes[id], d))
  {
    hide NodeOk, Linked, Names, Shape, Changed;
    assert NodeOk(st, id);
    var s := Assign(st.nodes[id], d).value;
    ShapeOf(st, id);
    AssignInPlace(st.nodes[id], d);
    ReplaceWf(st, id, s);
    AssignMeaning(st, id, d);
    ReplaceChanges(st, id, s, Kept(st.nodes[id], d));
  }

  lemma ShapeOf(st: Store, id: Id)
    requires Tree(st) && id in st.nodes
    ensures Shape(st.nodes[id])
  {
    assert NodeOk(st, id);
  }

  lemma AssignMeaning(st: Store, id: Id, d: Datum)
    requires id in st.nodes && Assign(st.nodes[id], d).Some? && Wf(Replace(st, id, Assign(st.nodes[id], d).value))
    ensures Abs(Replace(st, id, Assign(st.nodes[id], d).value), id) == Kept(st.nodes[id], d)
  {
  }

  /** config_setting_set_* gives the setting the value, with the format it had. */
  lemma SetEffect(st: Store, id: Id, d: Datum)
    requires Tree(st) && id in st.nodes && Perform(st, SetValue(id, d)).Some?
    ensures Changed(st, Perform(st, SetValue(id, d)).value, id, Kept(st.nodes[id], d))
  {
    hide Tree, Changed, Assign, Kept;
    AssignEffect(st, id, d);
  }

  /** One element has a new value, and the others mean what they meant. */
  ghost predicate ElementSet(st: Store, st': Store, v: Id, idx: nat, d: Datum)
  {
    && Wf(st) && Wf(st') && v in st.nodes && v in st'.nodes && idx < |Children(st.nodes[v])|
    && var id := Children(st.nodes[v])[idx];
    && id in st.nodes && Changed(st, st', id, Kept(st.nodes[id], d))
    && Members(st', v) == Members(st, v)[idx := AMember(Members(st, v)[idx].name, Kept(st.nodes[id], d))]
  }

  /** config_setting_set_*_elem with an index gives that element the value. */
  lemma SetElementEffect(st: Store, v: Id, idx: nat, d: Datum)
    requires Tree(st) && v in st.nodes && Perform(st, SetElement(v, idx, d)).Some?
    ensures ElementSet(st, Perform(st, SetElement(v, idx, d)).value, v, idx, d)
  {
    hide Tree, Assign, Kept, Members, Abs, Under;
    TreeWf(st);
    var id := Children(st.nodes[v])[idx];
    assert id in st.nodes;
    AssignEffect(st, id, d);
    OnlyThatElement(st, Replace(st, id, Assign(st.nodes[id], d).value), v, idx, Kept(st.nodes[id], d));
  }

  /** config_setting_set_format changes the format of an integer and nothing else. */
  lemma FormatEffect(st: Store, id: Id, format: int)
    requires Tree(st) && id in st.nodes && Perform(st, SetFormat(id, format)).Some?
    ensures
      var st' := Perform(st, SetFormat(id, format)).value;
      Changed(st, st', id, match Abs(st, id)
        case AInt(i, _) => AInt(i, format)
        case AInt64(l, _) => AInt64(l, format)
        case other => other)
      && (Abs(st, id).AInt? || Abs(st, id).AInt64?)
  {
    hide NodeOk, Linked, Names, Changed;
    ShapeOf(st, id);
    FormatInPlace(st.nodes[id], format);
    var s := WithFormat(st.nodes[id], format).value;
    ReplaceWf(st, id, s);
    ReplaceChanges(st, id, s, Abs(Replace(st, id, s), id));
  }

  // ---------------------------------------------------------------------
  // Removal.
  // ---------------------------------------------------------------------

  /** One element is gone with everything under it; everything not above it is as before. */
  ghost predicate Shrunk(st: Store, st': Store, parent: Id, idx: nat)
  {
    && Wf(st) && Wf(st') && parent in st.nodes && parent in st'.nodes && idx < |Children(st.nodes[parent])|
    && (forall k :: k in st'.nodes <==> k in st.nodes && !Under(st, k, Children(st.nodes[parent])[idx]))
    && (forall k :: k in st'.nodes ==>
          st'.nodes[k].name == st.nodes[k].name && st'.nodes[k].kind == st.nodes[k].kind
          && st'.nodes[k].parent == st.nodes[k].parent)
    && (forall k :: k in st'.nodes && !Under(st, parent, k) ==> Abs(st', k) == Abs(st, k))
    && Members(st', parent) == Members(st, parent)[..idx] + Members(st, parent)[idx + 1..]
  }

  lemma RemoveEffect(st: Store, parent: Id, idx: nat)
    requires Tree(st) && parent in st.nodes && idx < |Children(st.nodes[parent])|
    ensures Shrunk(st, RemoveAt(st, parent, idx), parent, idx)
  {
    hide NodeOk, Linked, Under, Abs, RemoveAt, Members, ListRemove;
    var st' := RemoveAt(st, parent, idx);
    RemoveWf(st, parent, idx);
    RemoveAtNodes(st, parent, idx);
    forall k | k in st'.nodes && !Under(st, parent, k)
      ensures Abs(st', k) == Abs(st, k)
    {
      LeftApart(st, parent, idx, k);
      SameMeaning(st, st', k);
    }
    LeftMembers(st, parent, idx);
  }

  /** Nothing under a setting that does not hold the parent is touched by a removal below the parent. */
  lemma LeftApart(st: Store, parent: Id, idx: nat, k: Id)
    requires Tree(st) && parent in st.nodes && idx < |Children(st.nodes[parent])|
    requires k in RemoveAt(st, parent, idx).nodes && !Under(st, parent, k)
    ensures SameUnder(st, RemoveAt(st, parent, idx), k)
  {
    hide NodeOk, Linked, Under, RemoveAt, ListRemove;
    var c := Children(st.nodes[parent])[idx];
    assert c in Children(st.nodes[parent]);
    RemoveAtNodes(st, parent, idx);
    ElementUnder(st, parent, c);
    forall n | n in st.nodes && Under(st, n, k)
      ensures n in RemoveAt(st, parent, idx).nodes && n != parent
    {
      if Under(st, n, c) {
        UnderLinear(st, n, k, c);
        Between(st, parent, c, k);
      }
    }
  }

  /** What is above an element and is not the element is above its parent. */
  lemma Between(st: Store, parent: Id, c: Id, k: Id)
    requires Wf(st) && parent in st.nodes && c in Children(st.nodes[parent])
    ensures Under(st, c, k) ==> c == k || Under(st, parent, k)
  {
  }

  lemma LeftMembers(st: Store, parent: Id, idx: nat)
    requires Tree(st) && parent in st.nodes && idx < |Children(st.nodes[parent])|
    requires Wf(RemoveAt(st, parent, idx)) && parent in RemoveAt(st, parent, idx).nodes
    ensures Members(RemoveAt(st, parent, idx), parent)
         == Members(st, parent)[..idx] + Members(st, parent)[idx + 1..]
  {
    hide NodeOk, Linked, Under, Abs, RemoveAt, Members, Wf;
    var st' := RemoveAt(st, parent, idx);
    LeftIds(st, parent, idx);
    var before, after := Members(st, parent), Members(st', parent);
    forall i | 0 <= i < |after|
      ensures after[i] == before[if i < idx then i else i + 1]
    {
      LeftMember(st, parent, idx, i);
    }
    OneOut(before, after, idx);
  }

  lemma LeftIds(st: Store, parent: Id, idx: nat)
    requires Tree(st) && parent in st.nodes && idx < |Children(st.nodes[parent])|
    ensures parent in RemoveAt(st, parent, idx).nodes
    ensures
      var ids := Children(st.nodes[parent]);
      Children(RemoveAt(st, parent, idx).nodes[parent]) == ids[..idx] + ids[idx + 1..]
  {
    hide NodeOk, Linked, Under, RemoveAt;
    RemoveAtNodes(st, parent, idx);
  }

  lemma LeftMember(st: Store, parent: Id, idx: nat, i: nat)
    requires Tree(st) && parent in st.nodes && idx < |Children(st.nodes[parent])|
    requires Wf(RemoveAt(st, parent, idx)) && parent in RemoveAt(st, parent, idx).nodes
    requires i < |Children(RemoveAt(st, parent, idx).nodes[parent])|
    ensures i < |Children(st.nodes[parent])| - 1
    ensures Members(RemoveAt(st, parent, idx), parent)[i] == Members(st, parent)[if i < idx then i else i + 1]
  {
    hide NodeOk, Linked, Under, Abs, RemoveAt, Members, SameUnder;
    var st' := RemoveAt(st, parent, idx);
    LeftIds(st, parent, idx);
    var ids, ids' := Children(st.nodes[parent]), Children(st'.nodes[parent]);
    var k := ids'[i];
    assert k in ids';
    assert k == ids[if i < idx then i else i + 1];
    assert k in ids;
    NotUnder(st, parent, k);
    LeftApart(st, parent, idx, k);
    SameMeaning(st, st', k);
    UnderSelf(st, k);
    SameAt(st, st', k);
  }

  lemma OneOut<T>(a: seq<T>, b: seq<T>, idx: nat)
    requires idx < |a| && |b| == |a| - 1
    requires forall i :: 0 <= i < |b| ==> b[i] == a[if i < idx then i else i + 1]
    ensures b == a[..idx] + a[idx + 1..]
  {
  }

  /** config_setting_remove_elem takes out the element at the position. */
  lemma RemoveElementEffect(st: Store, parent: Id, idx: nat)
    requires Tree(st) && parent in st.nodes && Perform(st, RemoveElement(parent, idx)).Some?
    ensures Shrunk(st, Perform(st, RemoveElement(parent, idx)).value, parent, idx)
  {
    hide Tree, Shrunk, RemoveAt;
    RemoveEffect(st, parent, idx);
  }

  /** A member whose name and a key have the same first component. */
  ghost predicate Matches(st: Store, parent: Id, i: nat, key: string)
    requires Wf(st) && parent in st.nodes && i < |Members(st, parent)|
  {
    Members(st, parent)[i].name.Some? && First(Members(st, parent)[i].name.value) == First(key)
  }

  ghost predicate FirstMatch(st: Store, parent: Id, idx: nat, key: string)
  {
    && Wf(st) && parent in st.nodes && idx < |Members(st, parent)| && Matches(st, parent, idx, key)
    && forall i :: 0 <= i < idx ==> !Matches(st, parent, i, key)
  }

  /** config_setting_remove takes out the first member that matches the key, and is refused if none does, or by what is no group. */
  lemma RemoveMemberEffect(st: Store, parent: Id, key: string) returns (idx: nat)
    requires Tree(st) && parent in st.nodes
    ensures
      var r := Perform(st, RemoveMember(parent, key));
      if r.Some? then
        st.nodes[parent].kind.GroupKind? && Shrunk(st, r.value, parent, idx) && FirstMatch(st, parent, idx, key)
      else st.nodes[parent].kind.GroupKind? ==> forall i :: 0 <= i < |Members(st, parent)| ==> !Matches(st, parent, i, key)
  {
    hide NodeOk, Linked, Shrunk, RemoveAt, First, Abs;
    var ids := Children(st.nodes[parent]);
    idx := Search(st, ids, key);
    forall i | 0 <= i < |ids|
      ensures ids[i] in st.nodes
      ensures Matches(st, parent, i, key) <==>
              st.nodes[ids[i]].name.Some? && NameCompare(key, st.nodes[ids[i]].name.value) == 0
    {
      assert ids[i] in ids;
      if st.nodes[ids[i]].name.Some? {
        CompareFirst(key, st.nodes[ids[i]].name.value);
      }
    }
    if idx < |ids| {
      RemoveEffect(st, parent, idx);
    }
  }

  // ---------------------------------------------------------------------
  // When a call is refused.
  // ---------------------------------------------------------------------

  /** A value is refused exactly by a setting of another type; only an int also takes 64-bit values. */
  lemma SetRefused(st: Store, id: Id, d: Datum)
    requires id in st.nodes
    ensures Perform(st, SetValue(id, d)).None? <==>
      && !st.nodes[id].kind.NoneKind?
      && (d.DInt? ==> !st.nodes[id].kind.IntKind?)
      && (d.DInt64? ==> !st.nodes[id].kind.Int64Kind? && !st.nodes[id].kind.IntKind?)
      && (d.DFloat? ==> !st.nodes[id].kind.FloatKind?)
      && (d.DBool? ==> !st.nodes[id].kind.BoolKind?)
      && (d.DString? ==> !st.nodes[id].kind.StringKind?)
  {
  }

  /** An append is refused exactly by what is no vector, and by an array whose first element is of another type. */
  lemma AppendRefused(st: Store, v: Id, idx: int, d: Datum)
    requires Tree(st) && v in st.nodes && idx < 0
    ensures Perform(st, SetElement(v, idx, d)).None? <==>
      || !(st.nodes[v].kind.ArrayKind? || st.nodes[v].kind.ListKind?)
      || (st.nodes[v].kind.ArrayKind? && Children(st.nodes[v]) != []
          && Children(st.nodes[v])[0] in st.nodes && st.nodes[Children(st.nodes[v])[0]].kind != DatumKind(d))
  {
    hide NodeOk, Linked;
    assert Children(st.nodes[v]) != [] ==> Children(st.nodes[v])[0] in Children(st.nodes[v]);
  }

  /** A call on an element is refused exactly when there is none, and a value also when the element refuses it. */
  lemma ElementRefused(st: Store, v: Id, idx: nat, d: Datum)
    requires Tree(st) && v in st.nodes
    ensures
      var kind, ids := st.nodes[v].kind, Children(st.nodes[v]);
      && (Perform(st, RemoveElement(v, idx)).None? <==>
            !(kind.GroupKind? || kind.ArrayKind? || kind.ListKind?) || idx >= |ids|)
      && (Perform(st, SetElement(v, idx, d)).None? <==>
            !(kind.ArrayKind? || kind.ListKind?) || idx >= |ids|
            || (ids[idx] in st.nodes && Perform(st, SetValue(ids[idx], d)).None?))
  {
    hide NodeOk, Linked, RemoveAt, Replace, Assign;
    TreeWf(st);
    assert idx < |Children(st.nodes[v])| ==> Children(st.nodes[v])[idx] in Children(st.nodes[v]);
  }

  /** A format is refused exactly by what is no integer, and when it is neither of the two. */
  lemma FormatRefused(st: Store, id: Id, format: int)
    requires id in st.nodes
    ensures Perform(st, SetFormat(id, format)).None? <==>
      !(st.nodes[id].kind.IntKind? || st.nodes[id].kind.Int64Kind?) || (format != 0 && format != 1)
  {
  }

  /** A named member is refused exactly when the name is invalid or taken. */
  lemma AddRefused(st: Store, parent: Id, name: string, kind: Kind)
    requires Tree(st) && parent in st.nodes && st.nodes[parent].kind.GroupKind?
    ensures Perform(st, AddSetting(parent, Some(name), kind)).None? <==>
      !ValidName(name) || exists i :: 0 <= i < |Members(st, parent)| && Members(st, parent)[i].name == Some(name)
  {
    hide Linked, Shape, Abs, Create, NameCompare, Names;
    var ids := Children(st.nodes[parent]);
    assert NodeOk(st, parent);
    if ValidName(name) {
      forall i | 0 <= i < |ids|
        ensures ids[i] in st.nodes && Members(st, parent)[i].name == st.nodes[ids[i]].name
        ensures st.nodes[ids[i]].name.Some? ==>
          (NameCompare(name, st.nodes[ids[i]].name.value) == 0 <==> st.nodes[ids[i]].name == Some(name))
      {
        assert ids[i] in ids;
        ValidHasNoPath(name);
        if st.nodes[ids[i]].name.Some? {
          MemberNameValid(NamesOf(st, ids), true, i);
          ValidHasNoPath(st.nodes[ids[i]].name.value);
          CompareEqual(name, st.nodes[ids[i]].name.value);
        }
      }
    }
  }

  lemma MemberNameValid(names: seq<Option<string>>, group: bool, i: nat)
    requires Names(names, group) && i < |names| && names[i].Some?
    ensures ValidName(names[i].value)
  {
  }
}
