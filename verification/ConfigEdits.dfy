/**
 The editing operations of libconfig.c on the settings tree, and the invariants
 that every sequence of them keeps.
 */
module ConfigEdits {
  import opened Options
  import opened ConfigStore
  import opened ConfigMeaning
  import opened ConfigList
  import opened ConfigTree
  import opened ConfigRemoval

  const INT32_MAX := 0x7FFF_FFFF
  const INT32_MIN := -0x8000_0000

  /** The argument of a config_setting_set_* call. */
  datatype Datum =
    | DInt(i: int) | DInt64(l: int) | DFloat(text: string) | DBool(i: int) | DString(s: Option<string>)

  function DatumKind(d: Datum): Kind
  {
    match d
    case DInt(_) => IntKind
    case DInt64(_) => Int64Kind
    case DFloat(_) => FloatKind
    case DBool(_) => BoolKind
    case DString(_) => StringKind
  }

  function DatumPayload(d: Datum): Payload
  {
    match d
    case DInt(i) => IntVal(i)
    case DInt64(l) => Int64Val(l)
    case DFloat(text) => FloatVal(text)
    case DBool(i) => IntVal(i)
    case DString(s) => StringVal(s)
  }

  /** config_setting_set_*, with auto-conversion off: a 64-bit value that does not fit an int becomes 0. */
  function Assign(s: Setting, d: Datum): Option<Setting>
  {
    if s.kind.NoneKind? || s.kind == DatumKind(d) then
      Some(s.(kind := DatumKind(d), payload := DatumPayload(d)))
    else if s.kind.IntKind? && d.DInt64? then
      Some(s.(payload := IntVal(if INT32_MIN <= d.l <= INT32_MAX then d.l else 0)))
    else None
  }

  /** config_setting_set_format */
  function WithFormat(s: Setting, format: int): Option<Setting>
  {
    if (s.kind.IntKind? || s.kind.Int64Kind?) && (format == FORMAT_DEFAULT || format == FORMAT_HEX)
    then Some(s.(format := format)) else None
  }

  /** config_setting_get_elem */
  function GetElem(st: Store, id: Id, idx: nat): Option<Id>
    requires id in st.nodes
  {
    var s := st.nodes[id];
    if !Aggregate(s.kind) || idx >= |Children(s)| then None else Some(Children(s)[idx])
  }

  datatype Edit =
    | AddSetting(target: Id, name: Option<string>, kind: Kind)
    | SetValue(target: Id, value: Datum)
    | SetFormat(target: Id, format: int)
    | SetElement(target: Id, idx: int, value: Datum)
    | RemoveMember(target: Id, key: string)
    | RemoveElement(target: Id, at: nat)

  /** The tree after a call that succeeds; None when the call is refused, which changes nothing. */
  function Perform(st: Store, e: Edit): Option<Store>
    requires e.target in st.nodes
  {
    var s := st.nodes[e.target];
    match e
    case AddSetting(id, name, kind) => Add(st, id, name, kind)
    case SetValue(id, d) => Stored(st, id, Assign(s, d))
    case SetFormat(id, format) => Stored(st, id, WithFormat(s, format))
    case SetElement(id, idx, d) =>
      if !s.kind.ArrayKind? && !s.kind.ListKind? then None
      else if idx < 0 then Append(st, id, DatumKind(d), DatumPayload(d), FORMAT_DEFAULT)
      else
        (match GetElem(st, id, idx)
         case None => None
         case Some(c) => if c in st.nodes then Stored(st, c, Assign(st.nodes[c], d)) else None)
    case RemoveMember(id, key) =>
      if !s.kind.GroupKind? then None
      else
        var k := Search(st, Children(s), key);
        if k < |Children(s)| then Some(RemoveAt(st, id, k)) else None
    case RemoveElement(id, idx) =>
      if GetElem(st, id, idx).None? then None else Some(RemoveAt(st, id, idx))
  }

  function Stored(st: Store, id: Id, s: Option<Setting>): Option<Store>
  {
    match s
    case None => None
    case Some(s') => Some(Replace(st, id, s'))
  }

  /** A sequence of calls; each works on a setting that is still in the tree, or does nothing. */
  function Perform1(st: Store, e: Edit): Store
  {
    if e.target !in st.nodes then st
    else
      match Perform(st, e)
      case None => st
      case Some(st') => st'
  }

  function PerformAll(st: Store, es: seq<Edit>): Store
    decreases |es|
  {
    if es == [] then st else PerformAll(Perform1(st, es[0]), es[1..])
  }

  // ---------------------------------------------------------------------
  // The tree invariant.
  // ---------------------------------------------------------------------

  /** A name that config_setting_add takes is not among the elements. */
  lemma AddFresh(st: Store, parent: Id, name: Option<string>, kind: Kind)
    requires Tree(st) && parent in st.nodes && Add(st, parent, name, kind).Some?
    ensures
      var name' := if st.nodes[parent].kind.GroupKind? then name else None;
      && Aggregate(st.nodes[parent].kind) && FreshName(st, parent, name')
      && Add(st, parent, name, kind) == Some(Create(st, parent, name', kind))
  {
    hide Linked, Create, Shape;
    assert NodeOk(st, parent);
    var ids := Children(st.nodes[parent]);
    if st.nodes[parent].kind.GroupKind? && name.Some? {
      ValidHasNoPath(name.value);
      CompareEqual(name.value, name.value);
      forall i | 0 <= i < |ids|
        ensures NamesOf(st, ids)[i] != name
      {
        assert ids[i] in ids;
      }
    }
  }

  lemma AssignInPlace(s: Setting, d: Datum)
    requires Shape(s) && Assign(s, d).Some?
    ensures InPlace(s, Assign(s, d).value)
  {
  }

  lemma FormatInPlace(s: Setting, format: int)
    requires Shape(s) && WithFormat(s, format).Some?
    ensures InPlace(s, WithFormat(s, format).value) && WithFormat(s, format).value.kind == s.kind
  {
  }

  /** Appending a scalar is creating it and storing its value. */
  lemma AppendParts(st: Store, v: Id, kind: Kind, payload: Payload, format: int)
    requires v in st.nodes && v < st.next && Append(st, v, kind, payload, format).Some?
    requires IsScalar(kind) && Fits(kind, payload)
    ensures
      var st1 := Create(st, v, None, kind);
      var s := Setting(None, kind, payload, format, Some(v));
      && (st.nodes[v].kind.ArrayKind? || st.nodes[v].kind.ListKind?) && CheckType(st, v, kind)
      && st.next in st1.nodes && InPlace(st1.nodes[st.next], s) && st1.nodes[st.next].kind == kind
      && Append(st, v, kind, payload, format) == Some(Replace(st1, st.next, s))
  {
  }

  lemma AppendTree(st: Store, v: Id, kind: Kind, payload: Payload, format: int)
    requires Tree(st) && v in st.nodes && Append(st, v, kind, payload, format).Some?
    requires IsScalar(kind) && Fits(kind, payload)
    ensures Tree(Append(st, v, kind, payload, format).value)
  {
    hide Create, Replace, Names, Linked, Shape, Append, InPlace, CheckType, FreshName, IsScalar, Fits;
    AppendParts(st, v, kind, payload, format);
    NullIsFresh(st, v);
    CreateTree(st, v, None, kind);
    ReplaceTree(Create(st, v, None, kind), st.next, Setting(None, kind, payload, format, Some(v)));
  }

  lemma DatumFits(d: Datum)
    ensures IsScalar(DatumKind(d)) && Fits(DatumKind(d), DatumPayload(d))
  {
  }

  /** Every call keeps the tree invariant. */
  lemma EditKeepsTree(st: Store, e: Edit)
    requires Tree(st) && e.target in st.nodes && Perform(st, e).Some?
    ensures Tree(Perform(st, e).value)
  {
    hide Create, Replace, RemoveAt, Assign, WithFormat, Names, Linked, Shape, Add, Append, InPlace, Search, CheckType;
    assert NodeOk(st, e.target);
    match e
    case AddSetting(id, name, kind) =>
      AddFresh(st, id, name, kind);
      CreateTree(st, id, if st.nodes[id].kind.GroupKind? then name else None, kind);
    case SetValue(id, d) =>
      AssignInPlace(st.nodes[id], d);
      ReplaceTree(st, id, Assign(st.nodes[id], d).value);
    case SetFormat(id, format) =>
      FormatInPlace(st.nodes[id], format);
      ReplaceTree(st, id, WithFormat(st.nodes[id], format).value);
    case SetElement(id, idx, d) =>
      if idx < 0 {
        DatumFits(d);
        AppendTree(st, id, DatumKind(d), DatumPayload(d), FORMAT_DEFAULT);
      } else {
        var c := GetElem(st, id, idx).value;
        assert NodeOk(st, c);
        AssignInPlace(st.nodes[c], d);
        ReplaceTree(st, c, Assign(st.nodes[c], d).value);
      }
    case RemoveMember(id, key) => RemoveTree(st, id, Search(st, Children(st.nodes[id]), key));
    case RemoveElement(id, idx) => RemoveTree(st, id, idx);
  }

  lemma NullIsFresh(st: Store, id: Id)
    requires Wf(st) && id in st.nodes
    ensures FreshName(st, id, None)
  {
  }

  /** Links, names, shapes and buffers are right after every sequence of calls. */
  lemma {:induction false} EditsKeepTree(st: Store, es: seq<Edit>)
    requires Tree(st)
    ensures Tree(PerformAll(st, es))
    decreases |es|
  {
    hide Perform, Tree;
    if es != [] {
      if es[0].target in st.nodes && Perform(st, es[0]).Some? {
        EditKeepsTree(st, es[0]);
      }
      EditsKeepTree(Perform1(st, es[0]), es[1..]);
    }
  }

  // ---------------------------------------------------------------------
  // Homogeneous arrays and named members.
  // ---------------------------------------------------------------------

  /** config_setting_add checks neither; this is what its caller has to. */
  predicate Careful(st: Store, e: Edit)
    requires e.target in st.nodes
  {
    e.AddSetting? ==>
      && (st.nodes[e.target].kind.GroupKind? ==> e.name.Some?)
      && (st.nodes[e.target].kind.ArrayKind? ==> IsScalar(e.kind) && CheckType(st, e.target, e.kind))
  }

  lemma CreateStrict(st: Store, parent: Id, name: Option<string>, kind: Kind)
    requires Wf(st) && Strict(st) && parent in st.nodes && Wf(Create(st, parent, name, kind))
    ensures Strict(Create(st, parent, name, kind)) <==>
      && (st.nodes[parent].kind.GroupKind? ==> name.Some?)
      && (st.nodes[parent].kind.ArrayKind? ==> IsScalar(kind) && CheckType(st, parent, kind))
  {
    hide IsScalar, Create, CheckType, StrictNames, OneKind;
    var st' := Create(st, parent, name, kind);
    CreateKinds(st, parent, name, kind);
    CreateStrictParent(st, parent, name, kind);
    forall id | id in st'.nodes && id != parent
      ensures StrictNode(st', id)
    {
      if id == st.next {
        NothingStrict(NamesOf(st', []), KindsOf(st', []));
      } else {
        assert StrictNode(st, id);
        CreateElsewhere(st, parent, name, kind, id);
      }
    }
  }

  lemma NothingStrict(names: seq<Option<string>>, kinds: seq<Kind>)
    requires names == [] && kinds == []
    ensures StrictNames(names) && OneKind(kinds)
  {
  }

  lemma CreateStrictParent(st: Store, parent: Id, name: Option<string>, kind: Kind)
    requires Wf(st) && parent in st.nodes && StrictNode(st, parent) && Wf(Create(st, parent, name, kind))
    requires parent in Create(st, parent, name, kind).nodes
    ensures StrictNode(Create(st, parent, name, kind), parent) <==>
      && (st.nodes[parent].kind.GroupKind? ==> name.Some?)
      && (st.nodes[parent].kind.ArrayKind? ==> IsScalar(kind) && CheckType(st, parent, kind))
  {
    hide IsScalar, Create, StrictNames, OneKind;
    CreateKinds(st, parent, name, kind);
    CreateBelow(st, parent, name, kind);
    var ids := Children(st.nodes[parent]);
    NamesOneMore(NamesOf(st, ids), name);
    OneKindMore(KindsOf(st, ids), kind);
    assert ids != [] ==> ids[0] in ids;
  }

  lemma CreateKinds(st: Store, parent: Id, name: Option<string>, kind: Kind)
    requires Wf(st) && parent in st.nodes
    ensures
      var st' := Create(st, parent, name, kind);
      && parent in st'.nodes && st'.nodes[parent].kind == st.nodes[parent].kind
      && (forall id :: id in st'.nodes <==> id in st.nodes || id == st.next)
      && Children(st'.nodes[st.next]) == []
  {
  }

  lemma NamesOneMore(names: seq<Option<string>>, name: Option<string>)
    ensures StrictNames(names + [name]) <==> StrictNames(names) && name.Some?
  {
    var r := names + [name];
    assert r[|names|] == name && forall i :: 0 <= i < |names| ==> r[i] == names[i];
  }

  lemma OneKindMore(kinds: seq<Kind>, kind: Kind)
    ensures OneKind(kinds + [kind]) <==>
            OneKind(kinds) && IsScalar(kind) && (kinds == [] || kinds[0] == kind)
  {
    var r := kinds + [kind];
    assert r[|kinds|] == kind && forall i :: 0 <= i < |kinds| ==> r[i] == kinds[i];
  }

  lemma ReplaceStrict(st: Store, id: Id, s: Setting)
    requires Tree(st) && Strict(st) && id in st.nodes && InPlace(st.nodes[id], s) && Wf(Replace(st, id, s))
    ensures Strict(Replace(st, id, s))
  {
    hide Shape, Names;
    var st' := Replace(st, id, s);
    forall k | k in st'.nodes
      ensures StrictNode(st', k)
    {
      assert StrictNode(st, k);
      ReplaceNames(st, id, s, k);
      if st.nodes[k].kind.ArrayKind? {
        ReplaceKinds(st, id, s, k);
      }
    }
  }

  /** An element of an array has a type already, so storing a value does not change it. */
  lemma ReplaceKinds(st: Store, id: Id, s: Setting, k: Id)
    requires Wf(st) && id in st.nodes && k in st.nodes && Wf(Replace(st, id, s))
    requires st.nodes[k].kind.ArrayKind? && StrictNode(st, k)
    requires InPlace(st.nodes[id], s)
    ensures KindsOf(Replace(st, id, s), Children(Replace(st, id, s).nodes[k])) == KindsOf(st, Children(st.nodes[k]))
  {
  }

  /**
   Arrays stay homogeneous and members named under every call but config_setting_add,
   and under that one exactly when the caller was careful.
   */
  lemma EditKeepsStrict(st: Store, e: Edit)
    requires Tree(st) && Strict(st) && e.target in st.nodes && Perform(st, e).Some?
    ensures Wf(Perform(st, e).value)
    ensures Strict(Perform(st, e).value) <==> Careful(st, e)
  {
    hide Create, Replace, RemoveAt, Assign, WithFormat, Names, Linked, Shape, Add, Append, InPlace, Search, CheckType,
         StrictNode, IsScalar;
    EditKeepsTree(st, e);
    assert NodeOk(st, e.target);
    match e
    case AddSetting(id, name, kind) =>
      AddFresh(st, id, name, kind);
      CreateStrict(st, id, if st.nodes[id].kind.GroupKind? then name else None, kind);
    case SetValue(id, d) =>
      AssignInPlace(st.nodes[id], d);
      ReplaceStrict(st, id, Assign(st.nodes[id], d).value);
    case SetFormat(id, format) =>
      FormatInPlace(st.nodes[id], format);
      ReplaceStrict(st, id, WithFormat(st.nodes[id], format).value);
    case SetElement(id, idx, d) =>
      if idx < 0 {
        DatumFits(d);
        AppendStrict(st, id, DatumKind(d), DatumPayload(d), FORMAT_DEFAULT);
      } else {
        var c := GetElem(st, id, idx).value;
        assert NodeOk(st, c);
        AssignInPlace(st.nodes[c], d);
        ReplaceStrict(st, c, Assign(st.nodes[c], d).value);
      }
    case RemoveMember(id, key) => RemoveStrict(st, id, Search(st, Children(st.nodes[id]), key));
    case RemoveElement(id, idx) => RemoveStrict(st, id, idx);
  }

  lemma AppendStrict(st: Store, v: Id, kind: Kind, payload: Payload, format: int)
    requires Tree(st) && Strict(st) && v in st.nodes && Append(st, v, kind, payload, format).Some?
    requires IsScalar(kind) && Fits(kind, payload)
    ensures
      var r := Append(st, v, kind, payload, format).value;
      Wf(r) && Strict(r)
  {
    hide Create, Replace, Names, Linked, Shape, Append, InPlace, CheckType, StrictNode, FreshName, IsScalar, Fits;
    AppendParts(st, v, kind, payload, format);
    NullIsFresh(st, v);
    CreateTree(st, v, None, kind);
    CreateStrict(st, v, None, kind);
    var st1 := Create(st, v, None, kind);
    var s := Setting(None, kind, payload, format, Some(v));
    ReplaceTree(st1, st.next, s);
    ReplaceStrict(st1, st.next, s);
  }

  /** Every call of a run was careful at its time. */
  predicate CarefulAll(st: Store, es: seq<Edit>)
    decreases |es|
  {
    es == [] || ((es[0].target in st.nodes ==> Careful(st, es[0])) && CarefulAll(Perform1(st, es[0]), es[1..]))
  }

  lemma {:induction false} EditsKeepStrict(st: Store, es: seq<Edit>)
    requires Tree(st) && Strict(st) && CarefulAll(st, es)
    ensures Tree(PerformAll(st, es)) && Strict(PerformAll(st, es))
    decreases |es|
  {
    hide Perform, NodeOk, Linked, StrictNode, Careful;
    if es != [] {
      if es[0].target in st.nodes && Perform(st, es[0]).Some? {
        EditKeepsTree(st, es[0]);
        EditKeepsStrict(st, es[0]);
      }
      EditsKeepStrict(Perform1(st, es[0]), es[1..]);
    }
  }

  // ---------------------------------------------------------------------
  // One array, whatever happens to the others.
  // ---------------------------------------------------------------------

  /** An array whose elements are scalars of one kind. */
  ghost predicate UniformArray(st: Store, id: Id)
    requires Wf(st)
  {
    id in st.nodes && st.nodes[id].kind.ArrayKind? && OneKind(KindsOf(st, Children(st.nodes[id])))
  }

  lemma ReplaceArray(st: Store, k: Id, s: Setting, id: Id)
    requires Tree(st) && k in st.nodes && InPlace(st.nodes[k], s) && UniformArray(st, id)
    ensures Wf(Replace(st, k, s)) && UniformArray(Replace(st, k, s), id)
  {
    hide Shape, OneKind, NodeOk;
    ReplaceWf(st, k, s);
    assert StrictNode(st, id);
    ReplaceKinds(st, k, s, id);
  }

  lemma CreateArray(st: Store, parent: Id, name: Option<string>, kind: Kind, id: Id)
    requires Tree(st) && parent in st.nodes && UniformArray(st, id)
    requires parent == id ==> IsScalar(kind) && CheckType(st, id, kind)
    ensures Wf(Create(st, parent, name, kind)) && UniformArray(Create(st, parent, name, kind), id)
  {
    hide Create, OneKind, NodeOk, IsScalar, StrictNames, Linked;
    CreateWf(st, parent, name, kind);
    CreateKinds(st, parent, name, kind);
    if parent == id {
      assert StrictNode(st, id);
      CreateStrictParent(st, id, name, kind);
    } else {
      CreateElsewhere(st, parent, name, kind, id);
    }
  }

  lemma RemoveArray(st: Store, parent: Id, idx: nat, id: Id)
    requires Tree(st) && parent in st.nodes && idx < |Children(st.nodes[parent])| && UniformArray(st, id)
    requires id in RemoveAt(st, parent, idx).nodes
    ensures Wf(RemoveAt(st, parent, idx)) && UniformArray(RemoveAt(st, parent, idx), id)
  {
    hide RemoveAt, NodeOk, Linked, Children;
    RemoveWf(st, parent, idx);
    RemoveNames(st, parent, idx, id);
  }

  /** The set_*_elem functions, and everything else but an unchecked config_setting_add, keep an array uniform. */
  lemma EditKeepsArray(st: Store, e: Edit, id: Id)
    requires Tree(st) && e.target in st.nodes && Perform(st, e).Some?
    requires UniformArray(st, id) && id in Perform(st, e).value.nodes
    requires e.target == id ==> Careful(st, e)
    ensures Wf(Perform(st, e).value) && UniformArray(Perform(st, e).value, id)
  {
    hide Create, Replace, RemoveAt, Assign, WithFormat, Names, Linked, Shape, Add, Append, InPlace, Search, CheckType,
         IsScalar, OneKind;
    EditKeepsTree(st, e);
    assert NodeOk(st, e.target);
    match e
    case AddSetting(p, name, kind) =>
      AddFresh(st, p, name, kind);
      CreateArray(st, p, if st.nodes[p].kind.GroupKind? then name else None, kind, id);
    case SetValue(k, d) =>
      AssignInPlace(st.nodes[k], d);
      ReplaceArray(st, k, Assign(st.nodes[k], d).value, id);
    case SetFormat(k, format) =>
      FormatInPlace(st.nodes[k], format);
      ReplaceArray(st, k, WithFormat(st.nodes[k], format).value, id);
    case SetElement(v, idx, d) =>
      if idx < 0 {
        AppendArray(st, v, d, id);
      } else {
        var c := GetElem(st, v, idx).value;
        assert NodeOk(st, c);
        AssignInPlace(st.nodes[c], d);
        ReplaceArray(st, c, Assign(st.nodes[c], d).value, id);
      }
    case RemoveMember(p, key) => RemoveArray(st, p, Search(st, Children(st.nodes[p]), key), id);
    case RemoveElement(p, idx) => RemoveArray(st, p, idx, id);
  }

  lemma AppendArray(st: Store, v: Id, d: Datum, id: Id)
    requires Tree(st) && UniformArray(st, id) && v in st.nodes
    requires Append(st, v, DatumKind(d), DatumPayload(d), FORMAT_DEFAULT).Some?
    ensures
      var r := Append(st, v, DatumKind(d), DatumPayload(d), FORMAT_DEFAULT).value;
      Wf(r) && UniformArray(r, id)
  {
    hide Create, Replace, Names, Linked, Shape, Append, InPlace, CheckType, UniformArray, FreshName, IsScalar, Fits;
    var kind := DatumKind(d);
    DatumFits(d);
    AppendParts(st, v, kind, DatumPayload(d), FORMAT_DEFAULT);
    NullIsFresh(st, v);
    CreateTree(st, v, None, kind);
    CreateArray(st, v, None, kind, id);
    ReplaceArray(Create(st, v, None, kind), st.next, Setting(None, kind, DatumPayload(d), FORMAT_DEFAULT, Some(v)), id);
  }

  /** Ids are never used again. */
  lemma IdsAreNew(st: Store, e: Edit, id: Id)
    requires Wf(st) && e.target in st.nodes && Perform(st, e).Some?
    ensures st.next <= Perform(st, e).value.next
    ensures id < st.next && id in Perform(st, e).value.nodes ==> id in st.nodes
  {
  }

  lemma {:induction false} GoneForGood(st: Store, es: seq<Edit>, id: Id)
    requires Tree(st) && id < st.next && id !in st.nodes
    ensures id !in PerformAll(st, es).nodes
    decreases |es|
  {
    hide Perform, NodeOk, Linked;
    if es != [] {
      if es[0].target in st.nodes && Perform(st, es[0]).Some? {
        EditKeepsTree(st, es[0]);
        IdsAreNew(st, es[0], id);
      }
      GoneForGood(Perform1(st, es[0]), es[1..], id);
    }
  }

  /** An array to which nothing is added but by set_*_elem stays uniform as long as it is there. */
  lemma {:induction false} ArraysStayUniform(st: Store, es: seq<Edit>, id: Id)
    requires Tree(st) && UniformArray(st, id)
    requires forall i :: 0 <= i < |es| && es[i].AddSetting? ==> es[i].target != id
    requires id in PerformAll(st, es).nodes
    ensures Wf(PerformAll(st, es)) && UniformArray(PerformAll(st, es), id)
    decreases |es|
  {
    hide Perform, NodeOk, Linked, UniformArray, CheckType;
    if es != [] {
      var st' := Perform1(st, es[0]);
      if es[0].target in st.nodes && Perform(st, es[0]).Some? {
        EditKeepsTree(st, es[0]);
        UniformIn(st, id);
        IdsAreNew(st, es[0], id);
        if id in st'.nodes {
          EditKeepsArray(st, es[0], id);
        } else {
          GoneForGood(st', es[1..], id);
        }
      }
      ArraysStayUniform(st', es[1..], id);
    }
  }

  lemma UniformIn(st: Store, id: Id)
    requires Wf(st) && UniformArray(st, id)
    ensures id in st.nodes && id < st.next
  {
  }

  // ---------------------------------------------------------------------
  // What config_setting_add does not check.
  // ---------------------------------------------------------------------

  /** A string added to an array of one int: the call succeeds, and the array is mixed. */
  lemma AddCanMix()
    ensures
      var a, b, c := AddSetting(0, Some("a"), ArrayKind), SetElement(1, -1, DInt(7)), AddSetting(1, None, StringKind);
      var st := Perform1(Perform1(EMPTY, a), b);
      1 in st.nodes && Perform(st, c).Some? && Wf(Perform(st, c).value) && !Strict(Perform(st, c).value)
  {
    hide Tree, Strict, RoundUp, RemoveAt, NameCompare, HasNamed;
    var a, b, c := AddSetting(0, Some("a"), ArrayKind), SetElement(1, -1, DInt(7)), AddSetting(1, None, StringKind);
    var one := Perform1(EMPTY, a);
    assert Search(EMPTY, [], "a") == 0;
    assert Perform(EMPTY, a) == Some(Create(EMPTY, 0, Some("a"), ArrayKind));
    var two := Perform1(one, b);
    assert 1 in one.nodes && one.nodes[1].kind == ArrayKind && Children(one.nodes[1]) == [];
    assert Perform(one, b).Some?;
    assert 1 in two.nodes && two.nodes[1].kind == ArrayKind && Children(two.nodes[1]) == [2];
    assert two.nodes[2].kind == IntKind;
    assert Perform(two, c).Some?;
    EmptyTree();
    EditKeepsTree(EMPTY, a);
    EditKeepsStrict(EMPTY, a);
    EditKeepsTree(one, b);
    EditKeepsStrict(one, b);
    EditKeepsTree(two, c);
    EditKeepsStrict(two, c);
  }
}
