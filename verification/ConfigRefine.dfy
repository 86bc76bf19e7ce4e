/**
 The cursor actions refine the recursive meaning: running them in reduction order
 builds exactly the abstract tree, brings the parent cursor back, and fails in no
 other way than by a duplicate name or a mismatched array element.
 */
module ConfigRefine {
  import opened Options
  import opened ConfigStore
  import opened ConfigActions
  import opened ConfigSyntax
  import opened ConfigMeaning

  // ---------------------------------------------------------------------
  // How a store grows.
  // ---------------------------------------------------------------------

  /** From st to st', the node p gained the children `added`; no other old node changed. */
  ghost predicate Grown(st: Store, st': Store, p: Id, added: seq<Id>)
  {
    && Wf(st') && st.next <= st'.next
    && p in st.nodes && p in st'.nodes
    && (forall id :: id in st.nodes && id != p ==> id in st'.nodes && st'.nodes[id] == st.nodes[id])
    && st'.nodes[p] == st.nodes[p].(payload := st'.nodes[p].payload)
    && Children(st'.nodes[p]) == Children(st.nodes[p]) + added
    && (forall i :: 0 <= i < |added| ==> st.next <= added[i])
  }

  lemma GrownNothing(st: Store, p: Id)
    requires Wf(st) && p in st.nodes
    ensures Grown(st, st, p, [])
  {
  }

  lemma GrownTrans(st: Store, st1: Store, st2: Store, p: Id, a: seq<Id>, b: seq<Id>)
    requires Grown(st, st1, p, a) && Grown(st1, st2, p, b)
    ensures Grown(st, st2, p, a + b)
  {
    hide Wf;
  }

  lemma AddedAbove(st: Store, st': Store, p: Id, added: seq<Id>)
    requires Wf(st) && Grown(st, st', p, added)
    ensures Above(st', added, p)
  {
    forall i | 0 <= i < |added|
      ensures added[i] in st'.nodes && p < added[i]
    {
      assert added[i] == Children(st'.nodes[p])[|Children(st.nodes[p])| + i];
      assert added[i] in Children(st'.nodes[p]);
    }
  }

  /** What was read from earlier children stays readable. */
  lemma AllStays(st: Store, st': Store, p: Id, ids: seq<Id>, added: seq<Id>)
    requires Wf(st) && Grown(st, st', p, added) && Above(st, ids, p)
    ensures Above(st', ids, p) && AbsAll(st', ids, p) == AbsAll(st, ids, p)
  {
    AbsAllFrame(st, st', ids, p);
  }

  lemma MembersStay(st: Store, st': Store, p: Id, ids: seq<Id>, added: seq<Id>)
    requires Wf(st) && Grown(st, st', p, added) && Above(st, ids, p)
    ensures Above(st', ids, p) && AbsMembers(st', ids, p) == AbsMembers(st, ids, p)
  {
    AbsMembersFrame(st, st', ids, p);
  }

  /** config_setting_create adds one child. */
  lemma CreateGrows(st: Store, p: Id, name: Option<string>, kind: Kind)
    requires Wf(st) && p in st.nodes
    ensures
      var st' := Create(st, p, name, kind);
      && Grown(st, st', p, [st.next])
      && st'.nodes[st.next] == Setting(name, kind, Zero, FORMAT_DEFAULT, Some(p))
      && st'.next == st.next + 1
  {
    var st' := Create(st, p, name, kind);
    forall id | id in st'.nodes
      ensures id < st'.next
      ensures forall k :: k in Children(st'.nodes[id]) ==>
                k in st'.nodes && id < k && st'.nodes[k].parent == Some(id)
    {
      if id == p {
        assert Children(st'.nodes[p]) == Children(st.nodes[p]) + [st.next];
      } else if id == st.next {
        assert Children(st'.nodes[id]) == [];
      }
    }
  }

  /** A childless node may be changed freely, links apart. */
  lemma ChangeLeaf(st: Store, id: Id, s: Setting)
    requires Wf(st) && id in st.nodes && Children(s) == [] && s.parent == st.nodes[id].parent
    ensures Wf(st.(nodes := st.nodes[id := s]))
  {
  }

  // ---------------------------------------------------------------------
  // Scalars.
  // ---------------------------------------------------------------------

  function SimplePayload(s: Simple): Payload
  {
    match s
    case SBool(i) => IntVal(i)
    case SInt(i) => IntVal(i)
    case SHex(i) => IntVal(i)
    case SInt64(l) => Int64Val(l)
    case SHex64(l) => Int64Val(l)
    case SFloat(text) => FloatVal(text)
    case SString(first, more) => StringVal(Some(Joined([first] + more)))
  }

  function SimpleFormat(s: Simple): int
  {
    if s.SHex? || s.SHex64? then FORMAT_HEX else FORMAT_DEFAULT
  }

  /** String parts accumulate. */
  lemma {:induction false} PartsJoin(parts: seq<string>, c: Ctx)
    requires c.str.Some? || parts != []
    ensures ExecParts(parts, c)
         == c.(str := Some((if c.str.Some? then c.str.value else "") + Joined(parts)))
    decreases |parts|
  {
    var before := if c.str.Some? then c.str.value else "";
    if parts == [] {
      assert before + Joined(parts) == before;
    } else {
      var c' := AppendString(c, parts[0]).ctx;
      assert before + parts[0] + Joined(parts[1..]) == before + Joined(parts);
      if c.str.None? {
        assert before + parts[0] == parts[0];
      }
      PartsJoin(parts[1..], c');
    }
  }

  lemma SimpleAct(s: Simple, c: Ctx)
    requires c.str.None?
    ensures ExecSimple(s, c) == Scalar(c, SimpleKind(s), SimplePayload(s), SimpleFormat(s))
  {
    match s
    case SString(first, more) =>
      PartsJoin([first] + more, c);
      assert "" + Joined([first] + more) == Joined([first] + more);
    case _ =>
  }

  /** A new scalar node means what was written. */
  lemma ScalarMeaning(st: Store, id: Id, s: Simple)
    requires Wf(st) && id in st.nodes
    requires st.nodes[id].kind == SimpleKind(s) && st.nodes[id].payload == SimplePayload(s)
    requires st.nodes[id].format == SimpleFormat(s)
    ensures Abs(st, id) == SimpleMeaning(s)
  {
  }

  /** A scalar in a list, or in an array whose first element agrees. */
  lemma ScalarAppended(s: Simple, c: Ctx, p: Id)
    requires Wf(c.store) && c.parent == Some(p) && p in c.store.nodes && c.str.None?
    requires c.store.nodes[p].kind.ListKind? || c.store.nodes[p].kind.ArrayKind?
    ensures
      var o := ExecSimple(s, c);
      var st := c.store;
      if CheckType(st, p, SimpleKind(s)) then
        && o.Ok? && o.ctx == c.(store := o.ctx.store)
        && Grown(st, o.ctx.store, p, [st.next])
        && st.next in o.ctx.store.nodes
        && o.ctx.store.nodes[st.next].kind == SimpleKind(s)
        && Abs(o.ctx.store, st.next) == SimpleMeaning(s)
      else o == Abort(MismatchedElement)
  {
    hide ExecSimple;
    SimpleAct(s, c);
    var st := c.store;
    var kind := SimpleKind(s);
    if CheckType(st, p, kind) {
      CreateGrows(st, p, None, kind);
      var st1 := Create(st, p, None, kind);
      var node := st1.nodes[st.next].(payload := SimplePayload(s), format := SimpleFormat(s));
      ChangeLeaf(st1, st.next, node);
      var st2 := st1.(nodes := st1.nodes[st.next := node]);
      assert Put(st1, st.next, kind, SimplePayload(s), SimpleFormat(s)) == st2;
      assert Grown(st, st2, p, [st.next]);
      ScalarMeaning(st2, st.next, s);
    }
  }

  // ---------------------------------------------------------------------
  // Arrays.
  // ---------------------------------------------------------------------

  /** The cursor stands in node p, between values. */
  ghost predicate AtNode(c: Ctx, p: Id)
  {
    Wf(c.store) && c.parent == Some(p) && p in c.store.nodes && c.str.None?
  }

  /** What an array has fixed its element kind to. */
  function FixedKind(st: Store, p: Id): Option<Kind>
    requires p in st.nodes
  {
    var ids := Children(st.nodes[p]);
    if ids == [] || ids[0] !in st.nodes then None else Some(st.nodes[ids[0]].kind)
  }

  predicate Fits(ss: seq<Simple>, fixed: Option<Kind>)
  {
    if fixed.None? then Homogeneous(ss)
    else forall i :: 0 <= i < |ss| ==> SimpleKind(ss[i]) == fixed.value
  }

  /** The first element of a node keeps its kind when the node grows. */
  lemma FixedStays(st: Store, st': Store, p: Id, added: seq<Id>)
    requires Wf(st) && Grown(st, st', p, added) && Children(st.nodes[p]) != []
    ensures FixedKind(st', p) == FixedKind(st, p)
  {
    var first := Children(st.nodes[p])[0];
    assert first in Children(st.nodes[p]);
    assert Children(st'.nodes[p])[0] == first;
  }

  lemma FixedAfter(st: Store, st': Store, p: Id, kind: Kind)
    requires Wf(st) && Grown(st, st', p, [st.next])
    requires st.next in st'.nodes && st'.nodes[st.next].kind == kind
    requires FixedKind(st, p).Some? ==> FixedKind(st, p).value == kind
    ensures FixedKind(st', p) == Some(kind)
  {
    ChildrenAbove(st, p);
    if Children(st.nodes[p]) == [] {
      assert Children(st'.nodes[p]) == [st.next];
    } else {
      FixedStays(st, st', p, [st.next]);
    }
  }

  lemma CheckFixed(st: Store, p: Id, kind: Kind)
    requires Wf(st) && p in st.nodes && st.nodes[p].kind.ArrayKind?
    ensures CheckType(st, p, kind) <==> (FixedKind(st, p).Some? ==> FixedKind(st, p).value == kind)
  {
    ChildrenAbove(st, p);
  }

  lemma FitsOne(ss: seq<Simple>, fixed: Option<Kind>)
    ensures ss == [] ==> Fits(ss, fixed)
    ensures ss != [] ==>
      (Fits(ss, fixed) <==>
        (fixed.Some? ==> fixed.value == SimpleKind(ss[0])) && Fits(ss[1..], Some(SimpleKind(ss[0]))))
  {
    if ss != [] && (fixed.Some? ==> fixed.value == SimpleKind(ss[0])) && Fits(ss[1..], Some(SimpleKind(ss[0]))) {
      assert forall i :: 1 <= i < |ss| ==> ss[i] == ss[1..][i - 1];
    }
  }

  lemma {:induction false} SimplesInArray(ss: seq<Simple>, c: Ctx, p: Id) returns (added: seq<Id>)
    requires AtNode(c, p) && c.store.nodes[p].kind.ArrayKind?
    ensures
      var o := ExecSimples(ss, c);
      if Fits(ss, FixedKind(c.store, p)) then
        && o.Ok? && o.ctx == c.(store := o.ctx.store)
        && Grown(c.store, o.ctx.store, p, added) && Above(o.ctx.store, added, p)
        && AbsAll(o.ctx.store, added, p) == SimpleMeanings(ss)
      else o == Abort(MismatchedElement)
    decreases |ss|
  {
    hide ExecSimple, Abs, SimpleMeaning, Fits, FixedKind, CheckType, Wf;
    var st := c.store;
    added := [];
    if ss == [] {
      FitsOne(ss, FixedKind(st, p));
      GrownNothing(st, p);
    } else {
      ScalarAppended(ss[0], c, p);
      CheckFixed(st, p, SimpleKind(ss[0]));
      FitsOne(ss, FixedKind(st, p));
      var o := ExecSimple(ss[0], c);
      if o.Ok? {
        var st1 := o.ctx.store;
        FixedAfter(st, st1, p, SimpleKind(ss[0]));
        var rest := SimplesInArray(ss[1..], o.ctx, p);
        added := [st.next] + rest;
        var o' := ExecSimples(ss, c);
        if o'.Ok? {
          AddOne(st, st1, o'.ctx.store, p, rest, SimpleMeaning(ss[0]));
        }
      }
    }
  }

  /** One element, then the others. */
  lemma AddOne(st: Store, st1: Store, st2: Store, p: Id, rest: seq<Id>, first: Ast)
    requires Wf(st) && Grown(st, st1, p, [st.next]) && Grown(st1, st2, p, rest)
    requires st.next in st1.nodes && Abs(st1, st.next) == first && Above(st2, rest, p)
    ensures Grown(st, st2, p, [st.next] + rest) && Above(st2, [st.next] + rest, p)
    ensures AbsAll(st2, [st.next] + rest, p) == [first] + AbsAll(st2, rest, p)
  {
    GrownTrans(st, st1, st2, p, [st.next], rest);
    AddedAbove(st, st1, p, [st.next]);
    AllStays(st1, st2, p, [st.next], rest);
    assert AbsAll(st1, [st.next], p) == [first] + AbsAll(st1, [st.next][1..], p);
    AbsAllAppend(st2, [st.next], rest, p);
  }

  lemma AddOneMember(st: Store, st1: Store, st2: Store, p: Id, rest: seq<Id>, first: AMember)
    requires Wf(st) && Grown(st, st1, p, [st.next]) && Grown(st1, st2, p, rest)
    requires st.next in st1.nodes && AMember(st1.nodes[st.next].name, Abs(st1, st.next)) == first
    requires Above(st2, rest, p)
    ensures Grown(st, st2, p, [st.next] + rest) && Above(st2, [st.next] + rest, p)
    ensures AbsMembers(st2, [st.next] + rest, p) == [first] + AbsMembers(st2, rest, p)
  {
    GrownTrans(st, st1, st2, p, [st.next], rest);
    AddedAbove(st, st1, p, [st.next]);
    MembersStay(st1, st2, p, [st.next], rest);
    assert AbsMembers(st1, [st.next], p) == [first] + AbsMembers(st1, [st.next][1..], p);
    AbsMembersAppend(st2, [st.next], rest, p);
  }

  // ---------------------------------------------------------------------
  // Names.
  // ---------------------------------------------------------------------

  /** The names of a group's members, in order. */
  ghost predicate Named(st: Store, ids: seq<Id>, names: seq<string>)
  {
    && |ids| == |names|
    && forall i :: 0 <= i < |ids| ==>
         ids[i] in st.nodes && st.nodes[ids[i]].name == Some(names[i]) && ValidName(names[i])
  }

  /** The duplicate check finds a name exactly if it was used. */
  lemma SearchFinds(st: Store, ids: seq<Id>, names: seq<string>, name: string)
    requires Named(st, ids, names) && ValidName(name)
    ensures Search(st, ids, name) < |ids| <==> name in names
  {
    ValidHasNoPath(name);
    var k := Search(st, ids, name);
    forall i | 0 <= i < |ids|
      ensures NameCompare(name, st.nodes[ids[i]].name.value) == 0 <==> name == names[i]
    {
      ValidHasNoPath(names[i]);
      CompareEqual(name, names[i]);
    }
    if name in names {
      var i :| 0 <= i < |names| && names[i] == name;
      assert k <= i;
    }
  }

  /** Rule 11: a member is created unless its name is used or invalid. */
  lemma MemberBegun(c: Ctx, g: Id, name: string, names: seq<string>)
    requires AtNode(c, g) && c.store.nodes[g].kind.GroupKind?
    requires Named(c.store, Children(c.store.nodes[g]), names)
    ensures
      var o := BeginSetting(c, name);
      var st := c.store;
      if ValidName(name) && name !in names then
        && o.Ok? && o.ctx == c.(store := o.ctx.store, setting := Some(st.next))
        && Grown(st, o.ctx.store, g, [st.next])
        && st.next in o.ctx.store.nodes
        && o.ctx.store.nodes[st.next] == Setting(Some(name), NoneKind, Zero, FORMAT_DEFAULT, Some(g))
      else o == Abort(DuplicateSetting)
  {
    hide Grown, Search, ListAdd, ValidName, HasNamed;
    CreateGrows(c.store, g, Some(name), NoneKind);
    if ValidName(name) {
      SearchFinds(c.store, Children(c.store.nodes[g]), names, name);
    }
  }

  // ---------------------------------------------------------------------
  // Values, lists, groups.
  // ---------------------------------------------------------------------

  predicate ActionFailure(o: Outcome) { o == Abort(DuplicateSetting) || o == Abort(MismatchedElement) }

  function BodyKind(v: Value): Kind
    requires !v.Plain?
  {
    match v
    case Array(_) => ArrayKind
    case List(_) => ListKind
    case Group(_) => GroupKind
  }

  /** The actions between the brackets. */
  function ExecBody(v: Value, c: Ctx): Outcome
    requires !v.Plain?
  {
    match v
    case Array(ss) => ExecSimples(ss, c)
    case List(vs) => ExecValues(vs, c)
    case Group(ms) => ExecMembers(ms, c)
  }

  lemma ValueSteps(v: Value, c: Ctx)
    requires !v.Plain?
    ensures
      var o := Open(c, BodyKind(v));
      ExecValue(v, c) ==
        if !o.Ok? then o
        else if ExecBody(v, o.ctx).Ok? then Close(ExecBody(v, o.ctx).ctx) else ExecBody(v, o.ctx)
  {
  }

  /** The body of an aggregate fills an empty node with its meaning. */
  lemma {:induction false} BodyIn(v: Value, c: Ctx, n: Id) returns (added: seq<Id>)
    requires !v.Plain? && AtNode(c, n)
    requires c.store.nodes[n].kind == BodyKind(v) && Children(c.store.nodes[n]) == []
    ensures
      var o := ExecBody(v, c);
      if GoodValue(v) then
        && o.Ok? && AtNode(o.ctx, n) && Grown(c.store, o.ctx.store, n, added)
        && Abs(o.ctx.store, n) == Meaning(v)
      else ActionFailure(o)
    decreases v, 0
  {
    hide ExecSimples, ExecValues, ExecMembers;
    match v {
      case Array(ss) => added := SimplesInArray(ss, c, n);
      case List(vs) => added := ValuesInList(vs, c, n);
      case Group(ms) => added := MembersIn(ms, c, n, []);
    }
    if GoodValue(v) {
      assert Children(ExecBody(v, c).ctx.store.nodes[n]) == added;
    }
  }

  /** Growing a new child is growing its parent by that child. */
  lemma GrownInner(st: Store, st1: Store, st2: Store, p: Id, n: Id, added: seq<Id>)
    requires Wf(st) && Grown(st, st1, p, [n]) && Grown(st1, st2, n, added) && n == st.next
    ensures Grown(st, st2, p, [n])
  {
    hide Wf;
    NotNext(st, p);
  }

  lemma NotNext(st: Store, p: Id)
    requires Wf(st) && p in st.nodes
    ensures p < st.next && st.next !in st.nodes
  {
  }

  /** A value in a list becomes the list's next element. */
  lemma {:induction false} ValueInList(v: Value, c: Ctx, p: Id)
    requires AtNode(c, p) && c.store.nodes[p].kind.ListKind?
    ensures
      var o := ExecValue(v, c);
      var st := c.store;
      if GoodValue(v) then
        && o.Ok? && AtNode(o.ctx, p) && Grown(st, o.ctx.store, p, [st.next])
        && st.next in o.ctx.store.nodes && Abs(o.ctx.store, st.next) == Meaning(v)
      else ActionFailure(o)
    decreases v, 1
  {
    hide ExecBody, Abs, Meaning, GoodValue, ExecSimple;
    if v.Plain? {
      PlainValue(v, c);
      ScalarAppended(v.simple, c, p);
    } else {
      var st := c.store;
      ValueSteps(v, c);
      hide ExecValue;
      CreateGrows(st, p, None, BodyKind(v));
      NotNext(st, p);
      var st1 := Create(st, p, None, BodyKind(v));
      var c1 := c.(store := st1, parent := Some(st.next));
      assert Open(c, BodyKind(v)) == Ok(c1);
      var added := BodyIn(v, c1, st.next);
      var o := ExecBody(v, c1);
      if o.Ok? {
        GrownInner(st, st1, o.ctx.store, p, st.next, added);
      }
    }
  }

  lemma PlainValue(v: Value, c: Ctx)
    requires v.Plain?
    ensures ExecValue(v, c) == ExecSimple(v.simple, c)
    ensures Meaning(v) == SimpleMeaning(v.simple) && GoodValue(v)
  {
  }

  lemma {:induction false} ValuesInList(vs: seq<Value>, c: Ctx, p: Id) returns (added: seq<Id>)
    requires AtNode(c, p) && c.store.nodes[p].kind.ListKind?
    ensures
      var o := ExecValues(vs, c);
      if GoodValues(vs) then
        && o.Ok? && AtNode(o.ctx, p) && Grown(c.store, o.ctx.store, p, added)
        && Above(o.ctx.store, added, p)
        && AbsAll(o.ctx.store, added, p) == Meanings(vs)
      else ActionFailure(o)
    decreases vs, 2
  {
    hide ExecValue, Abs, Meaning, GoodValue;
    var st := c.store;
    added := [];
    if vs == [] {
      GrownNothing(st, p);
    } else {
      ValueInList(vs[0], c, p);
      var o := ExecValue(vs[0], c);
      if o.Ok? {
        var rest := ValuesInList(vs[1..], o.ctx, p);
        added := [st.next] + rest;
        var o' := ExecValues(vs, c);
        if o'.Ok? {
          AddOne(st, o.ctx.store, o'.ctx.store, p, rest, Meaning(vs[0]));
        }
      }
    }
  }

  /** From st to st', the setting s got its value; no other old node changed. */
  ghost predicate Filled(st: Store, st': Store, s: Id)
  {
    && Wf(st') && st.next <= st'.next && s in st.nodes && s in st'.nodes
    && (forall id :: id in st.nodes && id != s ==> id in st'.nodes && st'.nodes[id] == st.nodes[id])
    && st'.nodes[s].name == st.nodes[s].name && st'.nodes[s].parent == st.nodes[s].parent
  }

  /** A value after a name fills the new setting. */
  lemma {:induction false} ValueForSetting(v: Value, c: Ctx, g: Id, s: Id)
    requires AtNode(c, g) && c.store.nodes[g].kind.GroupKind?
    requires c.setting == Some(s) && s in c.store.nodes && s != g
    requires c.store.nodes[s].kind.NoneKind? && Children(c.store.nodes[s]) == []
    requires c.store.nodes[s].parent == Some(g)
    ensures
      var o := ExecValue(v, c);
      if GoodValue(v) then
        && o.Ok? && AtNode(o.ctx, g) && Filled(c.store, o.ctx.store, s)
        && Abs(o.ctx.store, s) == Meaning(v)
      else ActionFailure(o)
    decreases v, 1
  {
    hide ExecBody, Abs, Meaning, GoodValue, ExecSimple;
    var st := c.store;
    if v.Plain? {
      var x := v.simple;
      PlainValue(v, c);
      SimpleAct(x, c);
      var node := st.nodes[s].(kind := SimpleKind(x), payload := SimplePayload(x), format := SimpleFormat(x));
      ChangeLeaf(st, s, node);
      ScalarMeaning(st.(nodes := st.nodes[s := node]), s, x);
    } else {
      ValueSteps(v, c);
      hide ExecValue;
      var node := st.nodes[s].(kind := BodyKind(v));
      ChangeLeaf(st, s, node);
      var c1 := c.(store := st.(nodes := st.nodes[s := node]), parent := Some(s), setting := None);
      assert Open(c, BodyKind(v)) == Ok(c1);
      var added := BodyIn(v, c1, s);
    }
  }

  /** A member becomes the group's next element. */
  lemma {:induction false} MemberIn(m: Member, c: Ctx, g: Id, seen: seq<string>)
    requires AtNode(c, g) && c.store.nodes[g].kind.GroupKind?
    requires Named(c.store, Children(c.store.nodes[g]), seen)
    ensures
      var o := ExecMember(m, c);
      var st := c.store;
      if ValidName(m.name) && m.name !in seen && GoodValue(m.value) then
        && o.Ok? && AtNode(o.ctx, g) && Grown(st, o.ctx.store, g, [st.next])
        && st.next in o.ctx.store.nodes && o.ctx.store.nodes[st.next].name == Some(m.name)
        && Abs(o.ctx.store, st.next) == Meaning(m.value)
      else ActionFailure(o)
    decreases m, 2
  {
    hide ExecValue, Abs, Meaning, GoodValue, BeginSetting, ValidName;
    var st := c.store;
    MemberBegun(c, g, m.name, seen);
    NotNext(st, g);
    var o := BeginSetting(c, m.name);
    if o.Ok? {
      ValueForSetting(m.value, o.ctx, g, st.next);
      var o' := ExecValue(m.value, o.ctx);
      if o'.Ok? {
        FilledGrows(st, o.ctx.store, o'.ctx.store, g, st.next);
      }
    }
  }

  lemma FilledGrows(st: Store, st1: Store, st2: Store, g: Id, s: Id)
    requires Wf(st) && Grown(st, st1, g, [s]) && s == st.next && Filled(st1, st2, s)
    ensures Grown(st, st2, g, [s])
  {
    hide Wf;
    NotNext(st, g);
  }

  lemma NamedGrows(st: Store, st': Store, g: Id, names: seq<string>, name: string)
    requires Wf(st) && Grown(st, st', g, [st.next]) && Named(st, Children(st.nodes[g]), names)
    requires ValidName(name) && st.next in st'.nodes && st'.nodes[st.next].name == Some(name)
    ensures Named(st', Children(st'.nodes[g]), names + [name])
  {
    var ids, ids' := Children(st.nodes[g]), Children(st'.nodes[g]);
    forall i | 0 <= i < |ids'|
      ensures ids'[i] in st'.nodes && st'.nodes[ids'[i]].name == Some((names + [name])[i])
    {
      if i < |ids| {
        assert ids[i] in ids && ids[i] > g;
        assert ids'[i] == ids[i];
      } else {
        assert ids'[i] == st.next;
      }
    }
  }

  lemma {:induction false} MembersIn(ms: seq<Member>, c: Ctx, g: Id, seen: seq<string>) returns (added: seq<Id>)
    requires AtNode(c, g) && c.store.nodes[g].kind.GroupKind?
    requires Named(c.store, Children(c.store.nodes[g]), seen)
    ensures
      var o := ExecMembers(ms, c);
      if GoodMembers(ms, seen) then
        && o.Ok? && AtNode(o.ctx, g) && Grown(c.store, o.ctx.store, g, added)
        && Above(o.ctx.store, added, g)
        && AbsMembers(o.ctx.store, added, g) == MemberMeanings(ms)
      else ActionFailure(o)
    decreases ms, 3
  {
    hide ExecMember, Abs, Meaning, GoodValue, Named, ValidName;
    var st := c.store;
    added := [];
    if ms == [] {
      GrownNothing(st, g);
    } else {
      MemberIn(ms[0], c, g, seen);
      var o := ExecMember(ms[0], c);
      if o.Ok? {
        var st1 := o.ctx.store;
        NamedGrows(st, st1, g, seen, ms[0].name);
        var rest := MembersIn(ms[1..], o.ctx, g, seen + [ms[0].name]);
        added := [st.next] + rest;
        var o' := ExecMembers(ms, c);
        if o'.Ok? {
          AddOneMember(st, st1, o'.ctx.store, g, rest, AMember(Some(ms[0].name), Meaning(ms[0].value)));
        }
      }
    }
  }

  /**
   The whole configuration: the actions succeed exactly on configurations with
   valid, unrepeated names and homogeneous arrays; then the root's tree is the
   configuration's meaning and the parent cursor is back at the root. Otherwise
   they abort with a duplicate name or a mismatched element, nothing else.
   */
  lemma ActionsRefineMeaning(ms: seq<Member>)
    ensures
      var o := ExecMembers(ms, INITIAL);
      if GoodMembers(ms, []) then
        && o.Ok? && o.ctx.parent == Some(0) && Wf(o.ctx.store) && 0 in o.ctx.store.nodes
        && Abs(o.ctx.store, 0) == AGroup(MemberMeanings(ms))
      else ActionFailure(o)
  {
    hide ExecMembers, MemberMeanings, GoodMembers;
    assert Children(EMPTY.nodes[0]) == [];
    var added := MembersIn(ms, INITIAL, 0, []);
    if GoodMembers(ms, []) {
      assert Children(ExecMembers(ms, INITIAL).ctx.store.nodes[0]) == added;
    }
  }
}
