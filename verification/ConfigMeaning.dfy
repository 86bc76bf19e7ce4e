/**
 The plain meaning of a configuration: an abstract tree, read off the store by
 following element lists, and read off concrete syntax by recursion.
 */
module ConfigMeaning {
  import opened Options
  import opened ConfigStore
  import opened ConfigActions
  import opened ConfigSyntax

  datatype Ast =
    | ANone
    | ABool(ival: int)
    | AInt(ival: int, format: int)
    | AInt64(llval: int, format: int)
    | AFloat(text: string)
    | AString(sval: Option<string>)
    | AArray(elems: seq<Ast>)
    | AList(elems: seq<Ast>)
    | AGroup(members: seq<AMember>)

  datatype AMember = AMember(name: Option<string>, value: Ast)

  // ---------------------------------------------------------------------
  // The tree in the store.
  // ---------------------------------------------------------------------

  /** Links match containment, and children are younger than their parent. */
  ghost predicate Wf(st: Store)
  {
    forall id :: id in st.nodes ==>
      && id < st.next
      && forall k :: k in Children(st.nodes[id]) ==> k in st.nodes && id < k && st.nodes[k].parent == Some(id)
  }

  /** The ids lie in the store above lo. */
  ghost predicate Above(st: Store, ids: seq<Id>, lo: Id)
  {
    forall i :: 0 <= i < |ids| ==> ids[i] in st.nodes && lo < ids[i]
  }

  lemma ChildrenAbove(st: Store, id: Id)
    requires Wf(st) && id in st.nodes
    ensures Above(st, Children(st.nodes[id]), id)
  {
  }

  function Scalars(s: Setting): Ast
  {
    match s.kind
    case BoolKind => ABool(if s.payload.IntVal? then s.payload.ival else 0)
    case IntKind => AInt(if s.payload.IntVal? then s.payload.ival else 0, s.format)
    case Int64Kind => AInt64(if s.payload.Int64Val? then s.payload.llval else 0, s.format)
    case FloatKind => AFloat(if s.payload.FloatVal? then s.payload.text else "")
    case StringKind => AString(if s.payload.StringVal? then s.payload.sval else None)
    case _ => ANone
  }

  ghost function Abs(st: Store, id: Id): Ast
    requires Wf(st) && id in st.nodes
    decreases st.next - id
  {
    ChildrenAbove(st, id);
    var s := st.nodes[id];
    match s.kind
    case ArrayKind => AArray(AbsAll(st, Children(s), id))
    case ListKind => AList(AbsAll(st, Children(s), id))
    case GroupKind => AGroup(AbsMembers(st, Children(s), id))
    case _ => Scalars(s)
  }

  ghost function AbsAll(st: Store, ids: seq<Id>, lo: Id): (r: seq<Ast>)
    requires Wf(st) && Above(st, ids, lo)
    decreases st.next - lo, |ids|
  {
    if ids == [] then []
    else
      assert ids[0] < st.next;
      assert Above(st, ids[1..], lo);
      [Abs(st, ids[0])] + AbsAll(st, ids[1..], lo)
  }

  ghost function AbsMembers(st: Store, ids: seq<Id>, lo: Id): (r: seq<AMember>)
    requires Wf(st) && Above(st, ids, lo)
    decreases st.next - lo, |ids|
  {
    if ids == [] then []
    else
      assert ids[0] < st.next;
      assert Above(st, ids[1..], lo);
      [AMember(st.nodes[ids[0]].name, Abs(st, ids[0]))] + AbsMembers(st, ids[1..], lo)
  }

  // ---------------------------------------------------------------------
  // Later changes elsewhere do not matter.
  // ---------------------------------------------------------------------

  /** Everything from lo on that was in st is the same in st'. */
  ghost predicate SameFrom(st: Store, st': Store, lo: Id)
  {
    forall id :: id in st.nodes && lo <= id ==> id in st'.nodes && st'.nodes[id] == st.nodes[id]
  }

  lemma {:induction false} AbsFrame(st: Store, st': Store, id: Id)
    requires Wf(st) && Wf(st') && id in st.nodes && SameFrom(st, st', id)
    ensures id in st'.nodes && Abs(st', id) == Abs(st, id)
    decreases st.next - id
  {
    ChildrenAbove(st, id);
    ChildrenAbove(st', id);
    var s := st.nodes[id];
    if s.kind.ArrayKind? || s.kind.ListKind? {
      AbsAllFrame(st, st', Children(s), id);
    } else if s.kind.GroupKind? {
      AbsMembersFrame(st, st', Children(s), id);
    }
  }

  lemma {:induction false} AbsAllFrame(st: Store, st': Store, ids: seq<Id>, lo: Id)
    requires Wf(st) && Wf(st') && Above(st, ids, lo) && SameFrom(st, st', lo + 1)
    ensures Above(st', ids, lo) && AbsAll(st', ids, lo) == AbsAll(st, ids, lo)
    decreases st.next - lo, |ids|
  {
    if ids != [] {
      AbsFrame(st, st', ids[0]);
      AbsAllFrame(st, st', ids[1..], lo);
    }
  }

  lemma {:induction false} AbsMembersFrame(st: Store, st': Store, ids: seq<Id>, lo: Id)
    requires Wf(st) && Wf(st') && Above(st, ids, lo) && SameFrom(st, st', lo + 1)
    ensures Above(st', ids, lo) && AbsMembers(st', ids, lo) == AbsMembers(st, ids, lo)
    decreases st.next - lo, |ids|
  {
    if ids != [] {
      AbsFrame(st, st', ids[0]);
      AbsMembersFrame(st, st', ids[1..], lo);
    }
  }

  lemma {:induction false} AbsAllAppend(st: Store, a: seq<Id>, b: seq<Id>, lo: Id)
    requires Wf(st) && Above(st, a, lo) && Above(st, b, lo)
    ensures Above(st, a + b, lo) && AbsAll(st, a + b, lo) == AbsAll(st, a, lo) + AbsAll(st, b, lo)
    decreases |a|
  {
    hide Abs;
    if a == [] {
      assert a + b == b;
    } else {
      assert (a + b)[1..] == a[1..] + b && (a + b)[0] == a[0];
      AbsAllAppend(st, a[1..], b, lo);
    }
  }

  lemma {:induction false} AbsMembersAppend(st: Store, a: seq<Id>, b: seq<Id>, lo: Id)
    requires Wf(st) && Above(st, a, lo) && Above(st, b, lo)
    ensures Above(st, a + b, lo)
    ensures AbsMembers(st, a + b, lo) == AbsMembers(st, a, lo) + AbsMembers(st, b, lo)
    decreases |a|
  {
    hide Abs;
    if a == [] {
      assert a + b == b;
    } else {
      assert (a + b)[1..] == a[1..] + b && (a + b)[0] == a[0];
      AbsMembersAppend(st, a[1..], b, lo);
    }
  }

  // ---------------------------------------------------------------------
  // The meaning of concrete syntax.
  // ---------------------------------------------------------------------

  function Joined(parts: seq<string>): string
  {
    if parts == [] then "" else parts[0] + Joined(parts[1..])
  }

  function SimpleMeaning(s: Simple): Ast
  {
    match s
    case SBool(i) => ABool(i)
    case SInt(i) => AInt(i, FORMAT_DEFAULT)
    case SHex(i) => AInt(i, FORMAT_HEX)
    case SInt64(l) => AInt64(l, FORMAT_DEFAULT)
    case SHex64(l) => AInt64(l, FORMAT_HEX)
    case SFloat(text) => AFloat(text)
    case SString(first, more) => AString(Some(Joined([first] + more)))
  }

  function SimpleMeanings(ss: seq<Simple>): (r: seq<Ast>)
    ensures |r| == |ss|
  {
    if ss == [] then [] else [SimpleMeaning(ss[0])] + SimpleMeanings(ss[1..])
  }

  function Meaning(v: Value): Ast
    decreases v, 1
  {
    match v
    case Plain(s) => SimpleMeaning(s)
    case Array(ss) => AArray(SimpleMeanings(ss))
    case List(vs) => AList(Meanings(vs))
    case Group(ms) => AGroup(MemberMeanings(ms))
  }

  function Meanings(vs: seq<Value>): seq<Ast>
    decreases vs, 0
  {
    if vs == [] then [] else [Meaning(vs[0])] + Meanings(vs[1..])
  }

  function MemberMeanings(ms: seq<Member>): seq<AMember>
    decreases ms, 0
  {
    if ms == [] then []
    else [AMember(Some(ms[0].name), Meaning(ms[0].value))] + MemberMeanings(ms[1..])
  }

  // ---------------------------------------------------------------------
  // Which configurations the actions take.
  // ---------------------------------------------------------------------

  function SimpleKind(s: Simple): Kind
  {
    match s
    case SBool(_) => BoolKind
    case SInt(_) => IntKind
    case SHex(_) => IntKind
    case SInt64(_) => Int64Kind
    case SHex64(_) => Int64Kind
    case SFloat(_) => FloatKind
    case SString(_, _) => StringKind
  }

  /** Array elements all have the kind of the first. */
  predicate Homogeneous(ss: seq<Simple>)
  {
    forall i :: 0 <= i < |ss| ==> SimpleKind(ss[i]) == SimpleKind(ss[0])
  }

  predicate GoodValue(v: Value)
    decreases v, 1
  {
    match v
    case Plain(_) => true
    case Array(ss) => Homogeneous(ss)
    case List(vs) => GoodValues(vs)
    case Group(ms) => GoodMembers(ms, [])
  }

  predicate GoodValues(vs: seq<Value>)
    decreases vs, 0
  {
    vs == [] || (GoodValue(vs[0]) && GoodValues(vs[1..]))
  }

  /** Names are valid, and none repeats or was seen before. */
  predicate GoodMembers(ms: seq<Member>, seen: seq<string>)
    decreases ms, 0
  {
    ms == [] ||
    (ValidName(ms[0].name) && ms[0].name !in seen && GoodValue(ms[0].value)
     && GoodMembers(ms[1..], seen + [ms[0].name]))
  }
}
