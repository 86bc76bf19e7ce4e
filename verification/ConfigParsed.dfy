/**
 What the parser builds is a tree in the sense of the edits: the semantic actions
 keep links, names, buffers and homogeneous arrays, so a configuration that was
 read can be edited and written like one that was built by calls.
 */
module ConfigParsed {
  import opened Options
  import opened ConfigStore
  import opened ConfigActions
  import opened ConfigParser
  import opened ConfigSyntax
  import opened ConfigLanguage
  import opened ConfigMeaning
  import opened ConfigTree
  import opened ConfigEdits
  import Refine = ConfigRefine

  /** Settings stay where they are, and keep a type once they have one. */
  ghost predicate Stays(st: Store, st': Store)
  {
    forall id :: id in st.nodes ==>
      id in st'.nodes && st'.nodes[id].parent == st.nodes[id].parent
      && (!st.nodes[id].kind.NoneKind? ==> st'.nodes[id].kind == st.nodes[id].kind)
  }

  lemma StaysTrans(a: Store, b: Store, c: Store)
    requires Stays(a, b) && Stays(b, c)
    ensures Stays(a, c)
  {
    forall id | id in a.nodes
      ensures id in c.nodes && c.nodes[id].parent == a.nodes[id].parent
              && (!a.nodes[id].kind.NoneKind? ==> c.nodes[id].kind == a.nodes[id].kind)
    {
      StaysIn(a, b, id);
      StaysIn(b, c, id);
    }
  }

  ghost predicate Sound(st: Store) { Tree(st) && Strict(st) }

  /** The parent cursor is at p, between values. */
  ghost predicate At(c: Ctx, p: Id)
  {
    Sound(c.store) && c.parent == Some(p) && p in c.store.nodes && c.str.None?
  }

  /** The place for the next value: a vector, or a member of a group that has no value yet. */
  ghost predicate Awaiting(c: Ctx, p: Id)
    requires p in c.store.nodes
  {
    var k := c.store.nodes[p].kind;
    k.ArrayKind? || k.ListKind? ||
    (k.GroupKind? && c.setting.Some? && c.setting.value in c.store.nodes
     && c.store.nodes[c.setting.value].kind.NoneKind? && c.store.nodes[c.setting.value].parent == Some(p))
  }

  /** An outcome that failed, or brought the cursor back to p. */
  ghost predicate Back(o: Outcome, c: Ctx, p: Id)
  {
    o.Ok? ==> At(o.ctx, p) && Stays(c.store, o.ctx.store)
  }

  // ---------------------------------------------------------------------
  // Stores.
  // ---------------------------------------------------------------------

  lemma CreateStays(st: Store, p: Id, name: Option<string>, kind: Kind)
    requires Wf(st) && p in st.nodes
    ensures Stays(st, Create(st, p, name, kind))
    ensures st.next !in st.nodes && st.next in Create(st, p, name, kind).nodes
    ensures Create(st, p, name, kind).nodes[st.next] == Setting(name, kind, Zero, FORMAT_DEFAULT, Some(p))
  {
    hide ListAdd;
  }

  lemma ReplaceStays(st: Store, id: Id, s: Setting)
    requires id in st.nodes && InPlace(st.nodes[id], s)
    ensures Stays(st, Replace(st, id, s))
  {
    hide Shape;
  }

  lemma ReplaceSound(st: Store, id: Id, s: Setting)
    requires Sound(st) && id in st.nodes && InPlace(st.nodes[id], s)
    ensures Sound(Replace(st, id, s)) && Stays(st, Replace(st, id, s))
  {
    hide Replace, InPlace, NodeOk, StrictNode, Linked, Wf;
    ReplaceTree(st, id, s);
    ReplaceStrict(st, id, s);
    ReplaceStays(st, id, s);
  }

  lemma AppendSound(st: Store, v: Id, kind: Kind, payload: Payload, format: int)
    requires Sound(st) && v in st.nodes && Append(st, v, kind, payload, format).Some?
    requires IsScalar(kind) && Fits(kind, payload)
    ensures
      var r := Append(st, v, kind, payload, format).value;
      Sound(r) && Stays(st, r)
  {
    hide Append, NodeOk, StrictNode, Linked, IsScalar, Fits, Create, Replace, CheckType, InPlace;
    AppendTree(st, v, kind, payload, format);
    AppendStrict(st, v, kind, payload, format);
    AppendParts(st, v, kind, payload, format);
    CreateStays(st, v, None, kind);
    var st1 := Create(st, v, None, kind);
    var s := Setting(None, kind, payload, format, Some(v));
    ReplaceStays(st1, st.next, s);
    StaysTrans(st, st1, Replace(st1, st.next, s));
  }

  lemma AddSound(st: Store, p: Id, name: Option<string>, kind: Kind)
    requires Sound(st) && p in st.nodes && Add(st, p, name, kind).Some?
    requires st.nodes[p].kind.ListKind? || (st.nodes[p].kind.GroupKind? && name.Some?)
    ensures
      var r := Add(st, p, name, kind).value;
      && Sound(r) && Stays(st, r) && st.next in r.nodes && Children(r.nodes[st.next]) == []
      && r.nodes[st.next].kind == kind && r.nodes[st.next].parent == Some(p) && Shape(r.nodes[st.next])
  {
    hide Add, Names, Linked, StrictNode, Create, FreshName;
    var name' := if st.nodes[p].kind.GroupKind? then name else None;
    AddFresh(st, p, name, kind);
    CreateTree(st, p, name', kind);
    CreateStrict(st, p, name', kind);
    CreateStays(st, p, name', kind);
  }

  // ---------------------------------------------------------------------
  // Actions.
  // ---------------------------------------------------------------------

  lemma SimpleFits(s: Simple)
    ensures IsScalar(SimpleKind(s)) && Fits(SimpleKind(s), Refine.SimplePayload(s))
  {
  }

  lemma SimpleKeeps(s: Simple, c: Ctx, p: Id)
    requires At(c, p) && Awaiting(c, p)
    ensures Back(ExecSimple(s, c), c, p)
  {
    hide ExecSimple, Sound, Append, IsScalar, Fits, Replace, InPlace, Refine.SimplePayload, Refine.SimpleFormat, Stays;
    Refine.SimpleAct(s, c);
    SimpleFits(s);
    var st := c.store;
    var kind, payload, format := SimpleKind(s), Refine.SimplePayload(s), Refine.SimpleFormat(s);
    if InVector(c) {
      if Append(st, p, kind, payload, format).Some? {
        AppendSound(st, p, kind, payload, format);
      }
    } else {
      var id := c.setting.value;
      PutInPlace(st, id, kind, payload, format);
      ReplaceSound(st, id, st.nodes[id].(kind := kind, payload := payload, format := format));
    }
    if Scalar(c, kind, payload, format).Ok? {
      StaysIn(st, Scalar(c, kind, payload, format).ctx.store, p);
    }
  }

  lemma StaysIn(st: Store, st': Store, p: Id)
    requires Stays(st, st') && p in st.nodes
    ensures p in st'.nodes && st'.nodes[p].parent == st.nodes[p].parent
    ensures !st.nodes[p].kind.NoneKind? ==> st'.nodes[p].kind == st.nodes[p].kind
  {
    assert st'.nodes[p].parent == st.nodes[p].parent;
  }

  lemma PutInPlace(st: Store, id: Id, kind: Kind, payload: Payload, format: int)
    requires Sound(st) && id in st.nodes && st.nodes[id].kind.NoneKind? && IsScalar(kind) && Fits(kind, payload)
    ensures
      var s := st.nodes[id].(kind := kind, payload := payload, format := format);
      InPlace(st.nodes[id], s) && Put(st, id, kind, payload, format) == Replace(st, id, s)
  {
    assert NodeOk(st, id);
  }

  /** A body between brackets, then the closing bracket. */
  lemma Closed(c: Ctx, o: Outcome, n: Id, p: Id)
    requires o.Ok? && At(o.ctx, n) && Stays(c.store, o.ctx.store)
    requires n in c.store.nodes && c.store.nodes[n].parent == Some(p) && p in c.store.nodes
    ensures Back(Close(o.ctx), c, p)
  {
    hide Sound, Stays;
    StaysIn(c.store, o.ctx.store, n);
    StaysIn(c.store, o.ctx.store, p);
  }

  /** An opening bracket: the cursor moves into a new or a still empty setting. */
  lemma OpenKeeps(c: Ctx, p: Id, kind: Kind) returns (n: Id)
    requires At(c, p) && Awaiting(c, p) && !c.store.nodes[p].kind.ArrayKind? && Aggregate(kind)
    ensures
      var o := Open(c, kind);
      o.Ok? ==>
        && At(o.ctx, n) && Stays(c.store, o.ctx.store) && p in o.ctx.store.nodes
        && o.ctx.store.nodes[n].kind == kind && o.ctx.store.nodes[n].parent == Some(p)
  {
    hide Sound, Stays, Add, Replace, InPlace;
    var st := c.store;
    if InList(c) {
      n := st.next;
      if Add(st, p, None, kind).Some? {
        AddSound(st, p, None, kind);
        StaysIn(st, Add(st, p, None, kind).value, p);
      }
    } else {
      n := c.setting.value;
      var s := st.nodes[n].(kind := kind);
      BlankInPlace(st, n, kind);
      ReplaceSound(st, n, s);
      StaysIn(st, Replace(st, n, s), p);
    }
  }

  lemma BlankInPlace(st: Store, id: Id, kind: Kind)
    requires Sound(st) && id in st.nodes && st.nodes[id].kind.NoneKind? && Aggregate(kind)
    ensures
      var s := st.nodes[id].(kind := kind);
      InPlace(st.nodes[id], s) && st.(nodes := st.nodes[id := s]) == Replace(st, id, s)
      && id in Replace(st, id, s).nodes && Replace(st, id, s).nodes[id] == s
  {
    assert NodeOk(st, id);
  }

  // ---------------------------------------------------------------------
  // Whole configurations.
  // ---------------------------------------------------------------------

  lemma BackTrans(o: Outcome, o': Outcome, c: Ctx, p: Id)
    requires o.Ok? && Back(o, c, p) && Back(o', o.ctx, p)
    ensures Back(o', c, p)
  {
    hide Stays, Sound;
    if o'.Ok? {
      StaysTrans(c.store, o.ctx.store, o'.ctx.store);
    }
  }

  lemma StaysSame(st: Store)
    ensures Stays(st, st)
  {
  }

  lemma {:induction false} SimplesKeep(ss: seq<Simple>, c: Ctx, p: Id)
    requires At(c, p) && c.store.nodes[p].kind.ArrayKind?
    ensures Back(ExecSimples(ss, c), c, p)
    decreases |ss|
  {
    hide ExecSimple, Sound, Stays;
    if ss == [] {
      StaysSame(c.store);
    } else {
      SimpleKeeps(ss[0], c, p);
      var o := ExecSimple(ss[0], c);
      if o.Ok? {
        StaysIn(c.store, o.ctx.store, p);
        SimplesKeep(ss[1..], o.ctx, p);
        BackTrans(o, ExecSimples(ss[1..], o.ctx), c, p);
      }
    }
  }

  lemma {:induction false} ValueKeeps(v: Value, c: Ctx, p: Id)
    requires At(c, p) && Awaiting(c, p) && !c.store.nodes[p].kind.ArrayKind?
    ensures Back(ExecValue(v, c), c, p)
    decreases v, 1
  {
    hide ExecSimples, ExecValues, ExecMembers, ExecSimple, Sound, Stays, Open, Close, Awaiting;
    if v.Plain? {
      SimpleKeeps(v.simple, c, p);
    } else {
      Refine.ValueSteps(v, c);
      var kind := Refine.BodyKind(v);
      var n := OpenKeeps(c, p, kind);
      var o := Open(c, kind);
      if o.Ok? {
        BodyKeeps(v, o.ctx, n);
        var body := Refine.ExecBody(v, o.ctx);
        if body.Ok? {
          Closed(o.ctx, body, n, p);
          CloseTrans(c, o.ctx, Close(body.ctx), p);
        }
      }
    }
  }

  lemma CloseTrans(c: Ctx, c1: Ctx, o: Outcome, p: Id)
    requires Back(o, c1, p) && Stays(c.store, c1.store)
    ensures Back(o, c, p)
  {
    hide Stays, Sound;
    if o.Ok? {
      StaysTrans(c.store, c1.store, o.ctx.store);
    }
  }

  lemma {:induction false} BodyKeeps(v: Value, c: Ctx, n: Id)
    requires !v.Plain? && At(c, n) && c.store.nodes[n].kind == Refine.BodyKind(v)
    ensures Back(Refine.ExecBody(v, c), c, n)
    decreases v, 0
  {
    hide ExecSimples, ExecValues, ExecMembers, Sound, Stays;
    match v {
      case Array(ss) => SimplesKeep(ss, c, n);
      case List(vs) => ValuesKeep(vs, c, n);
      case Group(ms) => MembersKeep(ms, c, n);
    }
  }

  lemma {:induction false} ValuesKeep(vs: seq<Value>, c: Ctx, p: Id)
    requires At(c, p) && c.store.nodes[p].kind.ListKind?
    ensures Back(ExecValues(vs, c), c, p)
    decreases vs, 2
  {
    hide ExecValue, Sound, Stays;
    if vs == [] {
      StaysSame(c.store);
    } else {
      ValueKeeps(vs[0], c, p);
      var o := ExecValue(vs[0], c);
      if o.Ok? {
        StaysIn(c.store, o.ctx.store, p);
        ValuesKeep(vs[1..], o.ctx, p);
        BackTrans(o, ExecValues(vs[1..], o.ctx), c, p);
      }
    }
  }

  lemma {:induction false} MemberKeeps(m: Member, c: Ctx, p: Id)
    requires At(c, p) && c.store.nodes[p].kind.GroupKind?
    ensures Back(ExecMember(m, c), c, p)
    decreases m, 2
  {
    hide ExecValue, Sound, Stays, Add;
    var st := c.store;
    if Add(st, p, Some(m.name), NoneKind).Some? {
      AddSound(st, p, Some(m.name), NoneKind);
      var st1 := Add(st, p, Some(m.name), NoneKind).value;
      var c1 := c.(store := st1, setting := Some(st.next));
      StaysIn(st, st1, p);
      ValueKeeps(m.value, c1, p);
      CloseTrans(c, c1, ExecValue(m.value, c1), p);
    }
  }

  lemma {:induction false} MembersKeep(ms: seq<Member>, c: Ctx, p: Id)
    requires At(c, p) && c.store.nodes[p].kind.GroupKind?
    ensures Back(ExecMembers(ms, c), c, p)
    decreases ms, 3
  {
    hide ExecMember, Sound, Stays;
    if ms == [] {
      StaysSame(c.store);
    } else {
      MemberKeeps(ms[0], c, p);
      var o := ExecMember(ms[0], c);
      if o.Ok? {
        StaysIn(c.store, o.ctx.store, p);
        MembersKeep(ms[1..], o.ctx, p);
        BackTrans(o, ExecMembers(ms[1..], o.ctx), c, p);
      }
    }
  }

  /** Every token sequence that the parser accepts builds such a tree. */
  lemma ParsedIsTree(input: seq<Token>)
    requires Parse(input).Accepted?
    ensures
      var st := Parse(input).ctx.store;
      Tree(st) && Strict(st)
  {
    hide ExecMembers, MembersTokens, Parse, Tree, Strict;
    var ctx := Parse(input).ctx;
    AcceptsExactly(input, ctx);
    var ms :| MembersTokens(ms) == input && ExecMembers(ms, INITIAL) == Ok(ctx);
    EmptyTree();
    MembersKeep(ms, INITIAL, 0);
  }
}
