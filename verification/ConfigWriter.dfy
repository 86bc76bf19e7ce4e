/**
 config_write: the tree in the store is written to a stream piece by piece. The
 text is that of the abstract tree, so what careful edits built can be read back.
 */
module ConfigWriter {
  import opened Options
  import opened ConfigStore
  import opened ConfigActions
  import opened ConfigParser
  import opened ConfigMeaning
  import opened ConfigTree
  import opened ConfigScanner
  import opened ConfigPrinter
  import opened ConfigLexing
  import opened ConfigRoundTrip
  import Edits = ConfigEdits
  import Parsed = ConfigParsed

  class Stream {
    var text: string

    constructor ()
      ensures text == ""
    {
      text := "";
    }

    /** fputs */
    method Put(s: string)
      modifies this
      ensures text == old(text) + s
    {
      text := text + s;
    }
  }

  /** __config_indent */
  method WriteIndent(out: Stream, depth: nat, width: nat)
    requires depth > 1
    modifies out
    ensures out.text == old(out.text) + Indent(depth, width)
  {
    if width > 0 {
      out.Put(Repeat(' ', (depth - 1) * width));
    } else {
      var i := 0;
      while i < depth - 1
        invariant 0 <= i <= depth - 1
        invariant out.text == old(out.text) + Repeat('\t', i)
      {
        out.Put("\t");
        assert Repeat('\t', i + 1) == Repeat('\t', i) + "\t";
        i := i + 1;
      }
    }
  }

  /** The loop over the characters of a string. */
  method WriteEscaped(out: Stream, s: string)
    modifies out
    ensures out.text == old(out.text) + EscapeText(s)
  {
    hide EscapeChar;
    var p := 0;
    assert s[0..] == s;
    while p < |s|
      invariant 0 <= p <= |s|
      invariant old(out.text) + EscapeText(s) == out.text + EscapeText(s[p..])
    {
      WriteChar(out, s[p]);
      assert s[p..][1..] == s[p + 1..];
      p := p + 1;
    }
  }

  method WriteChar(out: Stream, c: char)
    modifies out
    ensures out.text == old(out.text) + EscapeChar(c)
  {
    if c == '\"' || c == '\\' {
      out.Put("\\");
      out.Put([c]);
    } else if c == '\n' {
      out.Put("\\n");
    } else if c == '\r' {
      out.Put("\\r");
    } else if c == '\U{000C}' {
      out.Put("\\f");
    } else if c == '\t' {
      out.Put("\\t");
    } else if c >= ' ' {
      out.Put([c]);
    } else {
      out.Put("\\x");
      out.Put(TwoHex(c as int));
    }
  }

  /** The part of __config_write_value for values without elements. */
  method WriteScalar(out: Stream, s: Setting)
    requires !Aggregate(s.kind)
    modifies out
    ensures out.text == old(out.text) + PrintValue(Scalars(s), 0, 0)
  {
    hide EscapeText, DecimalText, HexText;
    match Scalars(s)
    case ABool(i) => out.Put(if i != 0 then "true" else "false");
    case AInt(i, format) => out.Put(if format == FORMAT_HEX then HexText(i, TWO32) else DecimalText(i));
    case AInt64(l, format) =>
      out.Put(if format == FORMAT_HEX then HexText(l, TWO64) else DecimalText(l));
      out.Put("L");
    case AFloat(text) => out.Put(text);
    case AString(v) =>
      ghost var start := out.text;
      out.Put("\"");
      if v.Some? {
        WriteEscaped(out, v.value);
      }
      out.Put("\"");
      assert out.text == start + ("\"" + (if v.Some? then EscapeText(v.value) else "") + "\"");
    case ANone => out.Put("???");
  }

  lemma ScalarAlike(s: Setting, depth: nat, width: nat)
    requires !Aggregate(s.kind)
    ensures PrintValue(Scalars(s), depth, width) == PrintValue(Scalars(s), 0, 0)
  {
  }

  /** __config_write_value */
  method WriteValue(st: Store, id: Id, depth: nat, width: nat, out: Stream)
    requires Wf(st) && id in st.nodes
    modifies out
    ensures out.text == old(out.text) + PrintValue(Abs(st, id), depth, width)
    decreases st.next - id, 2
  {
    hide PrintElements, PrintMembers, AbsAll, AbsMembers, Wf, IndentIf;
    var s := st.nodes[id];
    var ids := Children(s);
    ChildrenAbove(st, id);
    ghost var start := out.text;
    match s.kind {
      case ListKind =>
        out.Put("( ");
        WriteElements(st, ids, id, depth + 1, width, out);
        out.Put(")");
        assert out.text == start + ("( " + PrintElements(AbsAll(st, ids, id), depth + 1, width) + ")");
      case ArrayKind =>
        out.Put("[ ");
        WriteElements(st, ids, id, depth + 1, width, out);
        out.Put("]");
        assert out.text == start + ("[ " + PrintElements(AbsAll(st, ids, id), depth + 1, width) + "]");
      case GroupKind =>
        WriteGroup(st, id, depth, width, out);
      case _ =>
        WriteScalar(out, s);
        ScalarAlike(s, depth, width);
    }
  }

  method WriteGroup(st: Store, id: Id, depth: nat, width: nat, out: Stream)
    requires Wf(st) && id in st.nodes && st.nodes[id].kind.GroupKind?
    modifies out
    ensures out.text == old(out.text) + PrintValue(Abs(st, id), depth, width)
    decreases st.next - id, 1
  {
    hide PrintMembers, AbsMembers, Wf, Indent;
    var ids := Children(st.nodes[id]);
    ChildrenAbove(st, id);
    ghost var start := out.text;
    if depth > 0 {
      out.Put("\n");
      if depth > 1 {
        WriteIndent(out, depth, width);
      }
      out.Put("{\n");
    }
    ghost var opening := if depth > 0 then "\n" + IndentIf(depth, width) + "{\n" else "";
    assert out.text == start + opening;
    WriteMembers(st, ids, id, depth + 1, width, out);
    ghost var body := PrintMembers(AbsMembers(st, ids, id), depth + 1, width);
    assert out.text == start + (opening + body);
    if depth > 1 {
      WriteIndent(out, depth, width);
    }
    assert out.text == start + (opening + body + IndentIf(depth, width));
    if depth > 0 {
      out.Put("}");
    }
    assert out.text == start + (opening + body + IndentIf(depth, width) + (if depth > 0 then "}" else ""));
  }

  /** The loop over the elements of a list or array. */
  method WriteElements(st: Store, ids: seq<Id>, lo: Id, depth: nat, width: nat, out: Stream)
    requires Wf(st) && lo in st.nodes && Above(st, ids, lo)
    modifies out
    ensures out.text == old(out.text) + PrintElements(AbsAll(st, ids, lo), depth, width)
    decreases st.next - lo, 0
  {
    hide PrintValue, Abs;
    var i, len := 0, |ids|;
    assert ids[0..] == ids;
    while len > 0
      invariant 0 <= i <= |ids| && len == |ids| - i && Above(st, ids[i..], lo)
      invariant old(out.text) + PrintElements(AbsAll(st, ids, lo), depth, width)
             == out.text + PrintElements(AbsAll(st, ids[i..], lo), depth, width)
      decreases len
    {
      ghost var before := out.text;
      ElementInRange(st, ids[i..], lo);
      ghost var all := AbsAll(st, ids[i..], lo);
      ghost var value := PrintValue(Abs(st, ids[i]), depth, width);
      assert ids[i..][1..] == ids[i + 1..];
      AbsLength(st, ids[i..], lo);
      assert all == [Abs(st, ids[i])] + AbsAll(st, ids[i + 1..], lo);
      assert all[1..] == AbsAll(st, ids[i + 1..], lo);
      WriteValue(st, ids[i], depth, width, out);
      len := len - 1;
      if len > 0 {
        out.Put(",");
      }
      out.Put(" ");
      assert out.text == before + (value + (if |all| > 1 then ", " else " "));
      i := i + 1;
    }
  }

  lemma ElementInRange(st: Store, ids: seq<Id>, lo: Id)
    requires Wf(st) && Above(st, ids, lo) && ids != []
    ensures ids[0] in st.nodes && lo < ids[0] < st.next && Above(st, ids[1..], lo)
  {
  }

  lemma {:induction false} AbsLength(st: Store, ids: seq<Id>, lo: Id)
    requires Wf(st) && Above(st, ids, lo)
    ensures |AbsAll(st, ids, lo)| == |ids|
    decreases |ids|
  {
    if ids != [] {
      ElementInRange(st, ids, lo);
      AbsLength(st, ids[1..], lo);
    }
  }

  /** The loop over the members of a group. */
  method WriteMembers(st: Store, ids: seq<Id>, lo: Id, depth: nat, width: nat, out: Stream)
    requires Wf(st) && lo in st.nodes && Above(st, ids, lo)
    modifies out
    ensures out.text == old(out.text) + PrintMembers(AbsMembers(st, ids, lo), depth, width)
    decreases st.next - lo, 0
  {
    hide PrintMember, Abs;
    var i := 0;
    assert ids[0..] == ids;
    while i < |ids|
      invariant 0 <= i <= |ids| && Above(st, ids[i..], lo)
      invariant old(out.text) + PrintMembers(AbsMembers(st, ids, lo), depth, width)
             == out.text + PrintMembers(AbsMembers(st, ids[i..], lo), depth, width)
    {
      ghost var before := out.text;
      ElementInRange(st, ids[i..], lo);
      ghost var m := AMember(st.nodes[ids[i]].name, Abs(st, ids[i]));
      assert ids[i..][1..] == ids[i + 1..];
      assert AbsMembers(st, ids[i..], lo) == [m] + AbsMembers(st, ids[i + 1..], lo);
      WriteSetting(st, ids[i], depth, width, out);
      i := i + 1;
    }
  }

  /** __config_write_setting */
  method WriteSetting(st: Store, id: Id, depth: nat, width: nat, out: Stream)
    requires Wf(st) && id in st.nodes
    modifies out
    ensures out.text == old(out.text) + PrintMember(AMember(st.nodes[id].name, Abs(st, id)), depth, width)
    decreases st.next - id, 3
  {
    hide PrintValue, Wf, Indent, Abs;
    var s := st.nodes[id];
    ghost var start := out.text;
    if depth > 1 {
      WriteIndent(out, depth, width);
    }
    if s.name.Some? {
      out.Put(s.name.value);
      out.Put(if s.kind.GroupKind? then " : " else " = ");
    }
    GroupAlike(st, id);
    ghost var head := IndentIf(depth, width)
      + (if s.name.Some? then s.name.value + (if s.kind.GroupKind? then " : " else " = ") else "");
    assert out.text == start + head;
    WriteValue(st, id, depth, width, out);
    if depth > 0 {
      out.Put(";");
      out.Put("\n");
    }
    assert out.text == start + (head + PrintValue(Abs(st, id), depth, width) + (if depth > 0 then ";\n" else ""));
  }

  lemma GroupAlike(st: Store, id: Id)
    requires Wf(st) && id in st.nodes
    ensures Abs(st, id).AGroup? <==> st.nodes[id].kind.GroupKind?
  {
  }

  /** config_write: the text of the tree from its root. */
  method Write(st: Store, width: nat, out: Stream)
    requires Tree(st)
    modifies out
    ensures out.text == old(out.text) + Print(Abs(st, 0), width)
  {
    WriteSetting(st, 0, 0, width, out);
  }

  // ---------------------------------------------------------------------
  // Writing a tree and reading it back.
  // ---------------------------------------------------------------------

  /** What a setting must hold to be printed without loss. */
  predicate Plain(s: Setting)
  {
    && (!Aggregate(s.kind) ==> PrintableScalar(Scalars(s)))
    && (s.name.Some? ==> !IsKeyword(s.name.value))
  }

  ghost predicate PlainTree(st: Store)
  {
    forall id :: id in st.nodes ==> Plain(st.nodes[id])
  }

  lemma ScalarKindOf(s: Setting)
    requires IsScalar(s.kind) && PrintableScalar(Scalars(s))
    ensures ScalarKind(Scalars(s)) == s.kind
  {
  }

  lemma {:induction false} AbsAllAt(st: Store, ids: seq<Id>, lo: Id, i: nat)
    requires Wf(st) && Above(st, ids, lo) && i < |ids|
    ensures |AbsAll(st, ids, lo)| == |ids| && AbsAll(st, ids, lo)[i] == Abs(st, ids[i])
    decreases |ids|
  {
    hide Abs, Wf;
    ElementInRange(st, ids, lo);
    AbsLength(st, ids, lo);
    if i > 0 {
      AbsAllAt(st, ids[1..], lo, i - 1);
    }
  }

  /** What a tree with named members and homogeneous arrays abstracts to is printable. */
  lemma {:induction false} AbsPrintable(st: Store, id: Id)
    requires Tree(st) && Strict(st) && PlainTree(st) && id in st.nodes
    ensures Printable(Abs(st, id))
    decreases st.next - id, 2
  {
    hide AbsAll, AbsMembers, PrintableAll, PrintableMembers, Linked, NodeOk, PrintableScalar, StrictNode;
    ChildrenAbove(st, id);
    var s := st.nodes[id];
    var ids := Children(s);
    match s.kind {
      case ArrayKind => ArrayPrintable(st, id);
      case ListKind => AbsAllPrintable(st, ids, id);
      case GroupKind =>
        MemberNames(st, id);
        AbsMembersPrintable(st, ids, id, []);
      case _ => ScalarPrintable(s);
    }
  }

  lemma ScalarPrintable(s: Setting)
    requires PrintableScalar(Scalars(s))
    ensures Printable(Scalars(s))
  {
  }

  lemma ArrayPrintable(st: Store, id: Id)
    requires Tree(st) && Strict(st) && PlainTree(st) && id in st.nodes && st.nodes[id].kind.ArrayKind?
    requires Above(st, Children(st.nodes[id]), id)
    ensures Printable(AArray(AbsAll(st, Children(st.nodes[id]), id)))
  {
    hide AbsAll, Linked, NodeOk, PrintableScalar, Scalars;
    var ids := Children(st.nodes[id]);
    var es := AbsAll(st, ids, id);
    assert StrictNode(st, id);
    AbsLength(st, ids, id);
    forall i | 0 <= i < |es|
      ensures PrintableScalar(es[i]) && ScalarKind(es[i]) == ScalarKind(es[0])
    {
      ArrayElement(st, ids, id, i);
      ArrayElement(st, ids, id, 0);
    }
  }

  lemma ArrayElement(st: Store, ids: seq<Id>, lo: Id, i: nat)
    requires Wf(st) && PlainTree(st) && Above(st, ids, lo) && i < |ids| && OneKind(KindsOf(st, ids))
    ensures |AbsAll(st, ids, lo)| == |ids|
    ensures PrintableScalar(AbsAll(st, ids, lo)[i]) && ScalarKind(AbsAll(st, ids, lo)[i]) == st.nodes[ids[0]].kind
  {
    hide AbsAll, PrintableScalar, Scalars, ScalarKind;
    AbsAllAt(st, ids, lo, i);
    var s := st.nodes[ids[i]];
    assert KindsOf(st, ids)[i] == s.kind;
    assert Plain(s);
    ScalarKindOf(s);
  }

  lemma {:induction false} AbsAllPrintable(st: Store, ids: seq<Id>, lo: Id)
    requires Tree(st) && Strict(st) && PlainTree(st) && Above(st, ids, lo) && lo < st.next
    ensures PrintableAll(AbsAll(st, ids, lo))
    decreases st.next - lo, 1, |ids|
  {
    hide Abs, Printable, Linked, NodeOk, StrictNode, Plain;
    if ids != [] {
      ElementInRange(st, ids, lo);
      AbsPrintable(st, ids[0]);
      AbsAllPrintable(st, ids[1..], lo);
      var es := AbsAll(st, ids, lo);
      assert es[0] == Abs(st, ids[0]) && es[1..] == AbsAll(st, ids[1..], lo);
    }
  }

  /** Names that may follow those seen before. */
  predicate FreshNames(names: seq<Option<string>>, seen: seq<string>)
  {
    && (forall i :: 0 <= i < |names| ==> names[i].Some? && ValidName(names[i].value) && names[i].value !in seen)
    && (forall i, j :: 0 <= i < j < |names| ==> names[i] != names[j])
  }

  lemma MemberNames(st: Store, id: Id)
    requires Tree(st) && Strict(st) && id in st.nodes && st.nodes[id].kind.GroupKind?
    ensures FreshNames(NamesOf(st, Children(st.nodes[id])), [])
  {
  }

  lemma FreshNamesNext(names: seq<Option<string>>, seen: seq<string>)
    requires FreshNames(names, seen) && names != []
    ensures FreshNames(names[1..], seen + [names[0].value])
  {
  }

  lemma {:induction false} AbsMembersPrintable(st: Store, ids: seq<Id>, lo: Id, seen: seq<string>)
    requires Tree(st) && Strict(st) && PlainTree(st) && Above(st, ids, lo) && lo < st.next
    requires FreshNames(NamesOf(st, ids), seen)
    ensures PrintableMembers(AbsMembers(st, ids, lo), seen)
    decreases st.next - lo, 1, |ids|
  {
    hide Abs, Printable, Linked, NodeOk, StrictNode, IsKeyword;
    if ids != [] {
      ElementInRange(st, ids, lo);
      AbsPrintable(st, ids[0]);
      var names := NamesOf(st, ids);
      FreshNamesNext(names, seen);
      assert names[1..] == NamesOf(st, ids[1..]);
      AbsMembersPrintable(st, ids[1..], lo, seen + [names[0].value]);
      var ms := AbsMembers(st, ids, lo);
      assert Plain(st.nodes[ids[0]]);
      assert ms[0] == AMember(names[0], Abs(st, ids[0])) && ms[1..] == AbsMembers(st, ids[1..], lo);
    }
  }

  /** Writing a tree to a file and reading the file builds a tree of the same shape and values. */
  lemma StoreRoundTrip(st: Store, width: nat)
    requires Tree(st) && Strict(st) && PlainTree(st)
    ensures
      var r := Parse(Scan(Print(Abs(st, 0), width), true, Initial));
      && r.Accepted? && r.ctx.parent == Some(0)
      && Wf(r.ctx.store) && 0 in r.ctx.store.nodes
      && Abs(r.ctx.store, 0) == Abs(st, 0)
  {
    hide Scan, Print, Parse, Wf;
    AbsPrintable(st, 0);
    GroupAlike(st, 0);
    RoundTrip(Abs(st, 0), width);
  }

  /** Read a configuration, edit it with care, write it and read it again: the same tree. */
  lemma EditedRoundTrip(input: seq<Token>, es: seq<Edits.Edit>, width: nat)
    requires Parse(input).Accepted? && Edits.CarefulAll(Parse(input).ctx.store, es)
    requires PlainTree(Edits.PerformAll(Parse(input).ctx.store, es))
    ensures
      var st := Edits.PerformAll(Parse(input).ctx.store, es);
      Tree(st) &&
      var r := Parse(Scan(Print(Abs(st, 0), width), true, Initial));
      && r.Accepted? && Wf(r.ctx.store) && 0 in r.ctx.store.nodes
      && Abs(r.ctx.store, 0) == Abs(st, 0)
  {
    hide Scan, Print, Parse, Tree, Strict, PlainTree, Abs, Edits.PerformAll, Edits.CarefulAll;
    Parsed.ParsedIsTree(input);
    Edits.EditsKeepStrict(Parse(input).ctx.store, es);
    StoreRoundTrip(Edits.PerformAll(Parse(input).ctx.store, es), width);
  }
}
