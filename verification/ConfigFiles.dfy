/**
 Writing a configuration and reading it back with the programs themselves: the
 printer's stream, the scanner's loop and the parser with its stack limit.
 */
module ConfigFiles {
  import opened Options
  import opened ConfigStore
  import opened ConfigActions
  import opened ConfigParser
  import opened ConfigSyntax
  import opened ConfigMeaning
  import opened ConfigRefine
  import opened ConfigTree
  import opened ConfigScanner
  import opened ConfigPrinter
  import opened ConfigRoundTrip
  import opened ConfigWriter
  import opened ConfigYylex
  import opened ConfigYyparse
  import opened ConfigDepth

  // ---------------------------------------------------------------------
  // The stack that reading a printed tree back needs.
  // ---------------------------------------------------------------------

  function TreeDepth(a: Ast): nat
    decreases a, 1
  {
    match a
    case AArray(es) => if |es| <= 1 then 4 else 5
    case AList(es) => Max(4, 2 + (if es == [] then 1 else Max(TreeDepth(es[0]), MoreDepth(es[1..]))))
    case AGroup(ms) => Max(4, 2 + GroupDepth(ms))
    case _ => 1
  }

  function MoreDepth(es: seq<Ast>): nat
    decreases es, 0
  {
    if es == [] then 1 else Max(2 + TreeDepth(es[0]), MoreDepth(es[1..]))
  }

  function NamedDepth(m: AMember): nat
    decreases m, 0
  {
    Max(5, 3 + TreeDepth(m.value))
  }

  function FurtherDepth(ms: seq<AMember>): nat
    decreases ms, 0
  {
    if ms == [] then 1 else Max(1 + NamedDepth(ms[0]), FurtherDepth(ms[1..]))
  }

  function GroupDepth(ms: seq<AMember>): nat
    decreases ms, 0
  {
    if ms == [] then 1 else Max(NamedDepth(ms[0]), FurtherDepth(ms[1..]))
  }

  /** The size of the parser's stack for a printed tree with the given members at its root. */
  function TreeSize(ms: seq<AMember>): nat
  {
    Max(3, 1 + GroupDepth(ms))
  }

  lemma {:induction false} WrittenDepth(a: Ast)
    requires Printable(a)
    ensures ValueDepth(WrittenValue(a)) == TreeDepth(a)
    decreases a, 1
  {
    match a
    case AArray(es) => WrittenArrayDepth(es);
    case AList(es) =>
      if es != [] {
        WrittenDepth(es[0]);
        WrittenMoreDepth(es[1..]);
        assert WrittenAll(es)[1..] == WrittenAll(es[1..]);
      }
    case AGroup(ms) => WrittenGroupDepth(ms, []);
    case _ =>
  }

  lemma OnePart(a: Ast)
    requires PrintableScalar(a)
    ensures SimpleDepth(Written(a)) == 1
  {
  }

  lemma {:induction false} WrittenScalarsDepth(es: seq<Ast>)
    requires forall i :: 0 <= i < |es| ==> PrintableScalar(es[i])
    ensures MoreSimplesDepth(WrittenScalars(es)) == if es == [] then 1 else 3
    decreases |es|
  {
    hide PrintableScalar, SimpleDepth, Written;
    if es != [] {
      OnePart(es[0]);
      WrittenScalarsDepth(es[1..]);
      assert WrittenScalars(es)[1..] == WrittenScalars(es[1..]);
    }
  }

  lemma WrittenArrayDepth(es: seq<Ast>)
    requires forall i :: 0 <= i < |es| ==> PrintableScalar(es[i])
    ensures Max(4, 2 + SimplesDepth(WrittenScalars(es))) == if |es| <= 1 then 4 else 5
  {
    hide PrintableScalar, SimpleDepth, Written, MoreSimplesDepth, WrittenScalars;
    if es != [] {
      var ws := WrittenScalars(es);
      ScalarsHead(es);
      OnePart(es[0]);
      WrittenScalarsDepth(es[1..]);
      assert ws[0] == Written(es[0]) && ws[1..] == WrittenScalars(es[1..]);
    }
  }

  lemma ScalarsHead(es: seq<Ast>)
    requires es != [] && forall i :: 0 <= i < |es| ==> PrintableScalar(es[i])
    ensures WrittenScalars(es) == [Written(es[0])] + WrittenScalars(es[1..])
  {
  }

  lemma {:induction false} WrittenMoreDepth(es: seq<Ast>)
    requires PrintableAll(es)
    ensures MoreValuesDepth(WrittenAll(es)) == MoreDepth(es)
    decreases es, 0
  {
    if es != [] {
      WrittenDepth(es[0]);
      WrittenMoreDepth(es[1..]);
      assert WrittenAll(es)[1..] == WrittenAll(es[1..]);
    }
  }

  lemma {:induction false} WrittenNamedDepth(m: AMember)
    requires PrintableMember(m)
    ensures MemberDepth(WrittenMember(m)) == NamedDepth(m)
    decreases m, 0
  {
    WrittenDepth(m.value);
  }

  lemma {:induction false} WrittenFurtherDepth(ms: seq<AMember>, seen: seq<string>)
    requires PrintableMembers(ms, seen)
    ensures MoreMembersDepth(WrittenMembers(ms, seen)) == FurtherDepth(ms)
    decreases ms, 0
  {
    if ms != [] {
      WrittenNamedDepth(ms[0]);
      var seen' := seen + [ms[0].name.value];
      WrittenFurtherDepth(ms[1..], seen');
      assert WrittenMembers(ms, seen)[1..] == WrittenMembers(ms[1..], seen');
    }
  }

  lemma {:induction false} WrittenGroupDepth(ms: seq<AMember>, seen: seq<string>)
    requires PrintableMembers(ms, seen)
    ensures MembersDepth(WrittenMembers(ms, seen)) == GroupDepth(ms)
    decreases ms, 1
  {
    if ms != [] {
      WrittenNamedDepth(ms[0]);
      var seen' := seen + [ms[0].name.value];
      WrittenFurtherDepth(ms[1..], seen');
      assert WrittenMembers(ms, seen)[1..] == WrittenMembers(ms[1..], seen');
    }
  }

  /** Parsing a printed tree takes exactly that much stack. */
  lemma PrintedFits(root: Ast, width: nat)
    requires root.AGroup? && Printable(root)
    ensures States(BOTTOM) == [0]
    ensures Deepest(BOTTOM, Scan(Print(root, width), true, Initial), ConfigActions.INITIAL) == TreeSize(root.members)
  {
    hide Deepest, Scan, Print, MembersTokens, WrittenMembers, GroupDepth, MembersDepth, PrintableMembers, ExecMembers;
    var ms := root.members;
    PrintedTokens(ms, width);
    WrittenGroupDepth(ms, []);
    MembersBack(ms, []);
    ActionsRefineMeaning(WrittenMembers(ms, []));
    DeepestExactly(WrittenMembers(ms, []));
  }

  // ---------------------------------------------------------------------
  // The tree that is too deep.
  // ---------------------------------------------------------------------

  const LEAF := AInt(0, FORMAT_DEFAULT)

  /** Groups nested n levels deep, each after a sibling. */
  function Deep(n: nat): seq<AMember>
  {
    [AMember(Some("a"), LEAF), AMember(Some("b"), if n == 0 then LEAF else AGroup(Deep(n - 1)))]
  }

  lemma DeepTail(n: nat)
    ensures Deep(n)[1..] == [Deep(n)[1]] && Deep(n)[1..][1..] == []
  {
  }

  lemma {:induction false} DeepDepth(n: nat)
    ensures GroupDepth(Deep(n)) == 6 * n + 6
    decreases n
  {
    var ms := Deep(n);
    var tail, value := ms[1..], ms[1].value;
    DeepTail(n);
    assert TreeDepth(LEAF) == 1 && NamedDepth(ms[0]) == 5;
    if n > 0 {
      DeepDepth(n - 1);
      assert TreeDepth(value) == 6 * n + 2;
    }
    assert FurtherDepth(tail) == Max(1 + NamedDepth(ms[1]), FurtherDepth(tail[1..]));
  }

  lemma {:induction false} DeepPrintable(n: nat)
    ensures PrintableMembers(Deep(n), [])
    decreases n
  {
    var ms := Deep(n);
    var tail := ms[1..];
    DeepTail(n);
    assert [] + ["a"] == ["a"];
    assert PrintableMember(ms[0]);
    if n > 0 {
      DeepPrintable(n - 1);
      assert Printable(AGroup(Deep(n - 1)));
    }
    assert PrintableMember(ms[1]);
    assert PrintableMembers(tail[1..], ["a"] + ["b"]);
    assert PrintableMembers(tail, ["a"]);
  }

  /** One level more than the greatest that always fits can be too much. */
  lemma NestingIsTight()
    ensures
      var ms := Deep(MAX_NESTING + 1);
      Printable(AGroup(ms)) && NestingMembers(WrittenMembers(ms, [])) == MAX_NESTING + 1 && TreeSize(ms) >= YYMAXDEPTH
  {
    hide GroupDepth, Deep, PrintableMembers, NestingMembers;
    DeepPrintable(MAX_NESTING + 1);
    DeepDepth(MAX_NESTING + 1);
    DeepNesting(MAX_NESTING + 1);
  }

  lemma {:induction false} DeepNesting(n: nat)
    requires PrintableMembers(Deep(n), [])
    ensures NestingMembers(WrittenMembers(Deep(n), [])) == n
    decreases n
  {
    var ms := Deep(n);
    var ws := WrittenMembers(ms, []);
    DeepTail(n);
    var seen := [] + ["a"];
    var tail := WrittenMembers(ms[1..], seen);
    assert tail == [WrittenMember(ms[1..][0])] + WrittenMembers(ms[1..][1..], seen + ["b"]);
    assert WrittenMembers(ms[1..][1..], seen + ["b"]) == [];
    assert ws[1..] == tail && tail[1..] == [];
    assert tail[0] == WrittenMember(ms[1]);
    assert ws[0] == WrittenMember(ms[0]) && WrittenValue(LEAF).Plain?;
    if n > 0 {
      DeepPrintable(n - 1);
      DeepNesting(n - 1);
      assert WrittenValue(ms[1].value) == Group(WrittenMembers(Deep(n - 1), []));
    }
    assert NestingMembers(tail) == Max(Nesting(tail[0].value), NestingMembers(tail[1..]));
  }

  // ---------------------------------------------------------------------
  // Writing and reading.
  // ---------------------------------------------------------------------

  /**
   config_write followed by config_read: the parser runs out of stack exactly when the tree
   needs more of it than there is; otherwise it accepts, and the tree that it builds has the
   same names, order, types, values and formats.
   */
  method WriteThenRead(st: Store, width: nat) returns (code: int, ctx: Ctx)
    requires Tree(st) && Strict(st) && PlainTree(st)
    ensures Abs(st, 0).AGroup?
    ensures code == if TreeSize(Abs(st, 0).members) < YYMAXDEPTH then 0 else 2
    ensures code == 0 ==>
      && ctx.parent == Some(0) && Wf(ctx.store) && 0 in ctx.store.nodes
      && Abs(ctx.store, 0) == Abs(st, 0)
  {
    hide Tree, Strict, PlainTree, Abs, Scan, Print, Parse, Deepest, GroupDepth;
    RootIn(st);
    GroupAlike(st, 0);
    var out := new Stream();
    Write(st, width, out);
    var text := out.text;
    ghost var root := Abs(st, 0);
    assert text == Print(root, width);
    var tokens := Tokens(text);
    AbsPrintable(st, 0);
    PrintedFits(root, width);
    StoreRoundTrip(st, width);
    code, ctx := YyParse(tokens);
  }

  lemma RootIn(st: Store)
    requires Tree(st)
    ensures Wf(st) && 0 in st.nodes && st.nodes[0].kind.GroupKind?
  {
  }
}
