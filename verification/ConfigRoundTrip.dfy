/**
 The round trip: for every printable tree, scanning and parsing what the printer
 writes builds the same tree again.
 */
module ConfigRoundTrip {
  import opened Options
  import opened ConfigStore
  import opened ConfigActions
  import opened ConfigParser
  import opened ConfigSyntax
  import opened ConfigComplete
  import opened ConfigMeaning
  import opened ConfigRefine
  import opened ConfigScanner
  import opened ConfigPrinter
  import opened ConfigLexing

  // ---------------------------------------------------------------------
  // Printable trees.
  // ---------------------------------------------------------------------

  predicate Format(f: int) { f == FORMAT_DEFAULT || f == FORMAT_HEX }

  /** Scalars: no floats, no settings without a type, no null strings. */
  predicate PrintableScalar(a: Ast)
  {
    match a
    case ABool(i) => i == 0 || i == 1
    case AInt(i, f) => -TWO31 <= i < TWO31 && Format(f)
    case AInt64(l, f) => -TWO63 <= l < TWO63 && Format(f)
    case AString(s) => s.Some? && forall i :: 0 <= i < |s.value| ==> 0 < s.value[i] as int < 256
    case _ => false
  }

  function ScalarKind(a: Ast): Kind
  {
    match a
    case ABool(_) => BoolKind
    case AInt(_, _) => IntKind
    case AInt64(_, _) => Int64Kind
    case AString(_) => StringKind
    case _ => NoneKind
  }

  predicate Printable(a: Ast)
    decreases a, 1
  {
    match a
    case AArray(es) =>
      forall i :: 0 <= i < |es| ==> PrintableScalar(es[i]) && ScalarKind(es[i]) == ScalarKind(es[0])
    case AList(es) => PrintableAll(es)
    case AGroup(ms) => PrintableMembers(ms, [])
    case _ => PrintableScalar(a)
  }

  predicate PrintableAll(es: seq<Ast>)
    decreases es, 0
  {
    es == [] || (Printable(es[0]) && PrintableAll(es[1..]))
  }

  /** Members have valid names, all different, none of which reads as a boolean. */
  predicate PrintableMembers(ms: seq<AMember>, seen: seq<string>)
    decreases ms, 0
  {
    ms == [] ||
    (PrintableMember(ms[0]) && ms[0].name.value !in seen
     && PrintableMembers(ms[1..], seen + [ms[0].name.value]))
  }

  predicate PrintableMember(m: AMember)
    decreases m, 0
  {
    m.name.Some? && ValidName(m.name.value) && !IsKeyword(m.name.value) && Printable(m.value)
  }

  // ---------------------------------------------------------------------
  // The concrete syntax that the printer writes.
  // ---------------------------------------------------------------------

  function Written(a: Ast): Simple
    requires PrintableScalar(a)
  {
    match a
    case ABool(i) => SBool(i)
    case AInt(i, f) => if f == FORMAT_HEX then SHex(i) else SInt(i)
    case AInt64(l, f) => if f == FORMAT_HEX then SHex64(l) else SInt64(l)
    case AString(s) => SString(s.value, [])
  }

  function WrittenScalars(es: seq<Ast>): (r: seq<Simple>)
    requires forall i :: 0 <= i < |es| ==> PrintableScalar(es[i])
    ensures |r| == |es| && forall i :: 0 <= i < |es| ==> r[i] == Written(es[i])
  {
    if es == [] then [] else [Written(es[0])] + WrittenScalars(es[1..])
  }

  function WrittenValue(a: Ast): Value
    requires Printable(a)
    decreases a, 1
  {
    match a
    case AArray(es) => Array(WrittenScalars(es))
    case AList(es) => List(WrittenAll(es))
    case AGroup(ms) => Group(WrittenMembers(ms, []))
    case ABool(_) => Plain(Written(a))
    case AInt(_, _) => Plain(Written(a))
    case AInt64(_, _) => Plain(Written(a))
    case AString(_) => Plain(Written(a))
  }

  function WrittenAll(es: seq<Ast>): seq<Value>
    requires PrintableAll(es)
    decreases es, 0
  {
    if es == [] then [] else [WrittenValue(es[0])] + WrittenAll(es[1..])
  }

  function WrittenMembers(ms: seq<AMember>, ghost seen: seq<string>): seq<Member>
    requires PrintableMembers(ms, seen)
    decreases ms, 0
  {
    if ms == [] then []
    else [WrittenMember(ms[0])] + WrittenMembers(ms[1..], seen + [ms[0].name.value])
  }

  function WrittenMember(m: AMember): Member
    requires PrintableMember(m)
    decreases m, 0
  {
    Member(m.name.value, WrittenValue(m.value), SemicolonEnd)
  }

  // ---------------------------------------------------------------------
  // It means the tree, and the actions take it.
  // ---------------------------------------------------------------------

  lemma ScalarBack(a: Ast)
    requires PrintableScalar(a)
    ensures SimpleMeaning(Written(a)) == a && SimpleKind(Written(a)) == ScalarKind(a)
  {
    if a.AString? {
      var s := a.sval.value;
      assert [s] + [] == [s] && [s][1..] == [];
      assert Joined([s]) == s + Joined([]);
      assert s + "" == s;
    }
  }

  lemma {:induction false} ScalarsBack(es: seq<Ast>)
    requires forall i :: 0 <= i < |es| ==> PrintableScalar(es[i])
    ensures SimpleMeanings(WrittenScalars(es)) == es
    decreases |es|
  {
    if es != [] {
      ScalarBack(es[0]);
      var r := WrittenScalars(es);
      assert r[1..] == WrittenScalars(es[1..]);
      ScalarsBack(es[1..]);
    }
  }

  lemma {:induction false} ValueBack(a: Ast)
    requires Printable(a)
    ensures Meaning(WrittenValue(a)) == a && GoodValue(WrittenValue(a))
    decreases a, 1
  {
    match a
    case AArray(es) =>
      ScalarsBack(es);
      forall i | 0 <= i < |es|
        ensures SimpleKind(WrittenScalars(es)[i]) == SimpleKind(WrittenScalars(es)[0])
      {
        ScalarBack(es[i]);
        ScalarBack(es[0]);
      }
    case AList(es) => AllBack(es);
    case AGroup(ms) => MembersBack(ms, []);
    case _ => ScalarBack(a);
  }

  lemma {:induction false} AllBack(es: seq<Ast>)
    requires PrintableAll(es)
    ensures Meanings(WrittenAll(es)) == es && GoodValues(WrittenAll(es))
    decreases es, 0
  {
    if es != [] {
      ValueBack(es[0]);
      AllBack(es[1..]);
      assert WrittenAll(es)[1..] == WrittenAll(es[1..]);
    }
  }

  lemma {:induction false} MembersBack(ms: seq<AMember>, seen: seq<string>)
    requires PrintableMembers(ms, seen)
    ensures MemberMeanings(WrittenMembers(ms, seen)) == ms && GoodMembers(WrittenMembers(ms, seen), seen)
    decreases ms, 0
  {
    if ms != [] {
      MemberBack(ms[0]);
      var seen' := seen + [ms[0].name.value];
      MembersBack(ms[1..], seen');
      assert WrittenMembers(ms, seen)[1..] == WrittenMembers(ms[1..], seen');
    }
  }

  lemma {:induction false} MemberBack(m: AMember)
    requires PrintableMember(m)
    ensures AMember(Some(WrittenMember(m).name), Meaning(WrittenMember(m).value)) == m
    ensures GoodValue(WrittenMember(m).value)
    decreases m, 0
  {
    ValueBack(m.value);
  }

  // ---------------------------------------------------------------------
  // The text scans to its tokens.
  // ---------------------------------------------------------------------

  lemma CalmStart(s: string)
    requires s != "" && !IsSpace(s[0]) && s[0] != '@'
    ensures Calm(s)
  {
  }

  lemma NumberStart(i: int, rest: string)
    ensures Calm(DecimalText(i) + rest)
  {
  }

  lemma ScanScalar(a: Ast, depth: nat, width: nat, rest: string, bol: bool)
    requires PrintableScalar(a) && Delimited(rest) && Calm(rest)
    ensures Calm(PrintValue(a, depth, width) + rest)
    ensures Scan(PrintValue(a, depth, width) + rest, bol, Initial) == SimpleTokens(Written(a)) + Rest(rest)
  {
    hide Scan, DecimalText, EscapeText, Number;
    var text := PrintValue(a, depth, width) + rest;
    match a
    case ABool(i) =>
      assert text[0] == PrintValue(a, depth, width)[0];
      Boolean(i != 0, rest, bol);
    case AInt(i, f) =>
      if f == FORMAT_HEX {
        assert text[0] == '0';
        Hex(i, rest, bol);
      } else {
        NumberStart(i, rest);
        Integer(i, rest, bol);
      }
    case AInt64(l, f) =>
      if f == FORMAT_HEX {
        assert text[0] == '0';
        Hex64(l, rest, bol);
      } else {
        assert text == DecimalText(l) + ("L" + rest);
        NumberStart(l, "L" + rest);
        Integer64(l, rest, bol);
      }
    case AString(s) =>
      assert text[0] == '\"';
      assert PrintValue(a, depth, width) == "\"" + EscapeText(s.value) + "\"";
      StringLiteral(s.value, rest, bol);
      assert [TString(s.value)] + PartTokens([]) == [TString(s.value)];
  }

  /** A comma between elements. */
  lemma CommaBlank(rest: string, bol: bool)
    requires rest != "" && !IsSpace(rest[0]) && rest[0] != '@'
    ensures Delimited(", " + rest) && Calm(", " + rest)
    ensures Scan(", " + rest, bol, Initial) == [TComma] + Rest(rest)
  {
    hide Scan;
    assert ", " + rest == "," + (" " + rest);
    Blanks(" ", rest, false);
    CalmStart(", " + rest);
    Punct(',', " " + rest, bol);
  }

  lemma OneBlank(rest: string, bol: bool)
    requires rest != "" && !IsSpace(rest[0]) && rest[0] != '@'
    ensures Delimited(" " + rest) && Calm(" " + rest)
    ensures Scan(" " + rest, bol, Initial) == Rest(rest)
  {
    hide Scan;
    Blanks(" ", rest, bol);
  }

  /** What a printed value can start with. */
  lemma ValueStart(a: Ast, depth: nat, width: nat)
    requires Printable(a) && depth > 0
    ensures
      var t := PrintValue(a, depth, width);
      t != "" && !IsSpace(t[0]) && t[0] != '@'
  {
  }

  lemma ElementsStart(es: seq<Ast>, depth: nat, width: nat, c: char, rest: string)
    requires PrintableAll(es) && depth > 0 && (c == ')' || c == ']')
    ensures
      var t := PrintElements(es, depth, width) + [c] + rest;
      t != "" && !IsSpace(t[0]) && t[0] != '@' && Calm(t)
  {
    hide PrintValue;
    var t := PrintElements(es, depth, width) + [c] + rest;
    if es == [] {
      assert t[0] == c;
    } else {
      ValueStart(es[0], depth, width);
      assert t[0] == PrintValue(es[0], depth, width)[0];
    }
    CalmStart(t);
  }

  function CloseToken(c: char): Token
  {
    if c == ')' then TListEnd else TArrayEnd
  }

  lemma {:induction false} ScanElements(es: seq<Ast>, depth: nat, width: nat, c: char, rest: string, bol: bool)
    requires PrintableAll(es) && depth > 0 && (c == ')' || c == ']') && Calm(rest)
    ensures Scan(PrintElements(es, depth, width) + [c] + rest, bol, Initial)
         == ValuesTokens(WrittenAll(es)) + [CloseToken(c)] + Rest(rest)
    decreases es, 0
  {
    hide Scan, Calm, PrintValue, ValueTokens, WrittenValue, Printable;
    if es == [] {
      assert PrintElements(es, depth, width) + [c] + rest == [c] + rest;
      Punct(c, rest, bol);
    } else {
      var e, tail := es[0], es[1..];
      var after := PrintElements(tail, depth, width) + [c] + rest;
      ElementsStart(tail, depth, width, c, rest);
      ScanElements(tail, depth, width, c, rest, false);
      var sep := if |es| > 1 then ", " else " ";
      assert PrintElements(es, depth, width) + [c] + rest == PrintValue(e, depth, width) + (sep + after);
      OneBlank(after, false);
      CommaBlank(after, false);
      ScanValue(e, depth, width, sep + after, bol);
      assert WrittenAll(es)[1..] == WrittenAll(tail);
      MoreIsComma(WrittenAll(tail));
      var end := [CloseToken(c)] + Rest(rest);
      if |es| > 1 {
        assert WrittenAll(tail) != [];
        Regroup(ValueTokens(WrittenValue(e)), [TComma], ValuesTokens(WrittenAll(tail)), [CloseToken(c)], Rest(rest));
      } else {
        assert tail == [] && ValuesTokens(WrittenAll(tail)) == [];
        Regroup(ValueTokens(WrittenValue(e)), [], [], [CloseToken(c)], Rest(rest));
      }
    }
  }

  lemma Regroup(a: seq<Token>, b: seq<Token>, c: seq<Token>, d: seq<Token>, e: seq<Token>)
    ensures a + (b + (c + d + e)) == a + (b + c) + d + e
  {
  }

  lemma MoreIsComma(vs: seq<Value>)
    ensures MoreValues(vs) == (if vs == [] then [] else [TComma] + ValuesTokens(vs))
  {
  }

  /** An array is written like a list of its scalars. */
  lemma {:induction false} ArrayTokens(es: seq<Ast>)
    requires forall i :: 0 <= i < |es| ==> PrintableScalar(es[i])
    ensures PrintableAll(es)
    ensures MoreSimples(WrittenScalars(es)) == MoreValues(WrittenAll(es))
    ensures SimplesTokens(WrittenScalars(es)) == ValuesTokens(WrittenAll(es))
    decreases |es|
  {
    if es != [] {
      ArrayTokens(es[1..]);
      assert WrittenScalars(es)[1..] == WrittenScalars(es[1..]);
      assert WrittenAll(es)[1..] == WrittenAll(es[1..]);
      assert WrittenValue(es[0]) == Plain(Written(es[0]));
    }
  }

  lemma IndentBlank(depth: nat, width: nat, rest: string, bol: bool)
    requires rest == "" || (!IsSpace(rest[0]) && rest[0] != '@')
    ensures Calm(IndentIf(depth, width) + rest)
    ensures Scan(IndentIf(depth, width) + rest, bol, Initial) == Rest(rest)
  {
    hide Scan, Calm;
    Blanks(IndentIf(depth, width), rest, bol);
  }

  lemma {:induction false} ScanValue(a: Ast, depth: nat, width: nat, rest: string, bol: bool)
    requires Printable(a) && depth > 0 && Delimited(rest) && Calm(rest)
    ensures Scan(PrintValue(a, depth, width) + rest, bol, Initial) == ValueTokens(WrittenValue(a)) + Rest(rest)
    decreases a, 1
  {
    hide Scan, Calm, PrintElements, PrintMembers, WrittenAll, WrittenMembers, WrittenScalars;
    match a
    case AList(es) =>
      assert "( " == ['('] + " ";
      ScanVector(es, depth, width, '(', ')', rest, bol);
    case AArray(es) =>
      ArrayTokens(es);
      assert "[ " == ['['] + " ";
      ScanVector(es, depth, width, '[', ']', rest, bol);
    case AGroup(ms) => ScanGroup(ms, depth, width, rest, bol);
    case ABool(_) => ScanScalar(a, depth, width, rest, bol);
    case AInt(_, _) => ScanScalar(a, depth, width, rest, bol);
    case AInt64(_, _) => ScanScalar(a, depth, width, rest, bol);
    case AString(_) => ScanScalar(a, depth, width, rest, bol);
  }

  /** A list or an array, with its brackets. */
  lemma {:induction false} ScanVector(
    es: seq<Ast>, depth: nat, width: nat, open: char, close: char, rest: string, bol: bool)
    requires PrintableAll(es) && depth > 0 && Calm(rest)
    requires (open == '(' && close == ')') || (open == '[' && close == ']')
    ensures
      Scan([open] + " " + PrintElements(es, depth + 1, width) + [close] + rest, bol, Initial)
      == [if open == '(' then TListStart else TArrayStart] + ValuesTokens(WrittenAll(es)) + [CloseToken(close)]
         + Rest(rest)
    decreases es, 1
  {
    hide Scan, Calm, PrintElements, WrittenAll, ValuesTokens, PrintableAll;
    var body := PrintElements(es, depth + 1, width) + [close] + rest;
    assert [open] + " " + PrintElements(es, depth + 1, width) + [close] + rest == [open] + (" " + body);
    ElementsStart(es, depth + 1, width, close, rest);
    OneBlank(body, false);
    Punct(open, " " + body, bol);
    ScanElements(es, depth + 1, width, close, rest, false);
  }

  lemma {:induction false} ScanGroup(ms: seq<AMember>, depth: nat, width: nat, rest: string, bol: bool)
    requires PrintableMembers(ms, []) && depth > 0 && Calm(rest)
    ensures Scan(PrintValue(AGroup(ms), depth, width) + rest, bol, Initial)
         == [TGroupStart] + MembersTokens(WrittenMembers(ms, [])) + [TGroupEnd] + Rest(rest)
    decreases ms, 1
  {
    hide Scan, Calm, PrintMembers, MembersTokens, WrittenMembers, IndentIf, PrintableMembers;
    var end := "}" + rest;
    var after := IndentIf(depth, width) + end;
    IndentBlank(depth, width, end, false);
    Punct('}', rest, false);
    var body := PrintMembers(ms, depth + 1, width) + after;
    ScanMembers(ms, [], depth + 1, width, after, false);
    assert PrintValue(AGroup(ms), depth, width) + rest
        == "\n" + (IndentIf(depth, width) + ("{" + ("\n" + body)));
    CalmStart("\n" + body);
    IndentBlank(depth, width, "{" + ("\n" + body), false);
    Newline(IndentIf(depth, width) + ("{" + ("\n" + body)), bol);
    Punct('{', "\n" + body, false);
    Newline(body, false);
  }

  lemma {:induction false} ScanMembers(
    ms: seq<AMember>, seen: seq<string>, depth: nat, width: nat, rest: string, bol: bool)
    requires PrintableMembers(ms, seen) && depth > 0 && Calm(rest)
    ensures Calm(PrintMembers(ms, depth, width) + rest)
    ensures Scan(PrintMembers(ms, depth, width) + rest, bol, Initial)
         == MembersTokens(WrittenMembers(ms, seen)) + Rest(rest)
    decreases ms, 0
  {
    hide Scan, Calm, PrintMember, MemberTokens, WrittenMember, Printable;
    if ms == [] {
      assert PrintMembers(ms, depth, width) + rest == rest;
      LineStart(rest, bol);
    } else {
      var seen' := seen + [ms[0].name.value];
      var after := PrintMembers(ms[1..], depth, width) + rest;
      ScanMembers(ms[1..], seen', depth, width, rest, false);
      assert PrintMembers(ms, depth, width) + rest == PrintMember(ms[0], depth, width) + after;
      ScanMember(ms[0], depth, width, after, bol);
      assert WrittenMembers(ms, seen)[1..] == WrittenMembers(ms[1..], seen');
    }
  }

  lemma {:induction false} ScanMember(m: AMember, depth: nat, width: nat, rest: string, bol: bool)
    requires PrintableMember(m) && depth > 0 && Calm(rest)
    ensures Calm(PrintMember(m, depth, width) + rest)
    ensures Scan(PrintMember(m, depth, width) + rest, bol, Initial)
         == MemberTokens(WrittenMember(m)) + Rest(rest)
    decreases m, 0
  {
    hide Scan, Calm, PrintValue, ValueTokens, WrittenValue, IndentIf, IsKeyword, Printable;
    var name, value := m.name.value, PrintValue(m.value, depth, width);
    var end := ";" + ("\n" + rest);
    CalmStart("\n" + rest);
    Newline(rest, false);
    CalmStart(end);
    Punct(';', "\n" + rest, false);
    ScanValue(m.value, depth, width, end, false);
    ValueStart(m.value, depth, width);
    var body := value + end;
    assert body[0] == value[0];
    OneBlank(body, false);
    var op: char := if m.value.AGroup? then ':' else '=';
    Punct(op, " " + body, false);
    var binding := [op] + (" " + body);
    OneBlank(binding, false);
    Name(name, " " + binding, false);
    assert (name + (" " + binding))[0] == name[0];
    IndentBlank(depth, width, name + (" " + binding), bol);
    assert PrintMember(m, depth, width) + rest == IndentIf(depth, width) + (name + (" " + binding));
  }

  // ---------------------------------------------------------------------
  // The round trip.
  // ---------------------------------------------------------------------

  /** The text of a printable configuration scans to the tokens of its concrete syntax. */
  lemma PrintedTokens(ms: seq<AMember>, width: nat)
    requires PrintableMembers(ms, [])
    ensures Scan(Print(AGroup(ms), width), true, Initial) == MembersTokens(WrittenMembers(ms, []))
  {
    hide PrintMembers, WrittenMembers, MembersTokens, PrintableMembers, Scan, Calm;
    NothingCalm();
    ScanMembers(ms, [], 1, width, "", true);
    var printed := PrintMembers(ms, 1, width);
    assert PrintValue(AGroup(ms), 0, width) == printed;
    assert PrintMember(AMember(None, AGroup(ms)), 0, width) == printed + "";
  }

  lemma NothingCalm()
    ensures Calm("") && Rest("") == []
  {
  }

  /** Scanning and parsing what was printed builds the tree again, whatever the tab width. */
  lemma RoundTrip(root: Ast, width: nat)
    requires root.AGroup? && Printable(root)
    ensures
      var r := Parse(Scan(Print(root, width), true, Initial));
      && r.Accepted? && r.ctx.parent == Some(0)
      && Wf(r.ctx.store) && 0 in r.ctx.store.nodes
      && Abs(r.ctx.store, 0) == root
  {
    hide Scan, Print, Parse, ExecMembers, MembersTokens, Abs, Wf;
    var ms := root.members;
    PrintedTokens(ms, width);
    MembersBack(ms, []);
    ParseTree(WrittenMembers(ms, []));
    ActionsRefineMeaning(WrittenMembers(ms, []));
  }
}
