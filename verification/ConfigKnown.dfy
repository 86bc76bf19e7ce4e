/**
 Known answers of the reader and the writer: the value that each kind of token gives
 a setting, strings in several parts, and the exact text of a small configuration.
 */
module ConfigKnown {
  import opened Options
  import opened ConfigStore
  import opened ConfigActions
  import opened ConfigParser
  import opened ConfigSyntax
  import opened ConfigComplete
  import opened ConfigMeaning
  import opened ConfigRefine
  import opened ConfigScanner
  import opened ConfigPrinter
  import opened ConfigRoundTrip

  // ---------------------------------------------------------------------
  // One setting, by its tokens.
  // ---------------------------------------------------------------------

  /** The setting of a configuration that holds nothing else. */
  ghost predicate Only(input: seq<Token>, name: string, value: Ast)
  {
    var r := Parse(input);
    && r.Accepted? && Wf(r.ctx.store) && 0 in r.ctx.store.nodes
    && Abs(r.ctx.store, 0) == AGroup([AMember(Some(name), value)])
  }

  lemma OneMember(m: Member, input: seq<Token>)
    requires ValidName(m.name) && GoodValue(m.value) && input == MemberTokens(m)
    ensures Only(input, m.name, Meaning(m.value))
  {
    hide Parse, ExecMembers, MemberTokens, Abs, Wf, GoodValue, Meaning;
    var ms := [m];
    assert ms[1..] == [];
    assert MembersTokens(ms) == input;
    assert GoodMembers(ms, []);
    assert MemberMeanings(ms) == [AMember(Some(m.name), Meaning(m.value))];
    ParseTree(ms);
    ActionsRefineMeaning(ms);
  }

  /** A name, an equals sign, a token of a value and nothing more. */
  lemma OneToken(name: string, s: Simple, t: Token)
    requires ValidName(name) && SimpleTokens(s) == [t]
    ensures Only([TName(name), TEquals, t], name, SimpleMeaning(s))
  {
    hide Only, SimpleMeaning, SimpleTokens;
    var m := Member(name, Plain(s), NoEnd);
    assert MemberTokens(m) == [TName(name), TEquals, t];
    OneMember(m, [TName(name), TEquals, t]);
  }

  /** The value that each token gives. */
  lemma TokenValues(name: string, i: int, text: string)
    requires ValidName(name)
    ensures Only([TName(name), TEquals, TBoolean(i)], name, ABool(i))
    ensures Only([TName(name), TEquals, TInteger(i)], name, AInt(i, FORMAT_DEFAULT))
    ensures Only([TName(name), TEquals, THex(i)], name, AInt(i, FORMAT_HEX))
    ensures Only([TName(name), TEquals, TInteger64(i)], name, AInt64(i, FORMAT_DEFAULT))
    ensures Only([TName(name), TEquals, THex64(i)], name, AInt64(i, FORMAT_HEX))
    ensures Only([TName(name), TEquals, TFloat(text)], name, AFloat(text))
    ensures Only([TName(name), TEquals, TString(text)], name, AString(Some(text)))
  {
    hide Only;
    OneToken(name, SBool(i), TBoolean(i));
    OneToken(name, SInt(i), TInteger(i));
    OneToken(name, SHex(i), THex(i));
    OneToken(name, SInt64(i), TInteger64(i));
    OneToken(name, SHex64(i), THex64(i));
    OneToken(name, SFloat(text), TFloat(text));
    var one := [text] + [];
    assert one[1..] == [] && Joined(one) == text + "" == text;
    OneToken(name, SString(text, []), TString(text));
  }

  /** Strings one after the other make one string. */
  lemma StringParts(name: string, first: string, second: string, third: string)
    requires ValidName(name)
    ensures Only([TName(name), TEquals, TString(first), TString(second), TString(third)], name,
                 AString(Some(first + second + third)))
  {
    hide Only;
    var m := Member(name, Plain(SString(first, [second, third])), NoEnd);
    var input := [TName(name), TEquals, TString(first), TString(second), TString(third)];
    assert [second, third][1..] == [third] && [third][1..] == [];
    assert PartTokens([third]) == [TString(third)];
    assert PartTokens([second, third]) == [TString(second), TString(third)];
    assert MemberTokens(m) == input;
    var all := [first] + [second, third];
    assert all[1..] == [second, third];
    assert Joined([third]) == third && Joined([second, third]) == second + third;
    assert Joined(all) == first + (second + third) == first + second + third;
    OneMember(m, input);
  }

  /** The text of any number of strings is that of the first ones and then that of the others. */
  lemma {:induction false} JoinedAppend(a: seq<string>, b: seq<string>)
    ensures Joined(a + b) == Joined(a) + Joined(b)
    decreases |a|
  {
    if a == [] {
      assert a + b == b;
    } else {
      assert (a + b)[1..] == a[1..] + b && (a + b)[0] == a[0];
      JoinedAppend(a[1..], b);
      assert a[0] + (Joined(a[1..]) + Joined(b)) == a[0] + Joined(a[1..]) + Joined(b);
    }
  }

  // ---------------------------------------------------------------------
  // The text of a configuration.
  // ---------------------------------------------------------------------

  const WATCH: Ast :=
    AGroup([AMember(Some("dirs"), AArray([AString(Some("/a")), AString(Some("b\t"))])),
            AMember(Some("mask"), AInt(31, FORMAT_HEX))])

  const SAMPLE: Ast :=
    AGroup([AMember(Some("watch"), WATCH),
            AMember(Some("last"), AList([ABool(1), AInt64(-70, FORMAT_DEFAULT)]))])

  const DIRS: string := "  dirs = [ \"/a\", \"b\\t\" ];\n"
  const MASK: string := "  mask = 0x1F;\n"
  const LAST: string := "last = ( true, -70L );\n"
  const TEXT: string := "watch : \n{\n" + DIRS + MASK + "};\n" + LAST

  lemma Numbers()
    ensures HexText(31, TWO32) == "0x1F" && DecimalText(-70) == "-70"
  {
    assert Number(1, 16) == "1" && Number(7, 10) == "7";
  }

  lemma TwoChars(a: char, b: char)
    ensures EscapeText([a, b]) == EscapeChar(a) + EscapeChar(b)
  {
    hide EscapeChar;
    assert [a, b][1..] == [b] && [b][1..] == "";
    assert EscapeText([b]) == EscapeChar(b) + "" == EscapeChar(b);
  }

  lemma Strings()
    ensures EscapeText("/a") == "/a" && EscapeText("b\t") == "b\\t"
  {
    hide EscapeText;
    TwoChars('/', 'a');
    TwoChars('b', '\t');
    assert "/a" == ['/', 'a'] && "b\t" == ['b', '\t'];
  }

  lemma Indents()
    ensures IndentIf(2, 2) == "  " && IndentIf(1, 2) == ""
  {
    assert Repeat(' ', 2) == "  ";
  }

  lemma Elements()
    ensures PrintValue(WATCH.members[0].value, 2, 2) == "[ \"/a\", \"b\\t\" ]"
    ensures PrintValue(SAMPLE.members[1].value, 1, 2) == "( true, -70L )"
  {
    hide EscapeText, DecimalText;
    Numbers();
    Strings();
    var a, b := AString(Some("/a")), AString(Some("b\t"));
    assert [a, b][1..] == [b] && [b][1..] == [];
    assert PrintElements([b], 3, 2) == "\"b\\t\" ";
    assert PrintElements([a, b], 3, 2) == "\"/a\", \"b\\t\" ";
    var c, d := ABool(1), AInt64(-70, FORMAT_DEFAULT);
    assert [c, d][1..] == [d] && [d][1..] == [];
    assert PrintElements([d], 2, 2) == "-70L ";
    assert PrintElements([c, d], 2, 2) == "true, -70L ";
  }

  lemma DirsLine()
    ensures PrintMember(WATCH.members[0], 2, 2) == DIRS
  {
    hide PrintElements, HexText, IndentIf;
    Elements();
    Indents();
  }

  lemma MaskLine()
    ensures PrintMember(WATCH.members[1], 2, 2) == MASK
  {
    hide HexText, IndentIf;
    Numbers();
    Indents();
  }

  lemma LastLine()
    ensures PrintMember(SAMPLE.members[1], 1, 2) == LAST
  {
    hide PrintElements, IndentIf;
    Elements();
    Indents();
  }

  lemma TwoMembers(a: AMember, b: AMember, depth: nat, width: nat)
    ensures PrintMembers([a, b], depth, width) == PrintMember(a, depth, width) + PrintMember(b, depth, width)
  {
    hide PrintMember;
    assert [a, b][1..] == [b] && [b][1..] == [];
    assert PrintMembers([b], depth, width) == PrintMember(b, depth, width) + "";
  }

  lemma Enclosed(body: string)
    ensures "" + ("watch" + " : ") + ("\n" + "" + "{\n" + body + "" + "}") + ";\n" == "watch : \n{\n" + body + "};\n"
  {
  }

  lemma WatchText()
    ensures PrintMember(SAMPLE.members[0], 1, 2) == "watch : \n{\n" + (DIRS + MASK) + "};\n"
  {
    hide PrintMembers, IndentIf;
    var ms := WATCH.members;
    DirsLine();
    MaskLine();
    Indents();
    TwoMembers(ms[0], ms[1], 2, 2);
    assert ms == [ms[0], ms[1]];
    Enclosed(PrintMembers(ms, 2, 2));
  }

  /** What is written with two blanks for a level. */
  lemma SampleText()
    ensures Print(SAMPLE, 2) == TEXT
  {
    hide PrintMembers, PrintMember;
    var ms := SAMPLE.members;
    LastLine();
    WatchText();
    TwoMembers(ms[0], ms[1], 1, 2);
    assert ms == [ms[0], ms[1]];
    RootText(SAMPLE, 2);
    Flat("watch : \n{\n", DIRS, MASK, "};\n", LAST);
  }

  lemma Flat(a: string, b: string, c: string, d: string, e: string)
    ensures a + (b + c) + d + e == a + b + c + d + e
  {
  }

  lemma RootText(root: Ast, width: nat)
    requires root.AGroup?
    ensures Print(root, width) == PrintMembers(root.members, 1, width)
  {
    hide PrintMembers;
    assert PrintValue(root, 0, width) == PrintMembers(root.members, 1, width);
  }
}
