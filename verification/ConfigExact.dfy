/**
 The round trip holds for exactly the printable trees: whatever the parser builds
 from any text is printable, so a tree that is not cannot come back.
 */
module ConfigExact {
  import opened Options
  import opened ConfigStore
  import opened ConfigActions
  import opened ConfigParser
  import opened ConfigSyntax
  import opened ConfigLanguage
  import opened ConfigMeaning
  import opened ConfigRefine
  import opened ConfigScanner
  import opened ConfigPrinter
  import opened ConfigLexing
  import opened ConfigRoundTrip

  // ---------------------------------------------------------------------
  // Trees that the library can hold.
  // ---------------------------------------------------------------------

  /** A value as C can store it, without floats: integers of their width, strings of bytes. */
  predicate Storable(a: Ast)
    decreases a, 1
  {
    match a
    case ANone => true
    case ABool(_) => true
    case AInt(i, f) => -TWO31 <= i < TWO31 && Format(f)
    case AInt64(l, f) => -TWO63 <= l < TWO63 && Format(f)
    case AFloat(_) => false
    case AString(s) => s.Some? ==> forall i :: 0 <= i < |s.value| ==> 0 < s.value[i] as int < 256
    case AArray(es) => StorableAll(es)
    case AList(es) => StorableAll(es)
    case AGroup(ms) => StorableMembers(ms)
  }

  predicate StorableAll(es: seq<Ast>)
    decreases es, 0
  {
    es == [] || (Storable(es[0]) && StorableAll(es[1..]))
  }

  predicate StorableMembers(ms: seq<AMember>)
    decreases ms, 0
  {
    ms == [] || (StorableMember(ms[0]) && StorableMembers(ms[1..]))
  }

  predicate StorableMember(m: AMember)
    decreases m, 0
  {
    Storable(m.value)
  }

  // ---------------------------------------------------------------------
  // What the scanner never returns.
  // ---------------------------------------------------------------------

  /** No name reads as a boolean, and booleans are 0 or 1. */
  predicate CleanToken(t: Token)
  {
    && (t.TName? ==> !IsKeyword(t.sval))
    && (t.TBoolean? ==> t.ival == 0 || t.ival == 1)
  }

  predicate Clean(ts: seq<Token>)
  {
    forall i :: 0 <= i < |ts| ==> CleanToken(ts[i])
  }

  lemma {:induction false} BestEarliest(s: string, bol: bool, rule: nat, q: nat)
    requires 1 <= rule && 1 <= q < Best(s, bol, rule)
    ensures MatchLen(q, s, bol) < MatchLen(Best(s, bol, rule), s, bol)
    decreases rule
  {
    hide MatchLen;
    if rule > 1 {
      var b := Best(s, bol, rule - 1);
      BestBelow(s, bol, rule - 1);
      if q < b {
        BestEarliest(s, bol, rule - 1, q);
      } else {
        BestLongest(s, bol, rule - 1);
      }
    }
  }

  /** A keyword that is a whole name would have been matched as the keyword. */
  lemma NameIsNoKeyword(s: string, bol: bool)
    requires s != "" && Best(s, bol, LAST_RULE) == 29
    ensures !IsKeyword(s[..MatchLen(29, s, bol)])
  {
    hide Best, MatchLen, NameLen, Keyword;
    Progress(s, bol);
    BestEarliest(s, bol, LAST_RULE, 27);
    BestEarliest(s, bol, LAST_RULE, 28);
    WordRules(s, bol);
    var name := s[..MatchLen(29, s, bol)];
    KeywordPrefix(s, name, "true");
    KeywordPrefix(s, name, "false");
  }

  lemma KeywordPrefix(s: string, name: string, word: string)
    requires |name| <= |s| && s[..|name|] == name && name != ""
    ensures Keyword(name, word) == |name| ==> Keyword(s, word) == |name|
  {
    assert forall i :: 0 <= i < |name| ==> s[i] == name[i];
  }

  lemma TokenClean(s: string, bol: bool)
    requires s != ""
    ensures
      var rule := Best(s, bol, LAST_RULE);
      var n := MatchLen(rule, s, bol);
      (rule == 33 || rule == 34 ==> n >= 2) && (TokenOf(rule, s[..n]).Some? ==> CleanToken(TokenOf(rule, s[..n]).value))
  {
    hide Best, MatchLen, IsKeyword;
    var rule := Best(s, bol, LAST_RULE);
    Progress(s, bol);
    HexHasPrefix(rule, s, bol);
    if rule == 29 {
      NameIsNoKeyword(s, bol);
    }
  }

  lemma {:induction false} ScanClean(s: string, bol: bool, mode: Mode)
    ensures Clean(Scan(s, bol, mode))
    decreases |s|, 1
  {
    hide Best, MatchLen, TokenOf, CleanToken, Escape, RunOf;
    if s != "" {
      match mode {
        case InComment => CommentClean(s, bol);
        case InString(collected) => StringClean(s, bol, collected);
        case Initial => InitialClean(s, bol);
      }
    }
  }

  lemma {:induction false} CommentClean(s: string, bol: bool)
    requires s != ""
    ensures Clean(Scan(s, bol, InComment))
    decreases |s|, 0
  {
    hide Clean, StartsWith;
    if StartsWith(s, "*/") {
      CommentEnds(s);
      ScanClean(s[2..], false, Initial);
    } else {
      ScanClean(s[1..], false, InComment);
    }
  }

  lemma CommentEnds(s: string)
    requires StartsWith(s, "*/")
    ensures |s| >= 2
  {
  }

  lemma {:induction false} StringClean(s: string, bol: bool, collected: string)
    requires s != ""
    ensures Clean(Scan(s, bol, InString(collected)))
    decreases |s|, 0
  {
    hide Clean, CleanToken, Escape, RunOf;
    if s[0] == '\"' {
      StringTokenClean(collected);
      ScanClean(s[1..], false, Initial);
      CleanCons(TString(collected), Scan(s[1..], false, Initial));
    } else if s[0] == '\\' {
      var e := Escape(s);
      ScanClean(s[e.1..], false, InString(collected + e.0));
    } else {
      var n := RunOf(s, Ordinary);
      RunStarts(s);
      ScanClean(s[n..], false, InString(collected + s[..n]));
    }
  }

  lemma {:induction false} InitialClean(s: string, bol: bool)
    requires s != ""
    ensures Clean(Scan(s, bol, Initial))
    decreases |s|, 0
  {
    hide Clean, CleanToken, Best, MatchLen, TokenOf;
    Progress(s, bol);
    TokenClean(s, bol);
    var rule := Best(s, bol, LAST_RULE);
    var n := MatchLen(rule, s, bol);
    var rest, bol' := s[n..], s[n - 1] == '\n';
    if rule == 1 {
      ScanClean(rest, bol', InComment);
    } else if rule == 5 {
      ScanClean(rest, bol', InString(""));
    } else if rule == 16 {
      ErrorClean();
    } else {
      ScanClean(rest, bol', Initial);
      if TokenOf(rule, s[..n]).Some? {
        CleanCons(TokenOf(rule, s[..n]).value, Scan(rest, bol', Initial));
      }
    }
  }

  lemma CleanCons(t: Token, ts: seq<Token>)
    requires CleanToken(t) && Clean(ts)
    ensures Clean([t] + ts)
  {
  }

  lemma ErrorClean()
    ensures Clean([TError])
  {
  }

  lemma StringTokenClean(collected: string)
    ensures CleanToken(TString(collected))
  {
  }

  lemma RunStarts(s: string)
    requires s != "" && Ordinary(s[0])
    ensures RunOf(s, Ordinary) > 0
  {
  }

  // ---------------------------------------------------------------------
  // What the parser builds is printable.
  // ---------------------------------------------------------------------

  lemma CleanParts(a: seq<Token>, b: seq<Token>)
    requires Clean(a + b)
    ensures Clean(a) && Clean(b)
  {
    assert forall i :: 0 <= i < |a| ==> (a + b)[i] == a[i];
    assert forall i :: 0 <= i < |b| ==> (a + b)[|a| + i] == b[i];
  }

  lemma SimpleClean(s: Simple)
    requires Clean(SimpleTokens(s)) && Storable(SimpleMeaning(s))
    ensures PrintableScalar(SimpleMeaning(s)) && ScalarKind(SimpleMeaning(s)) == SimpleKind(s)
  {
    assert CleanToken(SimpleTokens(s)[0]);
  }

  lemma {:induction false} SimplesClean(ss: seq<Simple>, i: nat)
    requires Clean(MoreSimples(ss)) && StorableAll(SimpleMeanings(ss)) && i < |ss|
    ensures
      var a := SimpleMeanings(ss)[i];
      PrintableScalar(a) && ScalarKind(a) == SimpleKind(ss[i])
    decreases |ss|
  {
    hide SimpleTokens, PrintableScalar, ScalarKind, SimpleKind, SimpleMeaning, CleanToken;
    var first, more := SimpleTokens(ss[0]), MoreSimples(ss[1..]);
    assert MoreSimples(ss) == [TComma] + (first + more);
    CleanParts([TComma], first + more);
    CleanParts(first, more);
    assert SimpleMeanings(ss)[1..] == SimpleMeanings(ss[1..]);
    if i == 0 {
      SimpleClean(ss[0]);
    } else {
      SimplesClean(ss[1..], i - 1);
    }
  }

  lemma ArrayClean(ss: seq<Simple>)
    requires Clean(SimplesTokens(ss)) && StorableAll(SimpleMeanings(ss)) && Homogeneous(ss)
    ensures Printable(AArray(SimpleMeanings(ss)))
  {
    hide SimpleTokens, PrintableScalar, ScalarKind, SimpleKind, SimpleMeaning, CleanToken, SimpleMeanings;
    var es := SimpleMeanings(ss);
    CommaClean(SimplesTokens(ss));
    if ss != [] {
      assert [TComma] + SimplesTokens(ss) == MoreSimples(ss);
    }
    forall i | 0 <= i < |es|
      ensures PrintableScalar(es[i]) && ScalarKind(es[i]) == ScalarKind(es[0])
    {
      SimplesClean(ss, i);
      SimplesClean(ss, 0);
    }
  }

  lemma CommaClean(ts: seq<Token>)
    requires Clean(ts)
    ensures Clean([TComma] + ts)
  {
  }

  lemma {:induction false} ValueClean(v: Value)
    requires Clean(ValueTokens(v)) && GoodValue(v) && Storable(Meaning(v))
    ensures Printable(Meaning(v))
    decreases v, 1
  {
    hide Clean, SimplesTokens, ValuesTokens, MembersTokens, SimpleMeanings, Meanings, MemberMeanings, Homogeneous,
         GoodValues, GoodMembers, StorableAll, StorableMembers, PrintableMembers, PrintableAll, SimpleTokens, SimpleMeaning;
    match v
    case Plain(s) =>
      SimpleClean(s);
      ScalarPrintable(SimpleMeaning(s));
    case Array(ss) =>
      Inside([TArrayStart], SimplesTokens(ss), [TArrayEnd]);
      ArrayClean(ss);
    case List(vs) =>
      Inside([TListStart], ValuesTokens(vs), [TListEnd]);
      CommaClean(ValuesTokens(vs));
      MoreIsComma(vs);
      NoValues();
      ValuesClean(vs);
    case Group(ms) =>
      Inside([TGroupStart], MembersTokens(ms), [TGroupEnd]);
      MembersClean(ms, []);
  }

  lemma NoValues()
    ensures Clean(MoreValues([]))
  {
  }

  lemma ScalarPrintable(a: Ast)
    requires PrintableScalar(a)
    ensures Printable(a)
  {
  }

  lemma Inside(a: seq<Token>, b: seq<Token>, c: seq<Token>)
    requires Clean(a + b + c)
    ensures Clean(b)
  {
    CleanParts(a + b, c);
    CleanParts(a, b);
  }

  lemma {:induction false} ValuesClean(vs: seq<Value>)
    requires Clean(MoreValues(vs)) && GoodValues(vs) && StorableAll(Meanings(vs))
    ensures PrintableAll(Meanings(vs))
    decreases vs, 0
  {
    hide Clean, ValueTokens, GoodValue, Storable, Printable, Meaning;
    if vs != [] {
      var first, more := ValueTokens(vs[0]), MoreValues(vs[1..]);
      assert MoreValues(vs) == [TComma] + (first + more);
      CleanParts([TComma], first + more);
      CleanParts(first, more);
      assert Meanings(vs)[1..] == Meanings(vs[1..]);
      ValueClean(vs[0]);
      ValuesClean(vs[1..]);
    }
  }

  lemma {:induction false} MembersClean(ms: seq<Member>, seen: seq<string>)
    requires Clean(MembersTokens(ms)) && GoodMembers(ms, seen) && StorableMembers(MemberMeanings(ms))
    ensures PrintableMembers(MemberMeanings(ms), seen)
    decreases ms, 0
  {
    hide Clean, MemberTokens, GoodValue, Storable, Printable, Meaning, ValidName, IsKeyword;
    if ms != [] {
      CleanParts(MemberTokens(ms[0]), MembersTokens(ms[1..]));
      assert MemberMeanings(ms)[1..] == MemberMeanings(ms[1..]);
      MemberClean(ms[0]);
      MembersClean(ms[1..], seen + [ms[0].name]);
    }
  }

  lemma {:induction false} MemberClean(m: Member)
    requires Clean(MemberTokens(m)) && ValidName(m.name) && GoodValue(m.value) && Storable(Meaning(m.value))
    ensures PrintableMember(AMember(Some(m.name), Meaning(m.value)))
    decreases m, 0
  {
    hide ValueTokens, GoodValue, Storable, Printable, Meaning, ValidName, IsKeyword;
    var head, value, end := [TName(m.name), TEquals], ValueTokens(m.value), EndTokens(m.end);
    assert MemberTokens(m)[0] == TName(m.name);
    assert CleanToken(TName(m.name));
    assert MemberTokens(m) == head + value + end;
    Inside(head, value, end);
    ValueClean(m.value);
  }

  // ---------------------------------------------------------------------
  // The round trip, exactly.
  // ---------------------------------------------------------------------

  /** Writing the tree and reading the text builds the tree again. */
  ghost predicate ComesBack(root: Ast, width: nat)
  {
    var r := Parse(Scan(Print(root, width), true, Initial));
    r.Accepted? && Wf(r.ctx.store) && 0 in r.ctx.store.nodes && Abs(r.ctx.store, 0) == root
  }

  /** Every tree without floats that any text is parsed to is printable. */
  lemma ParsedIsPrintable(text: string)
    requires Parse(Scan(text, true, Initial)).Accepted?
    ensures
      var st := Parse(Scan(text, true, Initial)).ctx.store;
      Wf(st) && 0 in st.nodes && (Storable(Abs(st, 0)) ==> Printable(Abs(st, 0)))
  {
    hide Scan, Parse, ExecMembers, MembersTokens, Abs, Wf, GoodMembers, MemberMeanings, Clean;
    var tokens := Scan(text, true, Initial);
    var ctx := Parse(tokens).ctx;
    AcceptsExactly(tokens, ctx);
    var ms :| MembersTokens(ms) == tokens && ExecMembers(ms, ConfigActions.INITIAL) == Ok(ctx);
    ActionsRefineMeaning(ms);
    ScanClean(text, true, Initial);
    if Storable(Abs(ctx.store, 0)) {
      MembersClean(ms, []);
    }
  }

  /** A float-free tree comes back if and only if it is printable. */
  lemma RoundTripExactly(root: Ast, width: nat)
    requires root.AGroup? && Storable(root)
    ensures ComesBack(root, width) <==> Printable(root)
  {
    hide Scan, Parse, Print, Abs, Wf, Storable, Printable;
    if ComesBack(root, width) {
      ParsedIsPrintable(Print(root, width));
    }
    if Printable(root) {
      RoundTrip(root, width);
    }
  }

  function Single(name: Option<string>, value: Ast): Ast
  {
    AGroup([AMember(name, value)])
  }

  /** A member named "true", an unnamed one, and values that the printer cannot write. */
  lemma Lost(width: nat)
    ensures !ComesBack(Single(Some("true"), AInt(1, FORMAT_DEFAULT)), width)
    ensures !ComesBack(Single(None, AInt(1, FORMAT_DEFAULT)), width)
    ensures !ComesBack(Single(Some("a"), ANone), width)
    ensures !ComesBack(Single(Some("a"), AString(None)), width)
    ensures !ComesBack(Single(Some("a"), ABool(2)), width)
  {
    hide ComesBack;
    assert Keyword("true", "true") == 4;
    LostOne(Some("true"), AInt(1, FORMAT_DEFAULT), width);
    LostOne(None, AInt(1, FORMAT_DEFAULT), width);
    LostOne(Some("a"), ANone, width);
    LostOne(Some("a"), AString(None), width);
    LostOne(Some("a"), ABool(2), width);
  }

  lemma LostOne(name: Option<string>, value: Ast, width: nat)
    requires Storable(value) && (name.None? || IsKeyword(name.value) || !Printable(value))
    ensures !ComesBack(Single(name, value), width)
  {
    hide ComesBack, IsKeyword;
    var root := Single(name, value);
    var ms := root.members;
    assert ms[0] == AMember(name, value) && ms[1..] == [];
    assert StorableMembers(ms[1..]) && StorableMember(ms[0]);
    assert StorableMembers(ms);
    assert !PrintableMember(ms[0]);
    assert !PrintableMembers(ms, []);
    RoundTripExactly(root, width);
  }
}
