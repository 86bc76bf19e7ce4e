/**
 The language of the parser: a token sequence has a derivation tree if and only
 if it is written from a concrete syntax tree, and the parser accepts exactly the
 trees whose actions succeed.
 */
module ConfigLanguage {
  import opened ConfigStore
  import opened ConfigActions
  import opened ConfigTables
  import opened ConfigParser
  import opened ConfigGrammar
  import opened ConfigSyntax
  import opened ConfigComplete

  /** Grammar symbols above the terminals belong to nodes, the others to leaves. */
  lemma KindOfTree(t: Tree)
    requires Derives(t)
    ensures SymbolOf(t) >= 23 ==> t.Node?
    ensures SymbolOf(t) < 23 ==> t.Leaf? && Yield(t) == [t.token]
  {
  }

  /** The children of a node, with their yields. */
  lemma Kids(t: Tree)
    requires Derives(t) && t.Node?
    ensures |t.kids| == |YyRhs(t.rule)|
    ensures forall i :: 0 <= i < |t.kids| ==> Derives(t.kids[i]) && SymbolOf(t.kids[i]) == YyRhs(t.rule)[i]
    ensures |t.kids| == 0 ==> Yield(t) == []
    ensures |t.kids| == 1 ==> Yield(t) == Yield(t.kids[0])
    ensures |t.kids| == 2 ==> Yield(t) == Yield(t.kids[0]) + Yield(t.kids[1])
    ensures |t.kids| == 3 ==> Yield(t) == Yield(t.kids[0]) + Yield(t.kids[1]) + Yield(t.kids[2])
    ensures |t.kids| == 4 ==>
      Yield(t) == Yield(t.kids[0]) + Yield(t.kids[1]) + Yield(t.kids[2]) + Yield(t.kids[3])
    ensures |t.kids| == 5 ==>
      Yield(t) == Yield(t.kids[0]) + Yield(t.kids[1]) + Yield(t.kids[2]) + Yield(t.kids[3]) + Yield(t.kids[4])
  {
    hide YyRhs, YyR1;
    YieldsFold(t.kids);
  }

  lemma YieldsFold(ks: seq<Tree>)
    ensures |ks| == 0 ==> Yields(ks) == []
    ensures |ks| == 1 ==> Yields(ks) == Yield(ks[0])
    ensures |ks| == 2 ==> Yields(ks) == Yield(ks[0]) + Yield(ks[1])
    ensures |ks| == 3 ==> Yields(ks) == Yield(ks[0]) + Yield(ks[1]) + Yield(ks[2])
    ensures |ks| == 4 ==> Yields(ks) == Yield(ks[0]) + Yield(ks[1]) + Yield(ks[2]) + Yield(ks[3])
    ensures |ks| == 5 ==>
      Yields(ks) == Yield(ks[0]) + Yield(ks[1]) + Yield(ks[2]) + Yield(ks[3]) + Yield(ks[4])
    decreases |ks|
  {
  }

  // ---------------------------------------------------------------------
  // Appending to the written form.
  // ---------------------------------------------------------------------

  lemma {:induction false} PartsSnoc(ps: seq<string>, p: string)
    ensures PartTokens(ps + [p]) == PartTokens(ps) + [TString(p)]
    decreases |ps|
  {
    if ps == [] {
      assert ps + [p] == [p];
    } else {
      assert (ps + [p])[1..] == ps[1..] + [p];
      PartsSnoc(ps[1..], p);
    }
  }

  lemma Joins(first: seq<Token>, more: seq<Token>, last: seq<Token>)
    ensures first + (more + [TComma] + last) == first + more + [TComma] + last
    ensures [TComma] + first + (more + [TComma] + last) == [TComma] + first + more + [TComma] + last
  {
  }

  lemma {:induction false} SimplesSnoc(ss: seq<Simple>, s: Simple)
    ensures MoreSimples(ss + [s]) == MoreSimples(ss) + [TComma] + SimpleTokens(s)
    ensures ss != [] ==> SimplesTokens(ss + [s]) == SimplesTokens(ss) + [TComma] + SimpleTokens(s)
    decreases |ss|
  {
    hide SimpleTokens;
    if ss == [] {
      assert ss + [s] == [s];
    } else {
      assert (ss + [s])[1..] == ss[1..] + [s] && (ss + [s])[0] == ss[0];
      SimplesSnoc(ss[1..], s);
      Joins(SimpleTokens(ss[0]), MoreSimples(ss[1..]), SimpleTokens(s));
    }
  }

  lemma {:induction false} ValuesSnoc(vs: seq<Value>, v: Value)
    ensures MoreValues(vs + [v]) == MoreValues(vs) + [TComma] + ValueTokens(v)
    ensures vs != [] ==> ValuesTokens(vs + [v]) == ValuesTokens(vs) + [TComma] + ValueTokens(v)
    decreases |vs|
  {
    hide ValueTokens;
    if vs == [] {
      assert vs + [v] == [v];
    } else {
      assert (vs + [v])[1..] == vs[1..] + [v] && (vs + [v])[0] == vs[0];
      ValuesSnoc(vs[1..], v);
      Joins(ValueTokens(vs[0]), MoreValues(vs[1..]), ValueTokens(v));
    }
  }

  lemma {:induction false} MembersSnoc(ms: seq<Member>, m: Member)
    ensures MembersTokens(ms + [m]) == MembersTokens(ms) + MemberTokens(m)
    decreases |ms|
  {
    hide MemberTokens;
    if ms == [] {
      assert ms + [m] == [m];
    } else {
      assert (ms + [m])[1..] == ms[1..] + [m];
      MembersSnoc(ms[1..], m);
    }
  }

  // ---------------------------------------------------------------------
  // From derivation trees to concrete syntax.
  // ---------------------------------------------------------------------

  /** The token of a leaf with a given symbol. */
  lemma LeafOf(t: Tree)
    requires Derives(t) && SymbolOf(t) < 23
    ensures t.Leaf? && Sym(t.token) == SymbolOf(t) && Yield(t) == [t.token]
  {
  }

  /** t applies a rule to children with the given symbols. */
  ghost predicate Applies(t: Tree, rule: int, syms: seq<int>)
  {
    && t.Node? && t.rule == rule && |t.kids| == |syms|
    && forall i :: 0 <= i < |syms| ==> Derives(t.kids[i]) && SymbolOf(t.kids[i]) == syms[i]
  }

  lemma ShapeString(t: Tree)
    requires Derives(t) && SymbolOf(t) == 35
    ensures Applies(t, 21, [9]) || Applies(t, 22, [35, 9])
  {
  }

  lemma ShapeSimples(t: Tree)
    requires Derives(t) && SymbolOf(t) == 39
    ensures Applies(t, 34, [36]) || Applies(t, 35, [39, 17, 36])
  {
  }

  lemma ShapeSimplesOpt(t: Tree)
    requires Derives(t) && SymbolOf(t) == 40
    ensures Applies(t, 36, []) || Applies(t, 37, [39])
  {
  }

  lemma ShapeArray(t: Tree)
    requires Derives(t) && SymbolOf(t) == 30
    ensures Applies(t, 14, [13, 31, 40, 14])
  {
  }

  lemma ShapeValues(t: Tree)
    requires Derives(t) && SymbolOf(t) == 37
    ensures Applies(t, 30, [34]) || Applies(t, 31, [37, 17, 34])
  {
  }

  lemma ShapeValuesOpt(t: Tree)
    requires Derives(t) && SymbolOf(t) == 38
    ensures Applies(t, 32, []) || Applies(t, 33, [37])
  {
  }

  lemma ShapeList(t: Tree)
    requires Derives(t) && SymbolOf(t) == 32
    ensures Applies(t, 16, [15, 33, 38, 16])
  {
  }

  lemma ShapeValue(t: Tree)
    requires Derives(t) && SymbolOf(t) == 34
    ensures Applies(t, 17, [36]) || Applies(t, 18, [30]) || Applies(t, 19, [32]) || Applies(t, 20, [41])
  {
  }

  lemma ShapeTerminator(t: Tree)
    requires Derives(t) && SymbolOf(t) == 27
    ensures Applies(t, 8, []) || Applies(t, 9, [20]) || Applies(t, 10, [17])
  {
  }

  lemma ShapeSetting(t: Tree)
    requires Derives(t) && SymbolOf(t) == 28
    ensures Applies(t, 12, [10, 29, 11, 34, 27])
  {
  }

  lemma ShapeSettings(t: Tree)
    requires Derives(t) && SymbolOf(t) == 25
    ensures Applies(t, 4, [28]) || Applies(t, 5, [25, 28])
  {
  }

  lemma ShapeSettingsOpt(t: Tree)
    requires Derives(t) && SymbolOf(t) == 26
    ensures Applies(t, 6, []) || Applies(t, 7, [25])
  {
  }

  lemma ShapeGroup(t: Tree)
    requires Derives(t) && SymbolOf(t) == 41
    ensures Applies(t, 39, [18, 42, 26, 19])
  {
  }

  lemma ShapeConfiguration(t: Tree)
    requires Derives(t) && SymbolOf(t) == 24
    ensures Applies(t, 2, []) || Applies(t, 3, [25])
  {
  }

  /** The empty marker before a mid-rule action. */
  lemma MarkerOf(t: Tree)
    requires Derives(t) && SymbolOf(t) in {29, 31, 33, 42}
    ensures Yield(t) == []
  {
  }

  lemma ShapeSimple(t: Tree)
    requires Derives(t) && SymbolOf(t) == 36
    ensures Applies(t, 29, [35]) ||
            (t.Node? && |t.kids| == 1 && t.kids[0].Leaf? && 3 <= Sym(t.kids[0].token) <= 8)
  {
    KindOfTree(t);
    Kids(t);
    KindOfTree(t.kids[0]);
  }

  lemma {:induction false} StringOf(t: Tree) returns (ps: seq<string>)
    requires Derives(t) && SymbolOf(t) == 35
    ensures ps != [] && PartTokens(ps) == Yield(t)
    decreases t
  {
    hide Yield, Yields, YyRhs, YyR1;
    ShapeString(t);
    Kids(t);
    if t.rule == 21 {
      LeafOf(t.kids[0]);
      ps := [t.kids[0].token.sval];
    } else {
      var before := StringOf(t.kids[0]);
      LeafOf(t.kids[1]);
      ps := before + [t.kids[1].token.sval];
      PartsSnoc(before, t.kids[1].token.sval);
    }
  }

  lemma SimpleOf(t: Tree) returns (s: Simple)
    requires Derives(t) && SymbolOf(t) == 36
    ensures SimpleTokens(s) == Yield(t)
  {
    hide Yields, YyRhs, YyR1;
    ShapeSimple(t);
    Kids(t);
    if t.kids[0].Node? {
      var ps := StringOf(t.kids[0]);
      s := SString(ps[0], ps[1..]);
    } else {
      match t.kids[0].token
      case TBoolean(i) => s := SBool(i);
      case TInteger(i) => s := SInt(i);
      case THex(i) => s := SHex(i);
      case TInteger64(l) => s := SInt64(l);
      case THex64(l) => s := SHex64(l);
      case TFloat(text) => s := SFloat(text);
    }
  }

  lemma {:induction false} SimplesOf(t: Tree) returns (ss: seq<Simple>)
    requires Derives(t) && SymbolOf(t) == 39
    ensures ss != [] && SimplesTokens(ss) == Yield(t)
    decreases t
  {
    hide Yield, Yields, SimpleTokens, YyRhs, YyR1;
    ShapeSimples(t);
    Kids(t);
    if t.rule == 34 {
      var s := SimpleOf(t.kids[0]);
      ss := [s];
    } else {
      var before := SimplesOf(t.kids[0]);
      LeafOf(t.kids[1]);
      var s := SimpleOf(t.kids[2]);
      ss := before + [s];
      SimplesSnoc(before, s);
    }
  }

  lemma NoTokens()
    ensures SimplesTokens([]) == [] && ValuesTokens([]) == [] && MembersTokens([]) == []
  {
  }

  lemma SimplesOptOf(t: Tree) returns (ss: seq<Simple>)
    requires Derives(t) && SymbolOf(t) == 40
    ensures SimplesTokens(ss) == Yield(t)
  {
    hide Yield, Yields, SimplesTokens, YyRhs, YyR1;
    NoTokens();
    ShapeSimplesOpt(t);
    Kids(t);
    if t.rule == 36 {
      ss := [];
    } else {
      ss := SimplesOf(t.kids[0]);
    }
  }

  lemma ArrayOf(t: Tree) returns (v: Value)
    requires Derives(t) && SymbolOf(t) == 30
    ensures ValueTokens(v) == Yield(t)
  {
    hide Yield, Yields, SimplesTokens, YyRhs, YyR1;
    ShapeArray(t);
    Kids(t);
    LeafOf(t.kids[0]);
    MarkerOf(t.kids[1]);
    LeafOf(t.kids[3]);
    var ss := SimplesOptOf(t.kids[2]);
    v := Array(ss);
  }

  lemma {:induction false} ValueOf(t: Tree) returns (v: Value)
    requires Derives(t) && SymbolOf(t) == 34
    ensures ValueTokens(v) == Yield(t)
    decreases t
  {
    hide Yield, Yields, ValueTokens, YyRhs, YyR1;
    ShapeValue(t);
    Kids(t);
    var kid := t.kids[0];
    if t.rule == 17 {
      var s := SimpleOf(kid);
      v := Plain(s);
      PlainTokens(s);
    } else if t.rule == 18 {
      v := ArrayOf(kid);
    } else if t.rule == 19 {
      v := ListOf(kid);
    } else {
      v := GroupOf(kid);
    }
  }

  lemma PlainTokens(s: Simple)
    ensures ValueTokens(Plain(s)) == SimpleTokens(s)
  {
  }

  lemma {:induction false} ValuesOf(t: Tree) returns (vs: seq<Value>)
    requires Derives(t) && SymbolOf(t) == 37
    ensures vs != [] && ValuesTokens(vs) == Yield(t)
    decreases t
  {
    hide Yield, Yields, ValueTokens, YyRhs, YyR1;
    ShapeValues(t);
    Kids(t);
    if t.rule == 30 {
      var v := ValueOf(t.kids[0]);
      vs := [v];
    } else {
      var before := ValuesOf(t.kids[0]);
      LeafOf(t.kids[1]);
      var v := ValueOf(t.kids[2]);
      vs := before + [v];
      ValuesSnoc(before, v);
    }
  }

  lemma {:induction false} ValuesOptOf(t: Tree) returns (xs: seq<Value>)
    requires Derives(t) && SymbolOf(t) == 38
    ensures ValuesTokens(xs) == Yield(t)
    decreases t
  {
    hide Yield, Yields, ValuesTokens, YyRhs, YyR1;
    NoTokens();
    ShapeValuesOpt(t);
    Kids(t);
    if t.rule == 32 {
      xs := [];
    } else {
      assert t.kids[0] < t;
      xs := ValuesOf(t.kids[0]);
    }
  }

  lemma {:induction false} ListOf(t: Tree) returns (v: Value)
    requires Derives(t) && SymbolOf(t) == 32
    ensures ValueTokens(v) == Yield(t)
    decreases t
  {
    hide Yield, Yields, ValuesTokens, YyRhs, YyR1;
    ShapeList(t);
    Kids(t);
    LeafOf(t.kids[0]);
    MarkerOf(t.kids[1]);
    LeafOf(t.kids[3]);
    assert t.kids[2] < t;
    var xs := ValuesOptOf(t.kids[2]);
    v := List(xs);
  }

  lemma EndOf(t: Tree) returns (e: Terminator)
    requires Derives(t) && SymbolOf(t) == 27
    ensures EndTokens(e) == Yield(t)
  {
    hide Yield, Yields, YyRhs, YyR1;
    ShapeTerminator(t);
    Kids(t);
    if t.rule == 8 {
      e := NoEnd;
    } else {
      LeafOf(t.kids[0]);
      e := if t.rule == 9 then SemicolonEnd else CommaEnd;
    }
  }

  lemma {:induction false} MemberOf(t: Tree) returns (m: Member)
    requires Derives(t) && SymbolOf(t) == 28
    ensures MemberTokens(m) == Yield(t)
    decreases t
  {
    hide Yield, Yields, ValueTokens, YyRhs, YyR1;
    ShapeSetting(t);
    Kids(t);
    LeafOf(t.kids[0]);
    MarkerOf(t.kids[1]);
    LeafOf(t.kids[2]);
    var v := ValueOf(t.kids[3]);
    var e := EndOf(t.kids[4]);
    m := Member(t.kids[0].token.sval, v, e);
  }

  lemma {:induction false} MembersOf(t: Tree) returns (ms: seq<Member>)
    requires Derives(t) && SymbolOf(t) == 25
    ensures MembersTokens(ms) == Yield(t)
    decreases t
  {
    hide Yield, Yields, MemberTokens, YyRhs, YyR1;
    ShapeSettings(t);
    Kids(t);
    if t.rule == 4 {
      var m := MemberOf(t.kids[0]);
      ms := [m];
      assert MembersTokens([m]) == MemberTokens(m) + MembersTokens([]);
    } else {
      var before := MembersOf(t.kids[0]);
      var m := MemberOf(t.kids[1]);
      ms := before + [m];
      MembersSnoc(before, m);
    }
  }

  lemma {:induction false} SettingsOptOf(t: Tree) returns (xs: seq<Member>)
    requires Derives(t) && SymbolOf(t) == 26
    ensures MembersTokens(xs) == Yield(t)
    decreases t
  {
    hide Yield, Yields, MembersTokens, YyRhs, YyR1;
    NoTokens();
    ShapeSettingsOpt(t);
    Kids(t);
    if t.rule == 6 {
      xs := [];
    } else {
      assert t.kids[0] < t;
      xs := MembersOf(t.kids[0]);
    }
  }

  lemma {:induction false} GroupOf(t: Tree) returns (v: Value)
    requires Derives(t) && SymbolOf(t) == 41
    ensures ValueTokens(v) == Yield(t)
    decreases t
  {
    hide Yield, Yields, MembersTokens, YyRhs, YyR1;
    ShapeGroup(t);
    Kids(t);
    LeafOf(t.kids[0]);
    MarkerOf(t.kids[1]);
    LeafOf(t.kids[3]);
    assert t.kids[2] < t;
    var xs := SettingsOptOf(t.kids[2]);
    v := Group(xs);
  }

  /** Every derivation tree of `configuration` is the tree of some concrete syntax. */
  lemma ConfigurationOf(t: Tree) returns (ms: seq<Member>)
    requires Derives(t) && SymbolOf(t) == CONFIGURATION
    ensures MembersTokens(ms) == Yield(t)
  {
    hide Yield, Yields, MembersTokens, YyRhs, YyR1;
    NoTokens();
    ShapeConfiguration(t);
    Kids(t);
    if t.rule == 2 {
      ms := [];
    } else {
      ms := MembersOf(t.kids[0]);
    }
  }

  /**
   The parser accepts a token sequence if and only if it is the writing of a
   configuration whose actions all succeed, and then its result is theirs.
   */
  lemma AcceptsExactly(input: seq<Token>, ctx: Ctx)
    ensures Parse(input) == Accepted(ctx) <==>
      exists ms :: MembersTokens(ms) == input && ExecMembers(ms, INITIAL) == Ok(ctx)
  {
    hide MembersTokens, ExecMembers, Parse;
    if Parse(input) == Accepted(ctx) {
      var t := AcceptedDerives(input);
      var ms := ConfigurationOf(t);
      ParseTree(ms);
    }
    forall ms | MembersTokens(ms) == input && ExecMembers(ms, INITIAL) == Ok(ctx)
      ensures Parse(input) == Accepted(ctx)
    {
      ParseTree(ms);
    }
  }
}
