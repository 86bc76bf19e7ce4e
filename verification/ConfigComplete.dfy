/**
 Completeness of the parse tables: on the tokens of any concrete syntax tree the
 driver loop performs exactly the tree's actions and consumes exactly its tokens.
 */
module ConfigComplete {
  import opened Options
  import opened ConfigStore
  import opened ConfigActions
  import opened ConfigTables
  import opened ConfigParser
  import opened ConfigSyntax

  predicate ValueSpot(s: int) { s == 8 || s == 26 || s == 42 }
  predicate SimpleSpot(s: int) { ValueSpot(s) || s == 25 || s == 40 }
  predicate MemberSpot(s: int) { s == 0 || s == 3 || s == 27 || s == 38 }

  const VALUE := 34
  const SIMPLE := 36

  /** The symbol pushed by a finished construct. */
  function Done(base: seq<Entry>, nt: int): seq<Entry>
    requires base != []
  {
    base + [Entry(StateGoto(Top(base), nt), None)]
  }

  lemma ReduceEmpty(base: seq<Entry>, input: seq<Token>, c: Ctx, rule: int, g: int)
    requires Standing(base) && Top(base) != YYFINAL
    requires StateAction(Top(base), Lookahead(input)) == Reduce(rule)
    requires YyR2(rule) == 0 && StateGoto(Top(base), YyR1(rule)) == g
    ensures Standing(base + [Entry(g, None)])
    ensures Run(base, input, c) == Resume(Act(rule, ActionValue(base), c), base + [Entry(g, None)], input)
  {
    hide Run, StateAction, StateGoto, YyR1, YyR2, Act;
    assert base + [] == base;
    ReduceTo(base, [], input, c, rule, g);
  }

  lemma ReduceOne(base: seq<Entry>, e: Entry, input: seq<Token>, c: Ctx, rule: int, g: int)
    requires base != [] && Standing(base + [e]) && e.state != YYFINAL
    requires StateAction(e.state, Lookahead(input)) == Reduce(rule)
    requires YyR2(rule) == 1 && StateGoto(Top(base), YyR1(rule)) == g
    ensures Standing(base + [Entry(g, None)])
    ensures Run(base + [e], input, c) == Resume(Act(rule, e.val, c), base + [Entry(g, None)], input)
  {
    hide Run, StateAction, StateGoto, YyR1, YyR2, Act;
    ReduceTo(base, [e], input, c, rule, g);
  }

  // ---------------------------------------------------------------------
  // The moves around brackets, read off the tables once.
  // ---------------------------------------------------------------------

  lemma ArrayFacts(s: int, t: int, val: Option<Token>, c: Ctx)
    requires ValueSpot(s)
    ensures StateAction(s, 13) == Shift(16) && StateAction(16, t) == Reduce(13) && StateAction(34, 14) == Shift(41)
    ensures YyR2(13) == 0 && StateGoto(16, YyR1(13)) == 25 && Act(13, val, c) == Open(c, ArrayKind)
  {
    hide Open;
  }

  lemma ListFacts(s: int, t: int, val: Option<Token>, c: Ctx)
    requires ValueSpot(s)
    ensures StateAction(s, 15) == Shift(17) && StateAction(17, t) == Reduce(15) && StateAction(37, 16) == Shift(43)
    ensures YyR2(15) == 0 && StateGoto(17, YyR1(15)) == 26 && Act(15, val, c) == Open(c, ListKind)
  {
    hide Open;
  }

  lemma GroupFacts(s: int, t: int, val: Option<Token>, c: Ctx)
    requires ValueSpot(s)
    ensures StateAction(s, 18) == Shift(18) && StateAction(18, t) == Reduce(38) && StateAction(39, 19) == Shift(44)
    ensures YyR2(38) == 0 && StateGoto(18, YyR1(38)) == 27 && StateGoto(27, 26) == 39
    ensures Act(38, val, c) == Open(c, GroupKind)
  {
    hide Open;
  }

  lemma CloseFacts(s: int, rule: int, g: int, unit: int, state: int, t: int, val: Option<Token>, c: Ctx)
    requires ValueSpot(s) && (rule, g, unit, state) in {(14, 19, 18, 41), (16, 20, 19, 43), (39, 24, 20, 44)}
    ensures StateAction(state, t) == Reduce(rule) && YyR2(rule) == 4 && StateGoto(s, YyR1(rule)) == g
    ensures StateAction(g, t) == Reduce(unit) && YyR2(unit) == 1 && YyR1(unit) == VALUE
    ensures state != YYFINAL && g != YYFINAL
    ensures Act(rule, val, c) == Close(c) && Act(unit, val, c) == Ok(c)
  {
    hide Close;
  }

  /** The moves around the elements of an array. */
  lemma SimplesFacts(t: int)
    requires t == 14 || t == 17
    ensures StateAction(25, 14) == Reduce(36) && YyR2(36) == 0 && StateGoto(25, YyR1(36)) == 34
    ensures StateGoto(25, SIMPLE) == 32 && StateAction(32, t) == Reduce(34)
    ensures YyR2(34) == 1 && StateGoto(25, YyR1(34)) == 33
    ensures StateAction(33, 14) == Reduce(37) && YyR2(37) == 1 && StateGoto(25, YyR1(37)) == 34
  {
  }

  /** The moves around the elements of a list. */
  lemma ValuesFacts(t: int)
    requires t == 16 || t == 17
    ensures StateAction(26, 16) == Reduce(32) && YyR2(32) == 0 && StateGoto(26, YyR1(32)) == 37
    ensures StateGoto(26, VALUE) == 35 && StateAction(35, t) == Reduce(30)
    ensures YyR2(30) == 1 && StateGoto(26, YyR1(30)) == 36
    ensures StateAction(36, 16) == Reduce(33) && YyR2(33) == 1 && StateGoto(26, YyR1(33)) == 37
  {
  }

  lemma ValueStands(base: seq<Entry>)
    requires Standing(base) && ValueSpot(Top(base))
    ensures Standing(Done(base, VALUE))
  {
    Push(base, Entry(StateGoto(Top(base), VALUE), None));
  }

  /** The next element of a list. */
  lemma CommaFacts(t: int, val: Option<Token>, c: Ctx)
    requires t == 14 || t == 16 || t == 17
    ensures StateAction(33, 17) == Shift(40) && StateAction(36, 17) == Shift(42)
    ensures StateGoto(40, SIMPLE) == 45 && StateGoto(42, VALUE) == 46
    ensures t != 16 ==> StateAction(45, t) == Reduce(35)
    ensures t != 14 ==> StateAction(46, t) == Reduce(31)
    ensures YyR2(35) == 3 && StateGoto(25, YyR1(35)) == 33 && Act(35, val, c) == Ok(c)
    ensures YyR2(31) == 3 && StateGoto(26, YyR1(31)) == 36 && Act(31, val, c) == Ok(c)
  {
  }

  // ---------------------------------------------------------------------
  // Scalars.
  // ---------------------------------------------------------------------

  /** A one-token scalar: shift, then reduce by its rule. */
  lemma RunToken(base: seq<Entry>, tok: Token, rest: seq<Token>, c: Ctx, rule: int)
    requires Standing(base) && SimpleSpot(Top(base))
    requires 3 <= Sym(tok) <= 8 && rule == YyDefact(Sym(tok) + 6)
    ensures Standing(Done(base, SIMPLE))
    ensures Run(base, [tok] + rest, c) == Resume(Act(rule, Some(tok), c), Done(base, SIMPLE), rest)
  {
    hide Run, Act;
    ShiftTo(base, tok, rest, c, Sym(tok) + 6);
    ReduceOne(base, Entry(Sym(tok) + 6, Some(tok)), rest, c, rule, StateGoto(Top(base), SIMPLE));
  }

  const STRING_STATE := 22

  /** Further string parts are collected one by one. */
  lemma {:induction false} RunParts(base: seq<Entry>, parts: seq<string>, rest: seq<Token>, c: Ctx)
    requires base != [] && SimpleSpot(Top(base)) && Standing(base + [Entry(STRING_STATE, None)])
    requires Lookahead(rest) != 9
    ensures Run(base + [Entry(STRING_STATE, None)], PartTokens(parts) + rest, c)
         == Run(base + [Entry(STRING_STATE, None)], rest, ExecParts(parts, c))
    decreases |parts|
  {
    hide Run, StateAction, StateGoto;
    var top := base + [Entry(STRING_STATE, None)];
    if parts == [] {
      assert PartTokens(parts) + rest == rest;
    } else {
      var tok := TString(parts[0]);
      var tail := PartTokens(parts[1..]) + rest;
      assert PartTokens(parts) + rest == [tok] + tail;
      PartFacts(Top(base), tail);
      ShiftTo(top, tok, tail, c, 31);
      assert top + [Entry(31, Some(tok))] == base + [Entry(STRING_STATE, None), Entry(31, Some(tok))];
      ReduceTo(base, [Entry(STRING_STATE, None), Entry(31, Some(tok))], tail, c, 22, STRING_STATE);
      var c1 := AppendString(c, parts[0]).ctx;
      PartAct(parts[0], c);
      RunParts(base, parts[1..], rest, c1);
      assert ExecParts(parts, c) == ExecParts(parts[1..], c1);
    }
  }

  lemma PartAct(part: string, c: Ctx)
    ensures AppendString(c, part).Ok? && Act(22, Some(TString(part)), c) == AppendString(c, part)
  {
  }

  lemma PartFacts(s: int, tail: seq<Token>)
    requires SimpleSpot(s)
    ensures StateAction(STRING_STATE, 9) == Shift(31)
    ensures StateAction(31, Lookahead(tail)) == Reduce(22)
    ensures YyR2(22) == 2 && StateGoto(s, YyR1(22)) == STRING_STATE
  {
  }

  lemma RunString(base: seq<Entry>, first: string, more: seq<string>, rest: seq<Token>, c: Ctx)
    requires Standing(base) && SimpleSpot(Top(base)) && Lookahead(rest) != 9
    ensures Standing(Done(base, SIMPLE))
    ensures Run(base, [TString(first)] + PartTokens(more) + rest, c)
         == Resume(TakeString(ExecParts([first] + more, c)), Done(base, SIMPLE), rest)
  {
    hide Run, TakeString;
    var tok := TString(first);
    var tail := PartTokens(more) + rest;
    assert [tok] + PartTokens(more) + rest == [tok] + tail;
    ShiftTo(base, tok, tail, c, 15);
    ReduceOne(base, Entry(15, Some(tok)), tail, c, 21, STRING_STATE);
    var c1 := AppendString(c, first).ctx;
    RunParts(base, more, rest, c1);
    assert ([first] + more)[1..] == more;
    ReduceOne(base, Entry(STRING_STATE, None), rest, ExecParts(more, c1), 29, StateGoto(Top(base), SIMPLE));
  }

  lemma RunSimple(base: seq<Entry>, s: Simple, rest: seq<Token>, c: Ctx)
    requires Standing(base) && SimpleSpot(Top(base)) && Lookahead(rest) != 9
    ensures Standing(Done(base, SIMPLE))
    ensures Run(base, SimpleTokens(s) + rest, c) == Resume(ExecSimple(s, c), Done(base, SIMPLE), rest)
  {
    hide Run, Done, Scalar, TakeString, ExecParts, PartTokens, StateAction, StateGoto;
    match s
    case SBool(i) => RunToken(base, TBoolean(i), rest, c, 23);
    case SInt(i) => RunToken(base, TInteger(i), rest, c, 24);
    case SHex(i) => RunToken(base, THex(i), rest, c, 26);
    case SInt64(l) => RunToken(base, TInteger64(l), rest, c, 25);
    case SHex64(l) => RunToken(base, THex64(l), rest, c, 27);
    case SFloat(text) => RunToken(base, TFloat(text), rest, c, 28);
    case SString(first, more) => RunString(base, first, more, rest, c);
  }

  // ---------------------------------------------------------------------
  // Arrays.
  // ---------------------------------------------------------------------

  lemma {:induction false} RunMoreSimples(base: seq<Entry>, ss: seq<Simple>, tail: seq<Token>, c: Ctx)
    requires base != [] && Top(base) == 25 && Standing(base + [Entry(33, None)])
    requires Lookahead(tail) == 14
    ensures Run(base + [Entry(33, None)], MoreSimples(ss) + tail, c)
         == Resume(ExecSimples(ss, c), base + [Entry(33, None)], tail)
    decreases |ss|
  {
    hide Run, SimpleTokens, ExecSimple, StateAction, StateGoto, YyR1, YyR2, Act;
    var e33, e40 := Entry(33, None), Entry(40, Some(TComma));
    if ss == [] {
      assert MoreSimples(ss) + tail == tail;
    } else {
      var after := MoreSimples(ss[1..]) + tail;
      var input := SimpleTokens(ss[0]) + after;
      assert MoreSimples(ss) + tail == [TComma] + input;
      AfterSimples(ss[1..], tail);
      CommaFacts(Lookahead(after), None, c);
      ShiftTo(base + [e33], TComma, input, c, 40);
      RunSimple(base + [e33] + [e40], ss[0], after, c);
      var o := ExecSimple(ss[0], c);
      if o.Ok? {
        assert base + [e33] + [e40] + [Entry(45, None)] == base + [e33, e40, Entry(45, None)];
        CommaFacts(Lookahead(after), ActionValue(base + [e33, e40, Entry(45, None)]), o.ctx);
        ReduceTo(base, [e33, e40, Entry(45, None)], after, o.ctx, 35, 33);
        RunMoreSimples(base, ss[1..], tail, o.ctx);
      }
    }
  }

  lemma RunSimples(base: seq<Entry>, ss: seq<Simple>, tail: seq<Token>, c: Ctx)
    requires Standing(base) && Top(base) == 25 && Lookahead(tail) == 14
    ensures Standing(base + [Entry(34, None)])
    ensures Run(base, SimplesTokens(ss) + tail, c)
         == Resume(ExecSimples(ss, c), base + [Entry(34, None)], tail)
  {
    hide Run, SimpleTokens, ExecSimple, MoreSimples, Act, StateAction, StateGoto, YyR1, YyR2;
    Push(base, Entry(34, None));
    SimplesFacts(14);
    if ss == [] {
      assert SimplesTokens(ss) + tail == tail;
      ReduceEmpty(base, tail, c, 36, 34);
      Quiet(36, ActionValue(base), c);
    } else {
      var after := MoreSimples(ss[1..]) + tail;
      assert SimplesTokens(ss) + tail == SimpleTokens(ss[0]) + after;
      AfterSimples(ss[1..], tail);
      SimplesFacts(Lookahead(after));
      RunSimple(base, ss[0], after, c);
      var o := ExecSimple(ss[0], c);
      if o.Ok? {
        ReduceOne(base, Entry(32, None), after, o.ctx, 34, 33);
        Quiet(34, None, o.ctx);
        RunMoreSimples(base, ss[1..], tail, o.ctx);
        var o' := ExecSimples(ss[1..], o.ctx);
        if o'.Ok? {
          ReduceOne(base, Entry(33, None), tail, o'.ctx, 37, 34);
          Quiet(37, None, o'.ctx);
        }
      }
    }
  }

  /** Rules without an action. */
  lemma Quiet(rule: int, val: Option<Token>, c: Ctx)
    requires 2 <= rule <= 10 || rule == 12 || 17 <= rule <= 20 || 30 <= rule <= 37
    ensures Act(rule, val, c) == Ok(c)
  {
  }

  lemma AfterSimples(ss: seq<Simple>, tail: seq<Token>)
    requires Lookahead(tail) == 14
    ensures Lookahead(MoreSimples(ss) + tail) == 14 || Lookahead(MoreSimples(ss) + tail) == 17
  {
  }

  lemma RunArray(base: seq<Entry>, ss: seq<Simple>, rest: seq<Token>, c: Ctx)
    requires Standing(base) && ValueSpot(Top(base)) && Lookahead(rest) != 9
    ensures Standing(Done(base, VALUE))
    ensures Run(base, ValueTokens(Array(ss)) + rest, c)
         == Resume(ExecValue(Array(ss), c), Done(base, VALUE), rest)
  {
    hide Run, SimplesTokens, ExecSimples, Open, Close, StateAction, StateGoto, YyR1, YyR2, Act;
    var tail := [TArrayEnd] + rest;
    var input := SimplesTokens(ss) + tail;
    assert ValueTokens(Array(ss)) + rest == [TArrayStart] + input;
    var e16, e25 := Entry(16, Some(TArrayStart)), Entry(25, None);
    ArrayFacts(Top(base), Lookahead(input), ActionValue(base + [e16]), c);
    ShiftTo(base, TArrayStart, input, c, 16);
    ReduceEmpty(base + [e16], input, c, 13, 25);
    ValueStands(base);
    var o := Open(c, ArrayKind);
    if o.Ok? {
      RunSimples(base + [e16] + [e25], ss, tail, o.ctx);
      var p := ExecSimples(ss, o.ctx);
      if p.Ok? {
        ShiftTo(base + [e16] + [e25] + [Entry(34, None)], TArrayEnd, rest, p.ctx, 41);
        CloseUp(base, [e16, e25, Entry(34, None), Entry(41, Some(TArrayEnd))], rest, p.ctx, 14, 19, 18);
      }
    }
  }

  /** A closing bracket: reduce the aggregate, then reduce it to a value. */
  lemma CloseUp(base: seq<Entry>, top: seq<Entry>, rest: seq<Token>, c: Ctx, rule: int, g: int, unit: int)
    requires Standing(base) && ValueSpot(Top(base)) && |top| == 4
    requires Standing(base + [top[0]] + [top[1]] + [top[2]] + [top[3]])
    requires (rule, g, unit, top[3].state) in {(14, 19, 18, 41), (16, 20, 19, 43), (39, 24, 20, 44)}
    ensures Standing(Done(base, VALUE))
    ensures Run(base + [top[0]] + [top[1]] + [top[2]] + [top[3]], rest, c)
         == Resume(Close(c), Done(base, VALUE), rest)
  {
    hide Run, Close, StateAction, StateGoto, YyR1, YyR2, Act;
    assert base + [top[0]] + [top[1]] + [top[2]] + [top[3]] == base + top;
    ValueStands(base);
    CloseFacts(Top(base), rule, g, unit, top[3].state, Lookahead(rest), ActionValue(base + top), c);
    ReduceTo(base, top, rest, c, rule, g);
    if Close(c).Ok? {
      CloseFacts(Top(base), rule, g, unit, top[3].state, Lookahead(rest), None, Close(c).ctx);
      ReduceOne(base, Entry(g, None), rest, Close(c).ctx, unit, StateGoto(Top(base), VALUE));
    }
  }

  // ---------------------------------------------------------------------
  // Values, lists, groups and members.
  // ---------------------------------------------------------------------

  lemma {:induction false} RunValue(base: seq<Entry>, v: Value, rest: seq<Token>, c: Ctx)
    requires Standing(base) && ValueSpot(Top(base)) && Lookahead(rest) != 9
    ensures Standing(Done(base, VALUE))
    ensures Run(base, ValueTokens(v) + rest, c) == Resume(ExecValue(v, c), Done(base, VALUE), rest)
    decreases v, 2
  {
    match v
    case Plain(s) => RunPlain(base, s, rest, c);
    case Array(ss) => RunArray(base, ss, rest, c);
    case List(vs) => RunList(base, vs, rest, c);
    case Group(ms) => RunGroup(base, ms, rest, c);
  }

  lemma RunPlain(base: seq<Entry>, s: Simple, rest: seq<Token>, c: Ctx)
    requires Standing(base) && ValueSpot(Top(base)) && Lookahead(rest) != 9
    ensures Standing(Done(base, VALUE))
    ensures Run(base, ValueTokens(Plain(s)) + rest, c)
         == Resume(ExecValue(Plain(s), c), Done(base, VALUE), rest)
  {
    hide Run, SimpleTokens, ExecSimple;
    Push(base, Entry(StateGoto(Top(base), VALUE), None));
    RunSimple(base, s, rest, c);
    var o := ExecSimple(s, c);
    if o.Ok? {
      ReduceOne(base, Entry(23, None), rest, o.ctx, 17, StateGoto(Top(base), VALUE));
    }
  }

  lemma {:induction false} RunMoreValues(base: seq<Entry>, vs: seq<Value>, tail: seq<Token>, c: Ctx)
    requires base != [] && Top(base) == 26 && Standing(base + [Entry(36, None)])
    requires Lookahead(tail) == 16
    ensures Run(base + [Entry(36, None)], MoreValues(vs) + tail, c)
         == Resume(ExecValues(vs, c), base + [Entry(36, None)], tail)
    decreases vs, 3
  {
    hide Run, ValueTokens, ExecValue, StateAction, StateGoto, YyR1, YyR2, Act;
    var e36, e42 := Entry(36, None), Entry(42, Some(TComma));
    if vs == [] {
      assert MoreValues(vs) + tail == tail;
    } else {
      var after := MoreValues(vs[1..]) + tail;
      var input := ValueTokens(vs[0]) + after;
      assert MoreValues(vs) + tail == [TComma] + input;
      AfterValues(vs[1..], tail);
      CommaFacts(Lookahead(after), None, c);
      ShiftTo(base + [e36], TComma, input, c, 42);
      RunValue(base + [e36] + [e42], vs[0], after, c);
      var o := ExecValue(vs[0], c);
      if o.Ok? {
        assert base + [e36] + [e42] + [Entry(46, None)] == base + [e36, e42, Entry(46, None)];
        CommaFacts(Lookahead(after), ActionValue(base + [e36, e42, Entry(46, None)]), o.ctx);
        ReduceTo(base, [e36, e42, Entry(46, None)], after, o.ctx, 31, 36);
        RunMoreValues(base, vs[1..], tail, o.ctx);
      }
    }
  }

  lemma AfterValues(vs: seq<Value>, tail: seq<Token>)
    requires Lookahead(tail) == 16
    ensures Lookahead(MoreValues(vs) + tail) == 16 || Lookahead(MoreValues(vs) + tail) == 17
  {
  }

  lemma {:induction false} RunValues(base: seq<Entry>, vs: seq<Value>, tail: seq<Token>, c: Ctx)
    requires Standing(base) && Top(base) == 26 && Lookahead(tail) == 16
    ensures Standing(base + [Entry(37, None)])
    ensures Run(base, ValuesTokens(vs) + tail, c)
         == Resume(ExecValues(vs, c), base + [Entry(37, None)], tail)
    decreases vs, 4
  {
    hide Run, ValueTokens, ExecValue, MoreValues, Act, StateAction, StateGoto, YyR1, YyR2;
    Push(base, Entry(37, None));
    ValuesFacts(16);
    if vs == [] {
      assert ValuesTokens(vs) + tail == tail;
      ReduceEmpty(base, tail, c, 32, 37);
      Quiet(32, ActionValue(base), c);
    } else {
      var after := MoreValues(vs[1..]) + tail;
      assert ValuesTokens(vs) + tail == ValueTokens(vs[0]) + after;
      AfterValues(vs[1..], tail);
      ValuesFacts(Lookahead(after));
      RunValue(base, vs[0], after, c);
      var o := ExecValue(vs[0], c);
      if o.Ok? {
        ReduceOne(base, Entry(35, None), after, o.ctx, 30, 36);
        Quiet(30, None, o.ctx);
        RunMoreValues(base, vs[1..], tail, o.ctx);
        var o' := ExecValues(vs[1..], o.ctx);
        if o'.Ok? {
          ReduceOne(base, Entry(36, None), tail, o'.ctx, 33, 37);
          Quiet(33, None, o'.ctx);
        }
      }
    }
  }

  lemma {:induction false} RunList(base: seq<Entry>, vs: seq<Value>, rest: seq<Token>, c: Ctx)
    requires Standing(base) && ValueSpot(Top(base)) && Lookahead(rest) != 9
    ensures Standing(Done(base, VALUE))
    ensures Run(base, ValueTokens(List(vs)) + rest, c)
         == Resume(ExecValue(List(vs), c), Done(base, VALUE), rest)
    decreases vs, 5
  {
    hide Run, ValuesTokens, ExecValues, Open, Close, StateAction, StateGoto, YyR1, YyR2, Act;
    var tail := [TListEnd] + rest;
    var input := ValuesTokens(vs) + tail;
    assert ValueTokens(List(vs)) + rest == [TListStart] + input;
    var e17, e26 := Entry(17, Some(TListStart)), Entry(26, None);
    ListFacts(Top(base), Lookahead(input), ActionValue(base + [e17]), c);
    ShiftTo(base, TListStart, input, c, 17);
    ReduceEmpty(base + [e17], input, c, 15, 26);
    ValueStands(base);
    var o := Open(c, ListKind);
    if o.Ok? {
      RunValues(base + [e17] + [e26], vs, tail, o.ctx);
      var p := ExecValues(vs, o.ctx);
      if p.Ok? {
        ShiftTo(base + [e17] + [e26] + [Entry(37, None)], TListEnd, rest, p.ctx, 43);
        CloseUp(base, [e17, e26, Entry(37, None), Entry(43, Some(TListEnd))], rest, p.ctx, 16, 20, 19);
      }
    }
  }

  /** What may follow a member. */
  predicate MemberFollow(t: int) { t == 0 || t == 10 || t == 19 }

  lemma {:induction false} RunMember(base: seq<Entry>, m: Member, rest: seq<Token>, c: Ctx)
    requires Standing(base) && MemberSpot(Top(base)) && MemberFollow(Lookahead(rest))
    ensures Standing(Done(base, 28))
    ensures Run(base, MemberTokens(m) + rest, c) == Resume(ExecMember(m, c), Done(base, 28), rest)
    decreases m, 3
  {
    hide Run, ValueTokens, ExecValue, BeginSetting;
    var after := EndTokens(m.end) + rest;
    var name := TName(m.name);
    var input := ValueTokens(m.value) + after;
    assert MemberTokens(m) + rest == [name] + ([TEquals] + input);
    var e1, e5, e8 := Entry(1, Some(name)), Entry(5, None), Entry(8, Some(TEquals));
    Push(base, Entry(StateGoto(Top(base), 28), None));
    ShiftTo(base, name, [TEquals] + input, c, 1);
    ReduceEmpty(base + [e1], [TEquals] + input, c, 11, 5);
    var o := BeginSetting(c, m.name);
    if o.Ok? {
      ShiftTo(base + [e1] + [e5], TEquals, input, o.ctx, 8);
      EndFollow(m.end, rest);
      RunValue(base + [e1] + [e5] + [e8], m.value, after, o.ctx);
      var p := ExecValue(m.value, o.ctx);
      if p.Ok? {
        RunEnd(base, [e1, e5, e8], m.end, rest, p.ctx);
      }
    }
  }

  lemma EndFollow(end: Terminator, rest: seq<Token>)
    requires MemberFollow(Lookahead(rest))
    ensures Lookahead(EndTokens(end) + rest) != 9
  {
  }

  /** The terminator, and the member itself. */
  lemma RunEnd(base: seq<Entry>, top: seq<Entry>, end: Terminator, rest: seq<Token>, c: Ctx)
    requires Standing(base) && MemberSpot(Top(base)) && MemberFollow(Lookahead(rest))
    requires |top| == 3 && Standing(base + [top[0]] + [top[1]] + [top[2]] + [Entry(21, None)])
    requires top[2].state == 8
    ensures Standing(Done(base, 28))
    ensures Run(base + [top[0]] + [top[1]] + [top[2]] + [Entry(21, None)], EndTokens(end) + rest, c)
         == Run(Done(base, 28), rest, c)
  {
    hide Run;
    var at := base + [top[0]] + [top[1]] + [top[2]] + [Entry(21, None)];
    var e30 := Entry(30, None);
    match end {
      case NoEnd =>
        assert EndTokens(end) + rest == rest;
        ReduceEmpty(at, rest, c, 8, 30);
      case CommaEnd =>
        ShiftTo(at, TComma, rest, c, 28);
        ReduceOne(at, Entry(28, Some(TComma)), rest, c, 10, 30);
      case SemicolonEnd =>
        ShiftTo(at, TSemicolon, rest, c, 29);
        ReduceOne(at, Entry(29, Some(TSemicolon)), rest, c, 9, 30);
    }
    RunFinish(base, top, rest, c);
  }

  lemma RunFinish(base: seq<Entry>, top: seq<Entry>, rest: seq<Token>, c: Ctx)
    requires Standing(base) && MemberSpot(Top(base)) && |top| == 3
    requires Standing(base + [top[0]] + [top[1]] + [top[2]] + [Entry(21, None)] + [Entry(30, None)])
    ensures Standing(Done(base, 28))
    ensures Run(base + [top[0]] + [top[1]] + [top[2]] + [Entry(21, None)] + [Entry(30, None)], rest, c)
         == Run(Done(base, 28), rest, c)
  {
    hide Run;
    var all := top + [Entry(21, None), Entry(30, None)];
    assert base + [top[0]] + [top[1]] + [top[2]] + [Entry(21, None)] + [Entry(30, None)] == base + all;
    ReduceTo(base, all, rest, c, 12, StateGoto(Top(base), 28));
  }

  /** Where a setting list ends up on the start state, or inside a group. */
  predicate ListSpot(s: int, list: int) { (s == 0 && list == 3) || (s == 27 && list == 38) }

  predicate ListFollow(s: int, t: int) { (s == 0 && t == 0) || (s == 27 && t == 19) }

  lemma {:induction false} RunMoreMembers(base: seq<Entry>, list: int, ms: seq<Member>, tail: seq<Token>, c: Ctx)
    requires base != [] && ListSpot(Top(base), list) && Standing(base + [Entry(list, None)])
    requires ListFollow(Top(base), Lookahead(tail))
    ensures Run(base + [Entry(list, None)], MembersTokens(ms) + tail, c)
         == Resume(ExecMembers(ms, c), base + [Entry(list, None)], tail)
    decreases ms, 4
  {
    hide Run, MemberTokens, ExecMember;
    if ms == [] {
      assert MembersTokens(ms) + tail == tail;
    } else {
      var after := MembersTokens(ms[1..]) + tail;
      assert MembersTokens(ms) + tail == MemberTokens(ms[0]) + after;
      AfterMembers(ms[1..], tail);
      RunMember(base + [Entry(list, None)], ms[0], after, c);
      var o := ExecMember(ms[0], c);
      if o.Ok? {
        assert base + [Entry(list, None)] + [Entry(7, None)] == base + [Entry(list, None), Entry(7, None)];
        ReduceTo(base, [Entry(list, None), Entry(7, None)], after, o.ctx, 5, list);
        RunMoreMembers(base, list, ms[1..], tail, o.ctx);
      }
    }
  }

  lemma AfterMembers(ms: seq<Member>, tail: seq<Token>)
    requires MemberFollow(Lookahead(tail))
    ensures MemberFollow(Lookahead(MembersTokens(ms) + tail))
  {
  }

  /** The moves around the first member of a setting list, and at the end of the list. */
  lemma SettingsFacts(s: int, list: int, after: int, t: int)
    requires ListSpot(s, list) && ListFollow(s, t) && MemberFollow(after)
    ensures MemberSpot(s) && StateGoto(s, 28) == 4 && StateAction(4, after) == Reduce(4)
    ensures YyR2(4) == 1 && StateGoto(s, YyR1(4)) == list
    ensures
      var rule, nt := if s == 0 then 3 else 7, if s == 0 then 24 else 26;
      StateAction(list, t) == Reduce(rule) && YyR2(rule) == 1 && YyR1(rule) == nt
  {
  }

  lemma SettingsStand(base: seq<Entry>)
    requires Standing(base) && (Top(base) == 0 || Top(base) == 27)
    ensures Standing(Done(base, if Top(base) == 0 then 24 else 26))
  {
    Push(base, Entry(StateGoto(Top(base), if Top(base) == 0 then 24 else 26), None));
  }

  lemma RunNoMembers(base: seq<Entry>, tail: seq<Token>, c: Ctx)
    requires Standing(base) && ListFollow(Top(base), Lookahead(tail))
    ensures Standing(Done(base, if Top(base) == 0 then 24 else 26))
    ensures Run(base, MembersTokens([]) + tail, c) == Run(Done(base, if Top(base) == 0 then 24 else 26), tail, c)
  {
    hide Run, Act;
    var nt := if Top(base) == 0 then 24 else 26;
    var rule := if nt == 24 then 2 else 6;
    assert MembersTokens([]) + tail == tail;
    ReduceEmpty(base, tail, c, rule, StateGoto(Top(base), nt));
    Quiet(rule, ActionValue(base), c);
  }

  /** A setting list, optional in a group or at the top level. */
  lemma {:induction false} RunMembers(base: seq<Entry>, ms: seq<Member>, tail: seq<Token>, c: Ctx)
    requires Standing(base) && ListFollow(Top(base), Lookahead(tail))
    ensures Standing(Done(base, if Top(base) == 0 then 24 else 26))
    ensures Run(base, MembersTokens(ms) + tail, c)
         == Resume(ExecMembers(ms, c), Done(base, if Top(base) == 0 then 24 else 26), tail)
    decreases ms, 5
  {
    hide Run, MemberTokens, ExecMember, Act, StateAction, StateGoto, YyR1, YyR2;
    var nt, list := if Top(base) == 0 then 24 else 26, if Top(base) == 0 then 3 else 38;
    var g := StateGoto(Top(base), nt);
    SettingsStand(base);
    if ms == [] {
      RunNoMembers(base, tail, c);
    } else {
      var after := MembersTokens(ms[1..]) + tail;
      assert MembersTokens(ms) + tail == MemberTokens(ms[0]) + after;
      AfterMembers(ms[1..], tail);
      SettingsFacts(Top(base), list, Lookahead(after), Lookahead(tail));
      RunMember(base, ms[0], after, c);
      var o := ExecMember(ms[0], c);
      if o.Ok? {
        ReduceOne(base, Entry(4, None), after, o.ctx, 4, list);
        Quiet(4, None, o.ctx);
        RunMoreMembers(base, list, ms[1..], tail, o.ctx);
        var o' := ExecMembers(ms[1..], o.ctx);
        if o'.Ok? {
          var rule := if nt == 24 then 3 else 7;
          ReduceOne(base, Entry(list, None), tail, o'.ctx, rule, g);
          Quiet(rule, None, o'.ctx);
        }
      }
    }
  }

  lemma {:induction false} RunGroup(base: seq<Entry>, ms: seq<Member>, rest: seq<Token>, c: Ctx)
    requires Standing(base) && ValueSpot(Top(base)) && Lookahead(rest) != 9
    ensures Standing(Done(base, VALUE))
    ensures Run(base, ValueTokens(Group(ms)) + rest, c)
         == Resume(ExecValue(Group(ms), c), Done(base, VALUE), rest)
    decreases ms, 6
  {
    hide Run, MembersTokens, ExecMembers, Open, Close, StateAction, StateGoto, YyR1, YyR2, Act;
    var tail := [TGroupEnd] + rest;
    var input := MembersTokens(ms) + tail;
    assert ValueTokens(Group(ms)) + rest == [TGroupStart] + input;
    var e18, e27 := Entry(18, Some(TGroupStart)), Entry(27, None);
    GroupFacts(Top(base), Lookahead(input), ActionValue(base + [e18]), c);
    ShiftTo(base, TGroupStart, input, c, 18);
    ReduceEmpty(base + [e18], input, c, 38, 27);
    ValueStands(base);
    var o := Open(c, GroupKind);
    if o.Ok? {
      RunMembers(base + [e18] + [e27], ms, tail, o.ctx);
      var p := ExecMembers(ms, o.ctx);
      if p.Ok? {
        ShiftTo(base + [e18] + [e27] + [Entry(39, None)], TGroupEnd, rest, p.ctx, 44);
        CloseUp(base, [e18, e27, Entry(39, None), Entry(44, Some(TGroupEnd))], rest, p.ctx, 39, 24, 20);
      }
    }
  }

  /**
   On the tokens of any configuration the parser accepts, or aborts in the first
   action that fails; the actions it performs are those of the tree.
   */
  lemma ParseTree(ms: seq<Member>)
    ensures
      var o := ExecMembers(ms, INITIAL);
      Parse(MembersTokens(ms)) == if o.Ok? then Accepted(o.ctx) else Aborted(o.error)
  {
    hide ExecMembers, MembersTokens, Act;
    assert States(BOTTOM) == [0];
    assert MembersTokens(ms) + [] == MembersTokens(ms);
    RunMembers(BOTTOM, ms, [], INITIAL);
    var o := ExecMembers(ms, INITIAL);
    if o.Ok? {
      var stack := BOTTOM + [Entry(2, None)];
      DecodeAction(2, 0);
      RunShift(stack, [], o.ctx);
    }
  }
}
