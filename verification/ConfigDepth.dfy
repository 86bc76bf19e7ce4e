/**
 How deep the parser's stack gets: exactly as deep as a function of the concrete
 syntax says, so that it is known which configurations exhaust it.
 */
module ConfigDepth {
  import opened Options
  import opened ConfigStore
  import opened ConfigActions
  import opened ConfigTables
  import opened ConfigParser
  import opened ConfigSyntax
  import opened ConfigComplete
  import opened ConfigYyparse

  // ---------------------------------------------------------------------
  // Stack entries that a construct needs above its base.
  // ---------------------------------------------------------------------

  /** A string of several parts needs a second entry. */
  function SimpleDepth(s: Simple): (r: nat)
    ensures 1 <= r <= 2
  {
    if s.SString? && s.more != [] then 2 else 1
  }

  /** Further elements of an array, after a comma each. */
  function MoreSimplesDepth(ss: seq<Simple>): (r: nat)
    ensures 1 <= r <= 4
  {
    if ss == [] then 1 else Max(2 + SimpleDepth(ss[0]), MoreSimplesDepth(ss[1..]))
  }

  function SimplesDepth(ss: seq<Simple>): (r: nat)
    ensures 1 <= r <= 4
  {
    if ss == [] then 1 else Max(SimpleDepth(ss[0]), MoreSimplesDepth(ss[1..]))
  }

  function ValueDepth(v: Value): (r: nat)
    ensures r >= 1
    decreases v, 1
  {
    match v
    case Plain(s) => SimpleDepth(s)
    case Array(ss) => Max(4, 2 + SimplesDepth(ss))
    case List(vs) => Max(4, 2 + ValuesDepth(vs))
    case Group(ms) => Max(4, 2 + MembersDepth(ms))
  }

  function MoreValuesDepth(vs: seq<Value>): (r: nat)
    ensures r >= 1
    decreases vs, 0
  {
    if vs == [] then 1 else Max(2 + ValueDepth(vs[0]), MoreValuesDepth(vs[1..]))
  }

  function ValuesDepth(vs: seq<Value>): (r: nat)
    ensures r >= 1
    decreases vs, 0
  {
    if vs == [] then 1 else Max(ValueDepth(vs[0]), MoreValuesDepth(vs[1..]))
  }

  function MemberDepth(m: Member): (r: nat)
    ensures r >= 5
    decreases m, 0
  {
    Max(5, 3 + ValueDepth(m.value))
  }

  /** Further members stand on the list of those before them. */
  function MoreMembersDepth(ms: seq<Member>): (r: nat)
    ensures r >= 1
    decreases ms, 0
  {
    if ms == [] then 1 else Max(1 + MemberDepth(ms[0]), MoreMembersDepth(ms[1..]))
  }

  function MembersDepth(ms: seq<Member>): (r: nat)
    ensures r >= 1
    decreases ms, 0
  {
    if ms == [] then 1 else Max(MemberDepth(ms[0]), MoreMembersDepth(ms[1..]))
  }

  /** The size of the stack for a whole configuration. */
  function StackSize(ms: seq<Member>): nat
  {
    Max(3, 1 + MembersDepth(ms))
  }

  // ---------------------------------------------------------------------
  // One move of the parser.
  // ---------------------------------------------------------------------

  /**
   Some actions take the parser from one stack and input to another: if they succeed,
   the deepest stack is of the given size, or comes later; if they fail, it is within the size.
   */
  ghost predicate Exact(
    stack: seq<Entry>, input: seq<Token>, c: Ctx, size: nat, o: Outcome, stack': seq<Entry>, input': seq<Token>)
    requires Standing(stack) && Standing(stack')
  {
    if o.Ok? then Deepest(stack, input, c) == Max(size, Deepest(stack', input', o.ctx))
    else Deepest(stack, input, c) <= size
  }

  lemma ShiftDeep(base: seq<Entry>, tok: Token, rest: seq<Token>, c: Ctx, g: int)
    requires Standing(base) && Top(base) != YYFINAL
    requires StateAction(Top(base), Sym(tok)) == Shift(g)
    ensures Standing(base + [Entry(g, Some(tok))])
    ensures Deepest(base, [tok] + rest, c) == Deepest(base + [Entry(g, Some(tok))], rest, c) > |base|
  {
    hide Deepest, Run, StateAction, TableAction, Below, Rank, Sym, YyStos;
    ShiftTo(base, tok, rest, c, g);
    var input := [tok] + rest;
    assert States(base)[|base| - 1] == Top(base);
    assert Lookahead(input) == Sym(tok);
    DecodeAction(Top(base), Sym(tok));
    DeepestShift(base, input, c);
    assert input[1..] == rest;
    DeepestAtLeast(base + [Entry(g, Some(tok))], rest, c);
  }

  lemma ReduceDeep(base: seq<Entry>, top: seq<Entry>, input: seq<Token>, c: Ctx, rule: int, g: int)
    requires Standing(base + top) && base != [] && Top(base + top) != YYFINAL
    requires StateAction(Top(base + top), Lookahead(input)) == Reduce(rule)
    requires |top| == YyR2(rule) && StateGoto(Top(base), YyR1(rule)) == g
    ensures Standing(base + [Entry(g, None)])
    ensures Exact(base + top, input, c, |base| + |top|, Act(rule, ActionValue(base + top), c),
                  base + [Entry(g, None)], input)
  {
    hide Deepest, Run, StateAction, TableAction, Below, Rank, Sym, YyStos, StateGoto, TableGoto, YyR1, YyR2,
         YyDefact, YyRhs, Act;
    ReduceTo(base, top, input, c, rule, g);
    var stack := base + top;
    assert States(stack)[|stack| - 1] == Top(stack);
    DecodeAction(Top(stack), Lookahead(input));
    ReduceIsDefault(Top(stack), Lookahead(input));
    ReduceOk(States(stack));
    ReduceStack(stack);
    var m := |stack| - YyR2(rule);
    assert m == |base| && stack[..m] == base;
    assert States(stack)[m - 1] == stack[m - 1].state == Top(base);
    DecodeGoto(Top(base), YyR1(rule));
    DeepestReduce(stack, input, c);
  }

  lemma EmptyDeep(base: seq<Entry>, input: seq<Token>, c: Ctx, rule: int, g: int)
    requires Standing(base) && Top(base) != YYFINAL
    requires StateAction(Top(base), Lookahead(input)) == Reduce(rule)
    requires YyR2(rule) == 0 && StateGoto(Top(base), YyR1(rule)) == g
    ensures Standing(base + [Entry(g, None)])
    ensures Exact(base, input, c, |base|, Act(rule, ActionValue(base), c), base + [Entry(g, None)], input)
  {
    hide Deepest, StateAction, StateGoto, YyR1, YyR2, Act, Exact;
    assert base + [] == base;
    ReduceDeep(base, [], input, c, rule, g);
  }

  lemma UnitDeep(base: seq<Entry>, e: Entry, input: seq<Token>, c: Ctx, rule: int, g: int)
    requires base != [] && Standing(base + [e]) && e.state != YYFINAL
    requires StateAction(e.state, Lookahead(input)) == Reduce(rule)
    requires YyR2(rule) == 1 && StateGoto(Top(base), YyR1(rule)) == g
    ensures Standing(base + [Entry(g, None)])
    ensures Exact(base + [e], input, c, |base| + 1, Act(rule, e.val, c), base + [Entry(g, None)], input)
  {
    hide Deepest, StateAction, StateGoto, YyR1, YyR2, Act, Exact;
    ReduceDeep(base, [e], input, c, rule, g);
  }

  /** A finished construct is at least one entry above its base. */
  lemma AtLeast(stack: seq<Entry>, input: seq<Token>, c: Ctx)
    requires Standing(stack)
    ensures Deepest(stack, input, c) >= |stack|
  {
    hide Deepest;
    DeepestAtLeast(stack, input, c);
  }

  // ---------------------------------------------------------------------
  // Scalars.
  // ---------------------------------------------------------------------

  lemma TokenDeep(base: seq<Entry>, tok: Token, rest: seq<Token>, c: Ctx, rule: int)
    requires Standing(base) && SimpleSpot(Top(base))
    requires 3 <= Sym(tok) <= 8 && rule == YyDefact(Sym(tok) + 6)
    ensures Standing(Done(base, SIMPLE))
    ensures Exact(base, [tok] + rest, c, |base| + 1, Act(rule, Some(tok), c), Done(base, SIMPLE), rest)
  {
    hide Deepest, Act;
    ShiftDeep(base, tok, rest, c, Sym(tok) + 6);
    UnitDeep(base, Entry(Sym(tok) + 6, Some(tok)), rest, c, rule, StateGoto(Top(base), SIMPLE));
  }

  lemma StringActs(part: string, c: Ctx)
    ensures Act(21, Some(TString(part)), c) == Act(22, Some(TString(part)), c) == AppendString(c, part)
    ensures Act(29, None, c) == TakeString(c)
  {
  }

  lemma PartDeep(base: seq<Entry>, part: string, tail: seq<Token>, c: Ctx)
    requires base != [] && SimpleSpot(Top(base)) && Standing(base + [Entry(STRING_STATE, None)])
    ensures Exact(base + [Entry(STRING_STATE, None)], [TString(part)] + tail, c, |base| + 2,
                  AppendString(c, part), base + [Entry(STRING_STATE, None)], tail)
  {
    hide Deepest, StateAction, StateGoto, Act, YyR1, YyR2;
    var top := base + [Entry(STRING_STATE, None)];
    var e := Entry(31, Some(TString(part)));
    PartFacts(Top(base), tail);
    StringActs(part, c);
    ShiftDeep(top, TString(part), tail, c, 31);
    TwoMore(base, Entry(STRING_STATE, None), e);
    ReduceDeep(base, [Entry(STRING_STATE, None), e], tail, c, 22, STRING_STATE);
  }

  lemma TwoMore(base: seq<Entry>, d: Entry, e: Entry)
    ensures base + [d] + [e] == base + [d, e]
  {
  }

  lemma {:induction false} PartsDeep(base: seq<Entry>, parts: seq<string>, rest: seq<Token>, c: Ctx)
    requires base != [] && SimpleSpot(Top(base)) && Standing(base + [Entry(STRING_STATE, None)])
    requires Lookahead(rest) != 9
    ensures Deepest(base + [Entry(STRING_STATE, None)], PartTokens(parts) + rest, c)
         == Max(if parts == [] then 0 else |base| + 2,
                Deepest(base + [Entry(STRING_STATE, None)], rest, ExecParts(parts, c)))
    decreases |parts|
  {
    hide Deepest, Standing;
    if parts == [] {
      assert PartTokens(parts) + rest == rest;
    } else {
      var tail := PartTokens(parts[1..]) + rest;
      assert PartTokens(parts) + rest == [TString(parts[0])] + tail;
      PartsDeep(base, parts[1..], rest, AppendString(c, parts[0]).ctx);
      PartDeep(base, parts[0], tail, c);
    }
  }

  lemma StringFacts(s: int, tail: seq<Token>, rest: seq<Token>)
    requires SimpleSpot(s) && Lookahead(rest) != 9
    ensures StateAction(s, 9) == Shift(15)
    ensures StateAction(15, Lookahead(tail)) == Reduce(21) && StateAction(STRING_STATE, Lookahead(rest)) == Reduce(29)
    ensures YyR2(21) == 1 && StateGoto(s, YyR1(21)) == STRING_STATE
    ensures YyR2(29) == 1 && YyR1(29) == SIMPLE
  {
  }

  lemma StringDeep(base: seq<Entry>, first: string, more: seq<string>, rest: seq<Token>, c: Ctx)
    requires Standing(base) && SimpleSpot(Top(base)) && Lookahead(rest) != 9
    ensures Standing(Done(base, SIMPLE))
    ensures Exact(base, [TString(first)] + PartTokens(more) + rest, c, |base| + SimpleDepth(SString(first, more)),
                  TakeString(ExecParts([first] + more, c)), Done(base, SIMPLE), rest)
  {
    hide Deepest, TakeString, StateAction, StateGoto, Act, YyR1, YyR2;
    StringFacts(Top(base), PartTokens(more) + rest, rest);
    StringActs(first, c);
    var tok := TString(first);
    var tail := PartTokens(more) + rest;
    assert [tok] + PartTokens(more) + rest == [tok] + tail;
    ShiftDeep(base, tok, tail, c, 15);
    UnitDeep(base, Entry(15, Some(tok)), tail, c, 21, STRING_STATE);
    var c1 := AppendString(c, first).ctx;
    assert ([first] + more)[1..] == more;
    StringActs(first, ExecParts(more, c1));
    UnitDeep(base, Entry(STRING_STATE, None), rest, ExecParts(more, c1), 29, StateGoto(Top(base), SIMPLE));
    PartsDeep(base, more, rest, c1);
    AtLeast(base + [Entry(STRING_STATE, None)], rest, ExecParts(more, c1));
  }

  lemma SimpleDeep(base: seq<Entry>, s: Simple, rest: seq<Token>, c: Ctx)
    requires Standing(base) && SimpleSpot(Top(base)) && Lookahead(rest) != 9
    ensures Standing(Done(base, SIMPLE))
    ensures Exact(base, SimpleTokens(s) + rest, c, |base| + SimpleDepth(s), ExecSimple(s, c), Done(base, SIMPLE), rest)
  {
    hide Exact, Done, Scalar, TakeString, ExecParts, PartTokens, StateAction, StateGoto;
    match s
    case SBool(i) => TokenDeep(base, TBoolean(i), rest, c, 23);
    case SInt(i) => TokenDeep(base, TInteger(i), rest, c, 24);
    case SHex(i) => TokenDeep(base, THex(i), rest, c, 26);
    case SInt64(l) => TokenDeep(base, TInteger64(l), rest, c, 25);
    case SHex64(l) => TokenDeep(base, THex64(l), rest, c, 27);
    case SFloat(text) => TokenDeep(base, TFloat(text), rest, c, 28);
    case SString(first, more) => StringDeep(base, first, more, rest, c);
  }

  // ---------------------------------------------------------------------
  // Arrays.
  // ---------------------------------------------------------------------

  lemma {:induction false} MoreSimplesDeep(base: seq<Entry>, ss: seq<Simple>, tail: seq<Token>, c: Ctx)
    requires base != [] && Top(base) == 25 && Standing(base + [Entry(33, None)])
    requires Lookahead(tail) == 14
    ensures Exact(base + [Entry(33, None)], MoreSimples(ss) + tail, c, |base| + MoreSimplesDepth(ss),
                  ExecSimples(ss, c), base + [Entry(33, None)], tail)
    decreases |ss|
  {
    hide Deepest, SimpleTokens, ExecSimple, SimpleDepth;
    var at := base + [Entry(33, None)];
    if ss == [] {
      assert MoreSimples(ss) + tail == tail;
      AtLeast(at, tail, c);
    } else {
      var after := MoreSimples(ss[1..]) + tail;
      assert MoreSimples(ss) + tail == [TComma] + (SimpleTokens(ss[0]) + after);
      AfterSimples(ss[1..], tail);
      NextSimpleDeep(base, ss[0], after, c);
      var o := ExecSimple(ss[0], c);
      if o.Ok? {
        MoreSimplesDeep(base, ss[1..], tail, o.ctx);
      }
    }
  }

  /** One more element after a comma. */
  lemma NextSimpleDeep(base: seq<Entry>, s: Simple, after: seq<Token>, c: Ctx)
    requires base != [] && Top(base) == 25 && Standing(base + [Entry(33, None)])
    requires Lookahead(after) == 14 || Lookahead(after) == 17
    ensures Exact(base + [Entry(33, None)], [TComma] + (SimpleTokens(s) + after), c, |base| + 2 + SimpleDepth(s),
                  ExecSimple(s, c), base + [Entry(33, None)], after)
  {
    hide Deepest, SimpleTokens, ExecSimple, SimpleDepth, StateAction, StateGoto, YyR1, YyR2, Act;
    var e33, e40 := Entry(33, None), Entry(40, Some(TComma));
    CommaFacts(Lookahead(after), None, c);
    ShiftDeep(base + [e33], TComma, SimpleTokens(s) + after, c, 40);
    SimpleDeep(base + [e33] + [e40], s, after, c);
    var o := ExecSimple(s, c);
    if o.Ok? {
      ThreeMore(base, e33, e40, Entry(45, None));
      CommaFacts(Lookahead(after), ActionValue(base + [e33, e40, Entry(45, None)]), o.ctx);
      ReduceDeep(base, [e33, e40, Entry(45, None)], after, o.ctx, 35, 33);
    }
  }

  lemma ThreeMore(base: seq<Entry>, d: Entry, e: Entry, f: Entry)
    ensures base + [d] + [e] + [f] == base + [d, e, f]
  {
  }

  lemma SimplesDeep(base: seq<Entry>, ss: seq<Simple>, tail: seq<Token>, c: Ctx)
    requires Standing(base) && Top(base) == 25 && Lookahead(tail) == 14
    ensures Standing(base + [Entry(34, None)])
    ensures Exact(base, SimplesTokens(ss) + tail, c, |base| + SimplesDepth(ss),
                  ExecSimples(ss, c), base + [Entry(34, None)], tail)
  {
    hide Deepest, SimpleTokens, ExecSimple, MoreSimples, Act, SimpleDepth, MoreSimplesDepth, StateAction, StateGoto, YyR1, YyR2;
    Push(base, Entry(34, None));
    SimplesFacts(14);
    if ss == [] {
      assert SimplesTokens(ss) + tail == tail;
      Quiet(36, ActionValue(base), c);
      EmptyDeep(base, tail, c, 36, 34);
      AtLeast(base + [Entry(34, None)], tail, c);
    } else {
      var after := MoreSimples(ss[1..]) + tail;
      assert SimplesTokens(ss) + tail == SimpleTokens(ss[0]) + after;
      AfterSimples(ss[1..], tail);
      SimplesFacts(Lookahead(after));
      SimpleDeep(base, ss[0], after, c);
      var o := ExecSimple(ss[0], c);
      if o.Ok? {
        Quiet(34, None, o.ctx);
        UnitDeep(base, Entry(32, None), after, o.ctx, 34, 33);
        MoreSimplesDeep(base, ss[1..], tail, o.ctx);
        var o' := ExecSimples(ss[1..], o.ctx);
        if o'.Ok? {
          Quiet(37, None, o'.ctx);
          UnitDeep(base, Entry(33, None), tail, o'.ctx, 37, 34);
        }
      }
    }
  }

  lemma CloseDeep(base: seq<Entry>, top: seq<Entry>, rest: seq<Token>, c: Ctx, rule: int, g: int, unit: int)
    requires Standing(base) && ValueSpot(Top(base)) && |top| == 4
    requires Standing(base + [top[0]] + [top[1]] + [top[2]] + [top[3]])
    requires (rule, g, unit, top[3].state) in {(14, 19, 18, 41), (16, 20, 19, 43), (39, 24, 20, 44)}
    ensures Standing(Done(base, VALUE))
    ensures Exact(base + [top[0]] + [top[1]] + [top[2]] + [top[3]], rest, c, |base| + 4,
                  Close(c), Done(base, VALUE), rest)
  {
    hide Deepest, Close, StateAction, StateGoto, YyR1, YyR2, Act;
    ValueStands(base);
    CloseFacts(Top(base), rule, g, unit, top[3].state, Lookahead(rest), ActionValue(base + top), c);
    assert base + [top[0]] + [top[1]] + [top[2]] + [top[3]] == base + top;
    ReduceDeep(base, top, rest, c, rule, g);
    if Close(c).Ok? {
      CloseFacts(Top(base), rule, g, unit, top[3].state, Lookahead(rest), None, Close(c).ctx);
      UnitDeep(base, Entry(g, None), rest, Close(c).ctx, unit, StateGoto(Top(base), VALUE));
    }
  }

  lemma ArrayDeep(base: seq<Entry>, ss: seq<Simple>, rest: seq<Token>, c: Ctx)
    requires Standing(base) && ValueSpot(Top(base)) && Lookahead(rest) != 9
    ensures Standing(Done(base, VALUE))
    ensures Exact(base, ValueTokens(Array(ss)) + rest, c, |base| + ValueDepth(Array(ss)),
                  ExecValue(Array(ss), c), Done(base, VALUE), rest)
  {
    hide Deepest, SimplesTokens, ExecSimples, Open, Close, SimplesDepth, StateAction, StateGoto, YyR1, YyR2, Act;
    ValueStands(base);
    var tail := [TArrayEnd] + rest;
    var input := SimplesTokens(ss) + tail;
    assert ValueTokens(Array(ss)) + rest == [TArrayStart] + input;
    var e16, e25 := Entry(16, Some(TArrayStart)), Entry(25, None);
    ArrayFacts(Top(base), Lookahead(input), ActionValue(base + [e16]), c);
    ShiftDeep(base, TArrayStart, input, c, 16);
    EmptyDeep(base + [e16], input, c, 13, 25);
    var o := Open(c, ArrayKind);
    if o.Ok? {
      var at := base + [e16] + [e25];
      SimplesDeep(at, ss, tail, o.ctx);
      var p := ExecSimples(ss, o.ctx);
      if p.Ok? {
        ShiftDeep(at + [Entry(34, None)], TArrayEnd, rest, p.ctx, 41);
        CloseDeep(base, [e16, e25, Entry(34, None), Entry(41, Some(TArrayEnd))], rest, p.ctx, 14, 19, 18);
      }
    }
  }

  // ---------------------------------------------------------------------
  // Values, lists, groups and members.
  // ---------------------------------------------------------------------

  lemma PlainDeep(base: seq<Entry>, s: Simple, rest: seq<Token>, c: Ctx)
    requires Standing(base) && ValueSpot(Top(base)) && Lookahead(rest) != 9
    ensures Standing(Done(base, VALUE))
    ensures Exact(base, SimpleTokens(s) + rest, c, |base| + SimpleDepth(s), ExecSimple(s, c), Done(base, VALUE), rest)
  {
    hide Deepest, SimpleTokens, ExecSimple, SimpleDepth;
    Push(base, Entry(StateGoto(Top(base), VALUE), None));
    SimpleDeep(base, s, rest, c);
    var o := ExecSimple(s, c);
    if o.Ok? {
      UnitDeep(base, Entry(23, None), rest, o.ctx, 17, StateGoto(Top(base), VALUE));
    }
  }

  lemma {:induction false} ValueDeep(base: seq<Entry>, v: Value, rest: seq<Token>, c: Ctx)
    requires Standing(base) && ValueSpot(Top(base)) && Lookahead(rest) != 9
    ensures Standing(Done(base, VALUE))
    ensures Exact(base, ValueTokens(v) + rest, c, |base| + ValueDepth(v), ExecValue(v, c), Done(base, VALUE), rest)
    decreases v, 2
  {
    hide Exact, Done;
    match v
    case Plain(s) => PlainDeep(base, s, rest, c);
    case Array(ss) => ArrayDeep(base, ss, rest, c);
    case List(vs) => ListDeep(base, vs, rest, c);
    case Group(ms) => GroupDeep(base, ms, rest, c);
  }

  lemma {:induction false} MoreValuesDeep(base: seq<Entry>, vs: seq<Value>, tail: seq<Token>, c: Ctx)
    requires base != [] && Top(base) == 26 && Standing(base + [Entry(36, None)])
    requires Lookahead(tail) == 16
    ensures Exact(base + [Entry(36, None)], MoreValues(vs) + tail, c, |base| + MoreValuesDepth(vs),
                  ExecValues(vs, c), base + [Entry(36, None)], tail)
    decreases vs, 3
  {
    hide Deepest, ValueTokens, ExecValue, ValueDepth, StateAction, StateGoto, YyR1, YyR2, Act;
    var at := base + [Entry(36, None)];
    if vs == [] {
      assert MoreValues(vs) + tail == tail;
      AtLeast(at, tail, c);
    } else {
      var after := MoreValues(vs[1..]) + tail;
      assert MoreValues(vs) + tail == [TComma] + (ValueTokens(vs[0]) + after);
      AfterValues(vs[1..], tail);
      var e36, e42 := Entry(36, None), Entry(42, Some(TComma));
      CommaFacts(Lookahead(after), None, c);
      ShiftDeep(at, TComma, ValueTokens(vs[0]) + after, c, 42);
      ValueDeep(base + [e36] + [e42], vs[0], after, c);
      var o := ExecValue(vs[0], c);
      if o.Ok? {
        NextValueDeep(base, after, o.ctx);
        MoreValuesDeep(base, vs[1..], tail, o.ctx);
      }
    }
  }

  /** One more element is reduced into the list of those before it. */
  lemma NextValueDeep(base: seq<Entry>, after: seq<Token>, c: Ctx)
    requires base != [] && Top(base) == 26 && (Lookahead(after) == 16 || Lookahead(after) == 17)
    requires Standing(base + [Entry(36, None)] + [Entry(42, Some(TComma))])
    ensures
      var stack := base + [Entry(36, None)] + [Entry(42, Some(TComma))];
      && Standing(Done(stack, VALUE)) && Standing(base + [Entry(36, None)])
      && Exact(Done(stack, VALUE), after, c, |base| + 3, Ok(c), base + [Entry(36, None)], after)
  {
    hide Deepest;
    var e36, e42 := Entry(36, None), Entry(42, Some(TComma));
    CommaFacts(Lookahead(after), ActionValue(base + [e36, e42, Entry(46, None)]), c);
    Push(base + [e36] + [e42], Entry(46, None));
    ThreeMore(base, e36, e42, Entry(46, None));
    ReduceDeep(base, [e36, e42, Entry(46, None)], after, c, 31, 36);
  }

  lemma {:induction false} ValuesDeep(base: seq<Entry>, vs: seq<Value>, tail: seq<Token>, c: Ctx)
    requires Standing(base) && Top(base) == 26 && Lookahead(tail) == 16
    ensures Standing(base + [Entry(37, None)])
    ensures Exact(base, ValuesTokens(vs) + tail, c, |base| + ValuesDepth(vs),
                  ExecValues(vs, c), base + [Entry(37, None)], tail)
    decreases vs, 4
  {
    hide Deepest, ValueTokens, ExecValue, MoreValues, Act, ValueDepth, MoreValuesDepth, StateAction, StateGoto, YyR1, YyR2;
    Push(base, Entry(37, None));
    ValuesFacts(16);
    if vs == [] {
      assert ValuesTokens(vs) + tail == tail;
      Quiet(32, ActionValue(base), c);
      EmptyDeep(base, tail, c, 32, 37);
      AtLeast(base + [Entry(37, None)], tail, c);
    } else {
      var after := MoreValues(vs[1..]) + tail;
      assert ValuesTokens(vs) + tail == ValueTokens(vs[0]) + after;
      AfterValues(vs[1..], tail);
      ValuesFacts(Lookahead(after));
      ValueDeep(base, vs[0], after, c);
      var o := ExecValue(vs[0], c);
      if o.Ok? {
        Quiet(30, None, o.ctx);
        UnitDeep(base, Entry(35, None), after, o.ctx, 30, 36);
        MoreValuesDeep(base, vs[1..], tail, o.ctx);
        var o' := ExecValues(vs[1..], o.ctx);
        if o'.Ok? {
          Quiet(33, None, o'.ctx);
          UnitDeep(base, Entry(36, None), tail, o'.ctx, 33, 37);
        }
      }
    }
  }

  lemma {:induction false} ListDeep(base: seq<Entry>, vs: seq<Value>, rest: seq<Token>, c: Ctx)
    requires Standing(base) && ValueSpot(Top(base)) && Lookahead(rest) != 9
    ensures Standing(Done(base, VALUE))
    ensures Exact(base, ValueTokens(List(vs)) + rest, c, |base| + ValueDepth(List(vs)),
                  ExecValue(List(vs), c), Done(base, VALUE), rest)
    decreases vs, 5
  {
    hide Deepest, ValuesTokens, ExecValues, Open, Close, ValuesDepth, StateAction, StateGoto, YyR1, YyR2, Act;
    ValueStands(base);
    var tail := [TListEnd] + rest;
    var input := ValuesTokens(vs) + tail;
    assert ValueTokens(List(vs)) + rest == [TListStart] + input;
    var e17, e26 := Entry(17, Some(TListStart)), Entry(26, None);
    ListFacts(Top(base), Lookahead(input), ActionValue(base + [e17]), c);
    ShiftDeep(base, TListStart, input, c, 17);
    EmptyDeep(base + [e17], input, c, 15, 26);
    var o := Open(c, ListKind);
    if o.Ok? {
      var at := base + [e17] + [e26];
      ValuesDeep(at, vs, tail, o.ctx);
      var p := ExecValues(vs, o.ctx);
      if p.Ok? {
        ShiftDeep(at + [Entry(37, None)], TListEnd, rest, p.ctx, 43);
        CloseDeep(base, [e17, e26, Entry(37, None), Entry(43, Some(TListEnd))], rest, p.ctx, 16, 20, 19);
      }
    }
  }

  lemma {:induction false} MemberDeep(base: seq<Entry>, m: Member, rest: seq<Token>, c: Ctx)
    requires Standing(base) && MemberSpot(Top(base)) && MemberFollow(Lookahead(rest))
    ensures Standing(Done(base, 28))
    ensures Exact(base, MemberTokens(m) + rest, c, |base| + MemberDepth(m), ExecMember(m, c), Done(base, 28), rest)
    decreases m, 3
  {
    hide Deepest, ValueTokens, ExecValue, BeginSetting, ValueDepth;
    Push(base, Entry(StateGoto(Top(base), 28), None));
    var after := EndTokens(m.end) + rest;
    var name := TName(m.name);
    var input := ValueTokens(m.value) + after;
    assert MemberTokens(m) + rest == [name] + ([TEquals] + input);
    var e1, e5, e8 := Entry(1, Some(name)), Entry(5, None), Entry(8, Some(TEquals));
    ShiftDeep(base, name, [TEquals] + input, c, 1);
    EmptyDeep(base + [e1], [TEquals] + input, c, 11, 5);
    var o := BeginSetting(c, m.name);
    if o.Ok? {
      ShiftDeep(base + [e1] + [e5], TEquals, input, o.ctx, 8);
      EndFollow(m.end, rest);
      ValueDeep(base + [e1] + [e5] + [e8], m.value, after, o.ctx);
      var p := ExecValue(m.value, o.ctx);
      if p.Ok? {
        EndDeep(base, [e1, e5, e8], m.end, rest, p.ctx);
      }
    }
  }

  lemma EndDeep(base: seq<Entry>, top: seq<Entry>, end: Terminator, rest: seq<Token>, c: Ctx)
    requires Standing(base) && MemberSpot(Top(base)) && MemberFollow(Lookahead(rest))
    requires |top| == 3 && Standing(base + [top[0]] + [top[1]] + [top[2]] + [Entry(21, None)])
    requires top[2].state == 8
    ensures Standing(Done(base, 28))
    ensures Exact(base + [top[0]] + [top[1]] + [top[2]] + [Entry(21, None)], EndTokens(end) + rest, c, |base| + 5,
                  Ok(c), Done(base, 28), rest)
  {
    hide Deepest;
    var at := base + [top[0]] + [top[1]] + [top[2]] + [Entry(21, None)];
    var e30 := Entry(30, None);
    Push(at, e30);
    FinishDeep(base, top, rest, c);
    match end {
      case NoEnd =>
        assert EndTokens(end) + rest == rest;
        EmptyDeep(at, rest, c, 8, 30);
      case CommaEnd =>
        ShiftDeep(at, TComma, rest, c, 28);
        UnitDeep(at, Entry(28, Some(TComma)), rest, c, 10, 30);
      case SemicolonEnd =>
        ShiftDeep(at, TSemicolon, rest, c, 29);
        UnitDeep(at, Entry(29, Some(TSemicolon)), rest, c, 9, 30);
    }
  }

  lemma FinishDeep(base: seq<Entry>, top: seq<Entry>, rest: seq<Token>, c: Ctx)
    requires Standing(base) && MemberSpot(Top(base)) && |top| == 3
    requires Standing(base + [top[0]] + [top[1]] + [top[2]] + [Entry(21, None)] + [Entry(30, None)])
    ensures Standing(Done(base, 28))
    ensures Exact(base + [top[0]] + [top[1]] + [top[2]] + [Entry(21, None)] + [Entry(30, None)], rest, c, |base| + 5,
                  Ok(c), Done(base, 28), rest)
  {
    hide Deepest;
    Push(base, Entry(StateGoto(Top(base), 28), None));
    var all := top + [Entry(21, None), Entry(30, None)];
    assert base + [top[0]] + [top[1]] + [top[2]] + [Entry(21, None)] + [Entry(30, None)] == base + all;
    ReduceDeep(base, all, rest, c, 12, StateGoto(Top(base), 28));
  }

  lemma {:induction false} MoreMembersDeep(
    base: seq<Entry>, list: int, ms: seq<Member>, tail: seq<Token>, c: Ctx)
    requires base != [] && ListSpot(Top(base), list) && Standing(base + [Entry(list, None)])
    requires ListFollow(Top(base), Lookahead(tail))
    ensures Exact(base + [Entry(list, None)], MembersTokens(ms) + tail, c, |base| + MoreMembersDepth(ms),
                  ExecMembers(ms, c), base + [Entry(list, None)], tail)
    decreases ms, 4
  {
    hide Deepest, MemberTokens, ExecMember, MemberDepth;
    var at := base + [Entry(list, None)];
    if ms == [] {
      assert MembersTokens(ms) + tail == tail;
      AtLeast(at, tail, c);
    } else {
      var after := MembersTokens(ms[1..]) + tail;
      assert MembersTokens(ms) + tail == MemberTokens(ms[0]) + after;
      AfterMembers(ms[1..], tail);
      MemberDeep(at, ms[0], after, c);
      var o := ExecMember(ms[0], c);
      if o.Ok? {
        TwoMore(base, Entry(list, None), Entry(7, None));
        ReduceDeep(base, [Entry(list, None), Entry(7, None)], after, o.ctx, 5, list);
        MoreMembersDeep(base, list, ms[1..], tail, o.ctx);
      }
    }
  }

  lemma {:induction false} MembersDeep(base: seq<Entry>, ms: seq<Member>, tail: seq<Token>, c: Ctx)
    requires Standing(base) && ListFollow(Top(base), Lookahead(tail))
    ensures Standing(Done(base, if Top(base) == 0 then 24 else 26))
    ensures Exact(base, MembersTokens(ms) + tail, c, |base| + MembersDepth(ms),
                  ExecMembers(ms, c), Done(base, if Top(base) == 0 then 24 else 26), tail)
    decreases ms, 5
  {
    hide Deepest, MemberTokens, ExecMember, Act, MemberDepth, MoreMembersDepth, StateAction, StateGoto, YyR1, YyR2;
    var nt, list := if Top(base) == 0 then 24 else 26, if Top(base) == 0 then 3 else 38;
    var g := StateGoto(Top(base), nt);
    SettingsStand(base);
    if ms == [] {
      NoMembersDeep(base, tail, c);
    } else {
      var after := MembersTokens(ms[1..]) + tail;
      assert MembersTokens(ms) + tail == MemberTokens(ms[0]) + after;
      AfterMembers(ms[1..], tail);
      SettingsFacts(Top(base), list, Lookahead(after), Lookahead(tail));
      MemberDeep(base, ms[0], after, c);
      var o := ExecMember(ms[0], c);
      if o.Ok? {
        Quiet(4, None, o.ctx);
        UnitDeep(base, Entry(4, None), after, o.ctx, 4, list);
        MoreMembersDeep(base, list, ms[1..], tail, o.ctx);
        var o' := ExecMembers(ms[1..], o.ctx);
        if o'.Ok? {
          var rule := if nt == 24 then 3 else 7;
          Quiet(rule, None, o'.ctx);
          UnitDeep(base, Entry(list, None), tail, o'.ctx, rule, g);
        }
      }
    }
  }

  lemma NoMembersDeep(base: seq<Entry>, tail: seq<Token>, c: Ctx)
    requires Standing(base) && ListFollow(Top(base), Lookahead(tail))
    ensures Standing(Done(base, if Top(base) == 0 then 24 else 26))
    ensures Exact(base, MembersTokens([]) + tail, c, |base| + 1,
                  Ok(c), Done(base, if Top(base) == 0 then 24 else 26), tail)
  {
    hide Deepest, Act;
    var nt := if Top(base) == 0 then 24 else 26;
    var g := StateGoto(Top(base), nt);
    Push(base, Entry(g, None));
    assert MembersTokens([]) + tail == tail;
    var rule := if nt == 24 then 2 else 6;
    Quiet(rule, ActionValue(base), c);
    EmptyDeep(base, tail, c, rule, g);
    AtLeast(Done(base, nt), tail, c);
  }

  lemma {:induction false} GroupDeep(base: seq<Entry>, ms: seq<Member>, rest: seq<Token>, c: Ctx)
    requires Standing(base) && ValueSpot(Top(base)) && Lookahead(rest) != 9
    ensures Standing(Done(base, VALUE))
    ensures Exact(base, ValueTokens(Group(ms)) + rest, c, |base| + ValueDepth(Group(ms)),
                  ExecValue(Group(ms), c), Done(base, VALUE), rest)
    decreases ms, 6
  {
    hide Deepest, MembersTokens, ExecMembers, Open, Close, MembersDepth, StateAction, StateGoto, YyR1, YyR2, Act;
    ValueStands(base);
    var tail := [TGroupEnd] + rest;
    var input := MembersTokens(ms) + tail;
    assert ValueTokens(Group(ms)) + rest == [TGroupStart] + input;
    var e18, e27 := Entry(18, Some(TGroupStart)), Entry(27, None);
    GroupFacts(Top(base), Lookahead(input), ActionValue(base + [e18]), c);
    ShiftDeep(base, TGroupStart, input, c, 18);
    EmptyDeep(base + [e18], input, c, 38, 27);
    var o := Open(c, GroupKind);
    if o.Ok? {
      var at := base + [e18] + [e27];
      MembersDeep(at, ms, tail, o.ctx);
      var p := ExecMembers(ms, o.ctx);
      if p.Ok? {
        ShiftDeep(at + [Entry(39, None)], TGroupEnd, rest, p.ctx, 44);
        CloseDeep(base, [e18, e27, Entry(39, None), Entry(44, Some(TGroupEnd))], rest, p.ctx, 39, 24, 20);
      }
    }
  }

  // ---------------------------------------------------------------------
  // Whole configurations.
  // ---------------------------------------------------------------------

  /** The end of the input, once the whole configuration has been reduced. */
  lemma LastMove(c: Ctx)
    ensures Standing(BOTTOM + [Entry(2, None)]) && Deepest(BOTTOM + [Entry(2, None)], [], c) == 3
  {
    hide Deepest;
    var stack := BOTTOM + [Entry(2, None)];
    assert States(BOTTOM) == [0];
    Push(BOTTOM, Entry(2, None));
    DecodeAction(2, 0);
    ShiftOk(2, 0);
    DeepestShift(stack, [], c);
    DeepestHalt(Shifted(stack, []), [], c);
  }

  /** The stack gets exactly as deep as the syntax says when the actions succeed, and no deeper otherwise. */
  lemma DeepestExactly(ms: seq<Member>)
    ensures States(BOTTOM) == [0]
    ensures
      var deepest := Deepest(BOTTOM, MembersTokens(ms), INITIAL);
      if ExecMembers(ms, INITIAL).Ok? then deepest == StackSize(ms) else deepest <= StackSize(ms)
  {
    hide ExecMembers, MembersTokens, Act, Deepest, MembersDepth;
    assert States(BOTTOM) == [0];
    assert MembersTokens(ms) + [] == MembersTokens(ms);
    MembersDeep(BOTTOM, ms, [], INITIAL);
    var o := ExecMembers(ms, INITIAL);
    if o.Ok? {
      LastMove(o.ctx);
    }
  }

  // ---------------------------------------------------------------------
  // A bound by nesting.
  // ---------------------------------------------------------------------

  /** Levels of brackets. */
  function Nesting(v: Value): nat
    decreases v, 1
  {
    match v
    case Plain(_) => 0
    case Array(_) => 1
    case List(vs) => 1 + NestingAll(vs)
    case Group(ms) => 1 + NestingMembers(ms)
  }

  function NestingAll(vs: seq<Value>): nat
    decreases vs, 0
  {
    if vs == [] then 0 else Max(Nesting(vs[0]), NestingAll(vs[1..]))
  }

  function NestingMembers(ms: seq<Member>): nat
    decreases ms, 0
  {
    if ms == [] then 0 else Max(Nesting(ms[0].value), NestingMembers(ms[1..]))
  }

  lemma {:induction false} DepthByNesting(v: Value)
    ensures ValueDepth(v) <= 6 * Nesting(v) + 2
    decreases v, 1
  {
    match v
    case List(vs) =>
      if vs != [] {
        DepthByNesting(vs[0]);
        DepthByNestingAll(vs[1..]);
      }
    case Group(ms) => DepthByNestingMembers(ms);
    case _ =>
  }

  lemma {:induction false} DepthByNestingAll(vs: seq<Value>)
    ensures MoreValuesDepth(vs) <= 6 * NestingAll(vs) + 4
    decreases vs, 0
  {
    if vs != [] {
      DepthByNesting(vs[0]);
      DepthByNestingAll(vs[1..]);
    }
  }

  lemma {:induction false} DepthByNestingMembers(ms: seq<Member>)
    ensures MoreMembersDepth(ms) <= 6 * NestingMembers(ms) + 6
    ensures MembersDepth(ms) <= 6 * NestingMembers(ms) + 6
    decreases ms, 0
  {
    if ms != [] {
      DepthByNesting(ms[0].value);
      DepthByNestingMembers(ms[1..]);
    }
  }

  /** The greatest nesting that no configuration needs more stack for than there is. */
  const MAX_NESTING := 1665

  lemma StackSuffices(ms: seq<Member>)
    requires NestingMembers(ms) <= MAX_NESTING
    ensures StackSize(ms) < YYMAXDEPTH
  {
    DepthByNestingMembers(ms);
  }
}
