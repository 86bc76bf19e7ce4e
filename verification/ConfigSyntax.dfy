/**
 Concrete syntax: configurations as trees, the tokens they are written with, and
 completeness of the tables: the driver loop on those tokens performs the actions
 of the tree in reduction order.
 */
module ConfigSyntax {
  import opened Options
  import opened ConfigStore
  import opened ConfigActions
  import opened ConfigTables
  import opened ConfigParser

  datatype Simple =
    | SBool(ival: int) | SInt(ival: int) | SHex(ival: int)
    | SInt64(llval: int) | SHex64(llval: int)
    | SFloat(text: string)
    | SString(first: string, more: seq<string>)

  datatype Terminator = NoEnd | CommaEnd | SemicolonEnd

  datatype Value =
    | Plain(simple: Simple)
    | Array(simples: seq<Simple>)
    | List(values: seq<Value>)
    | Group(members: seq<Member>)

  datatype Member = Member(name: string, value: Value, end: Terminator)

  // ---------------------------------------------------------------------
  // Tokens.
  // ---------------------------------------------------------------------

  function PartTokens(parts: seq<string>): seq<Token>
  {
    if parts == [] then [] else [TString(parts[0])] + PartTokens(parts[1..])
  }

  function SimpleTokens(s: Simple): seq<Token>
  {
    match s
    case SBool(i) => [TBoolean(i)]
    case SInt(i) => [TInteger(i)]
    case SHex(i) => [THex(i)]
    case SInt64(l) => [TInteger64(l)]
    case SHex64(l) => [THex64(l)]
    case SFloat(text) => [TFloat(text)]
    case SString(first, more) => [TString(first)] + PartTokens(more)
  }

  function MoreSimples(ss: seq<Simple>): seq<Token>
  {
    if ss == [] then [] else [TComma] + SimpleTokens(ss[0]) + MoreSimples(ss[1..])
  }

  function SimplesTokens(ss: seq<Simple>): seq<Token>
  {
    if ss == [] then [] else SimpleTokens(ss[0]) + MoreSimples(ss[1..])
  }

  function ValueTokens(v: Value): seq<Token>
    decreases v, 0
  {
    match v
    case Plain(s) => SimpleTokens(s)
    case Array(ss) => [TArrayStart] + SimplesTokens(ss) + [TArrayEnd]
    case List(vs) => [TListStart] + ValuesTokens(vs) + [TListEnd]
    case Group(ms) => [TGroupStart] + MembersTokens(ms) + [TGroupEnd]
  }

  function MoreValues(vs: seq<Value>): seq<Token>
    decreases vs, 0
  {
    if vs == [] then [] else [TComma] + ValueTokens(vs[0]) + MoreValues(vs[1..])
  }

  function ValuesTokens(vs: seq<Value>): seq<Token>
    decreases vs, 0
  {
    if vs == [] then [] else ValueTokens(vs[0]) + MoreValues(vs[1..])
  }

  function EndTokens(e: Terminator): seq<Token>
  {
    match e
    case NoEnd => []
    case CommaEnd => [TComma]
    case SemicolonEnd => [TSemicolon]
  }

  function MemberTokens(m: Member): seq<Token>
    decreases m, 0
  {
    [TName(m.name), TEquals] + ValueTokens(m.value) + EndTokens(m.end)
  }

  function MembersTokens(ms: seq<Member>): seq<Token>
    decreases ms, 0
  {
    if ms == [] then [] else MemberTokens(ms[0]) + MembersTokens(ms[1..])
  }

  // ---------------------------------------------------------------------
  // The actions of a tree, in the order in which its rules are reduced.
  // ---------------------------------------------------------------------

  function ExecParts(parts: seq<string>, c: Ctx): Ctx
    decreases parts
  {
    if parts == [] then c else ExecParts(parts[1..], AppendString(c, parts[0]).ctx)
  }

  function ExecSimple(s: Simple, c: Ctx): Outcome
  {
    match s
    case SBool(i) => Scalar(c, BoolKind, IntVal(i), FORMAT_DEFAULT)
    case SInt(i) => Scalar(c, IntKind, IntVal(i), FORMAT_DEFAULT)
    case SHex(i) => Scalar(c, IntKind, IntVal(i), FORMAT_HEX)
    case SInt64(l) => Scalar(c, Int64Kind, Int64Val(l), FORMAT_DEFAULT)
    case SHex64(l) => Scalar(c, Int64Kind, Int64Val(l), FORMAT_HEX)
    case SFloat(text) => Scalar(c, FloatKind, FloatVal(text), FORMAT_DEFAULT)
    case SString(first, more) => TakeString(ExecParts([first] + more, c))
  }

  function ExecSimples(ss: seq<Simple>, c: Ctx): Outcome
    decreases ss
  {
    if ss == [] then Ok(c)
    else
      var o := ExecSimple(ss[0], c);
      if o.Ok? then ExecSimples(ss[1..], o.ctx) else o
  }

  function ExecValue(v: Value, c: Ctx): Outcome
    decreases v, 1
  {
    match v
    case Plain(s) => ExecSimple(s, c)
    case Array(ss) =>
      var o := Open(c, ArrayKind);
      if !o.Ok? then o
      else
        var p := ExecSimples(ss, o.ctx);
        if p.Ok? then Close(p.ctx) else p
    case List(vs) =>
      var o := Open(c, ListKind);
      if !o.Ok? then o
      else
        var p := ExecValues(vs, o.ctx);
        if p.Ok? then Close(p.ctx) else p
    case Group(ms) =>
      var o := Open(c, GroupKind);
      if !o.Ok? then o
      else
        var p := ExecMembers(ms, o.ctx);
        if p.Ok? then Close(p.ctx) else p
  }

  function ExecValues(vs: seq<Value>, c: Ctx): Outcome
    decreases vs, 0
  {
    if vs == [] then Ok(c)
    else
      var o := ExecValue(vs[0], c);
      if o.Ok? then ExecValues(vs[1..], o.ctx) else o
  }

  function ExecMember(m: Member, c: Ctx): Outcome
    decreases m, 0
  {
    var o := BeginSetting(c, m.name);
    if o.Ok? then ExecValue(m.value, o.ctx) else o
  }

  function ExecMembers(ms: seq<Member>, c: Ctx): Outcome
    decreases ms, 0
  {
    if ms == [] then Ok(c)
    else
      var o := ExecMember(ms[0], c);
      if o.Ok? then ExecMembers(ms[1..], o.ctx) else o
  }

  // ---------------------------------------------------------------------
  // The driver loop on those tokens.
  // ---------------------------------------------------------------------

  /** A stack that the loop can stand on. */
  ghost predicate Standing(stack: seq<Entry>)
  {
    ValidStates(States(stack))
  }

  /** Carry on with the outcome of some actions. */
  ghost function Resume(o: Outcome, stack: seq<Entry>, input: seq<Token>): Result
    requires Standing(stack)
  {
    if o.Ok? then Run(stack, input, o.ctx) else Aborted(o.error)
  }

  lemma Push(base: seq<Entry>, e: Entry)
    requires Standing(base) && IsState(e.state) && Below(Top(base), e.state)
    ensures Standing(base + [e]) && Top(base + [e]) == e.state
  {
    hide Below;
    StatesAppend(base, |base|, e);
    assert States(base)[|base| - 1] == Top(base);
  }

  /** Shift a token. */
  lemma ShiftTo(base: seq<Entry>, tok: Token, rest: seq<Token>, c: Ctx, g: int)
    requires Standing(base) && Top(base) != YYFINAL
    requires StateAction(Top(base), Sym(tok)) == Shift(g)
    ensures Standing(base + [Entry(g, Some(tok))])
    ensures Run(base, [tok] + rest, c) == Run(base + [Entry(g, Some(tok))], rest, c)
  {
    hide Run, StateAction, TableAction, Below, Rank, Sym, YyStos;
    var input := [tok] + rest;
    assert States(base)[|base| - 1] == Top(base);
    assert Lookahead(input) == Sym(tok);
    DecodeAction(Top(base), Sym(tok));
    ShiftOk(Top(base), Sym(tok));
    Push(base, Entry(g, Some(tok)));
    RunShift(base, input, c);
    assert input[1..] == rest;
  }

  /** Reduce the top n symbols by a rule. */
  lemma ReduceTo(base: seq<Entry>, top: seq<Entry>, input: seq<Token>, c: Ctx, rule: int, g: int)
    requires Standing(base + top) && base != [] && Top(base + top) != YYFINAL
    requires StateAction(Top(base + top), Lookahead(input)) == Reduce(rule)
    requires |top| == YyR2(rule) && StateGoto(Top(base), YyR1(rule)) == g
    ensures Standing(base + [Entry(g, None)])
    ensures Run(base + top, input, c)
         == Resume(Act(rule, ActionValue(base + top), c), base + [Entry(g, None)], input)
  {
    hide Run, StateAction, TableAction, Below, Rank, Sym, YyStos, StateGoto, TableGoto, YyR1, YyR2,
         YyDefact, YyRhs, Act;
    var stack := base + top;
    assert States(stack)[|stack| - 1] == Top(stack);
    DecodeAction(Top(stack), Lookahead(input));
    ReduceIsDefault(Top(stack), Lookahead(input));
    ReduceOk(States(stack));
    ReduceStack(stack);
    var m := |stack| - YyR2(rule);
    assert m == |base| && stack[..m] == base;
    assert States(stack)[m - 1] == stack[m - 1].state == Top(base);
    DecodeGoto(Top(base), YyR1(rule));
    RunReduce(stack, input, c);
  }
}
