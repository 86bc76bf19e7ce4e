/**
 The shift/reduce loop of grammar.c over the real tables, with termination for
 every token sequence, and soundness: what it accepts derives from the grammar.
 */
module ConfigParser {
  import opened Options
  import opened ConfigStore
  import opened ConfigActions
  import opened ConfigTables

  /** A stack slot: the state, and the semantic value if the symbol is a token. */
  datatype Entry = Entry(state: int, val: Option<Token>)

  datatype Result = Accepted(ctx: Ctx) | SyntaxError | Aborted(error: ConfigActions.Error)

  function Lookahead(input: seq<Token>): (t: int)
    ensures Terminal(t)
  {
    if input == [] then 0 else Sym(input[0])
  }

  function Top(stack: seq<Entry>): int
    requires stack != []
  {
    stack[|stack| - 1].state
  }

  /** The value that a rule's action reads: its only token, or the second symbol of rule 22. */
  function ActionValue(stack: seq<Entry>): Option<Token>
    requires stack != []
  {
    stack[|stack| - 1].val
  }

  /** How many reductions a state can lead to before the next shift. */
  function Rank(s: int): nat
  {
    match s
    case 0 => 4 case 1 => 2 case 2 => 2 case 3 => 3 case 4 => 4 case 5 => 0 case 6 => 0
    case 7 => 3 case 8 => 0 case 9 => 5 case 10 => 5 case 11 => 5 case 12 => 5 case 13 => 5
    case 14 => 5 case 15 => 6 case 16 => 4 case 17 => 4 case 18 => 4 case 19 => 4 case 20 => 4
    case 21 => 3 case 22 => 5 case 23 => 4 case 24 => 4 case 25 => 2 case 26 => 2 case 27 => 2
    case 28 => 2 case 29 => 2 case 30 => 1 case 31 => 5 case 32 => 2 case 33 => 1 case 34 => 0
    case 35 => 2 case 36 => 1 case 37 => 0 case 38 => 1 case 39 => 0 case 40 => 0 case 41 => 2
    case 42 => 0 case 43 => 2 case 44 => 2 case 45 => 0 case 46 => 0
    case _ => 0
  }

  /** The states of a stack. */
  function States(stack: seq<Entry>): (q: seq<int>)
    ensures |q| == |stack|
  {
    seq(|stack|, i requires 0 <= i < |stack| => stack[i].state)
  }

  ghost predicate ValidStates(q: seq<int>)
  {
    && q != [] && q[0] == 0
    && (forall i :: 0 <= i < |q| ==> IsState(q[i]))
    && (forall i :: 0 < i < |q| ==> Below(q[i - 1], q[i]))
  }

  /** A reduction finds its right-hand side on the stack and an allowed transition below it. */
  ghost predicate Reducible(q: seq<int>)
    requires q != []
  {
    var s := q[|q| - 1];
    var rule := YyDefact(s);
    var n := YyR2(rule);
    && 0 <= n < |q| && 2 <= rule <= 39
    && |YyRhs(rule)| == n
    && (forall i :: 0 <= i < n ==> YyRhs(rule)[i] == YyStos(q[|q| - n + i]))
    && var p := q[|q| - n - 1];
    var g := StateGoto(p, YyR1(rule));
    && IsState(g) && g != 0 && Below(p, g) && YyStos(g) == YyR1(rule)
    && Rank(g) + 1 < n + Rank(s)
  }

  lemma ReduceFrom0(q: seq<int>)
    requires ValidStates(q) && 0 <= q[|q| - 1] < 9
    requires q[|q| - 1] != YYFINAL && YyDefact(q[|q| - 1]) != 0
    ensures Reducible(q)
  {
    var k := |q| - 1;
    match q[k]
    case 0 =>
    case 1 =>
    case 3 => assert Below(q[k - 1], q[k]);
    case 4 => assert Below(q[k - 1], q[k]);
    case 7 => assert Below(q[k - 1], q[k]); assert Below(q[k - 2], q[k - 1]);
  }

  lemma ReduceFrom9(q: seq<int>)
    requires ValidStates(q) && 9 <= q[|q| - 1] < 13
    requires q[|q| - 1] != YYFINAL && YyDefact(q[|q| - 1]) != 0
    ensures Reducible(q)
  {
    var k := |q| - 1;
    match q[k]
    case 9 => assert Below(q[k - 1], q[k]);
    case 10 => assert Below(q[k - 1], q[k]);
    case 11 => assert Below(q[k - 1], q[k]);
    case 12 => assert Below(q[k - 1], q[k]);
  }

  lemma ReduceFrom13(q: seq<int>)
    requires ValidStates(q) && 13 <= q[|q| - 1] < 19
    requires q[|q| - 1] != YYFINAL && YyDefact(q[|q| - 1]) != 0
    ensures Reducible(q)
  {
    var k := |q| - 1;
    match q[k]
    case 13 => assert Below(q[k - 1], q[k]);
    case 14 => assert Below(q[k - 1], q[k]);
    case 15 => assert Below(q[k - 1], q[k]);
    case 16 =>
    case 17 =>
    case 18 =>
  }

  lemma ReduceFrom19(q: seq<int>)
    requires ValidStates(q) && 19 <= q[|q| - 1] < 24
    requires q[|q| - 1] != YYFINAL && YyDefact(q[|q| - 1]) != 0
    ensures Reducible(q)
  {
    var k := |q| - 1;
    match q[k]
    case 19 => assert Below(q[k - 1], q[k]);
    case 20 => assert Below(q[k - 1], q[k]);
    case 21 =>
    case 22 => assert Below(q[k - 1], q[k]);
    case 23 => assert Below(q[k - 1], q[k]);
  }

  lemma ReduceFrom24(q: seq<int>)
    requires ValidStates(q) && 24 <= q[|q| - 1] < 30
    requires q[|q| - 1] != YYFINAL && YyDefact(q[|q| - 1]) != 0
    ensures Reducible(q)
  {
    var k := |q| - 1;
    match q[k]
    case 24 => assert Below(q[k - 1], q[k]);
    case 25 =>
    case 26 =>
    case 27 =>
    case 28 => assert Below(q[k - 1], q[k]);
    case 29 => assert Below(q[k - 1], q[k]);
  }

  lemma ReduceFrom30(q: seq<int>)
    requires ValidStates(q) && 30 <= q[|q| - 1] < 35
    requires q[|q| - 1] != YYFINAL && YyDefact(q[|q| - 1]) != 0
    ensures Reducible(q)
  {
    var k := |q| - 1;
    match q[k]
    case 30 => assert Below(q[k - 1], q[k]); assert Below(q[k - 2], q[k - 1]); assert Below(q[k - 3], q[k - 2]); assert Below(q[k - 4], q[k - 3]); assert Below(q[k - 5], q[k - 4]);
    case 31 => assert Below(q[k - 1], q[k]); assert Below(q[k - 2], q[k - 1]);
    case 32 => assert Below(q[k - 1], q[k]);
    case 33 => assert Below(q[k - 1], q[k]);
  }

  lemma ReduceFrom35(q: seq<int>)
    requires ValidStates(q) && 35 <= q[|q| - 1] < 47
    requires q[|q| - 1] != YYFINAL && YyDefact(q[|q| - 1]) != 0
    ensures Reducible(q)
  {
    var k := |q| - 1;
    match q[k]
    case 35 => assert Below(q[k - 1], q[k]);
    case 36 => assert Below(q[k - 1], q[k]);
    case 38 => assert Below(q[k - 1], q[k]);
    case 41 => assert Below(q[k - 1], q[k]); assert Below(q[k - 2], q[k - 1]); assert Below(q[k - 3], q[k - 2]); assert Below(q[k - 4], q[k - 3]);
    case 43 => assert Below(q[k - 1], q[k]); assert Below(q[k - 2], q[k - 1]); assert Below(q[k - 3], q[k - 2]); assert Below(q[k - 4], q[k - 3]);
    case 44 => assert Below(q[k - 1], q[k]); assert Below(q[k - 2], q[k - 1]); assert Below(q[k - 3], q[k - 2]); assert Below(q[k - 4], q[k - 3]);
    case 45 => assert Below(q[k - 1], q[k]); assert Below(q[k - 2], q[k - 1]); assert Below(q[k - 3], q[k - 2]);
    case 46 => assert Below(q[k - 1], q[k]); assert Below(q[k - 2], q[k - 1]); assert Below(q[k - 3], q[k - 2]);
  }

  lemma ReduceOk(q: seq<int>)
    requires ValidStates(q) && q[|q| - 1] != YYFINAL && YyDefact(q[|q| - 1]) != 0
    ensures Reducible(q)
  {
    hide Reducible;
    var s := q[|q| - 1];
    if s < 9 { ReduceFrom0(q); }
    else if s < 13 { ReduceFrom9(q); }
    else if s < 19 { ReduceFrom13(q); }
    else if s < 24 { ReduceFrom19(q); }
    else if s < 30 { ReduceFrom24(q); }
    else if s < 35 { ReduceFrom30(q); }
    else { ReduceFrom35(q); }
  }

  /** A shift goes to a state whose accessing symbol is the token. */
  lemma ShiftOk(s: int, t: int)
    requires IsState(s) && Terminal(t) && TableAction(s, t).Shift?
    ensures
      var g := TableAction(s, t).state;
      IsState(g) && Below(s, g) && YyStos(g) == t && (t == 0 ==> s == 2 && g == YYFINAL) && (t != 0 ==> g != YYFINAL)
  {
    DecodeAction(s, t);
    hide TableAction;
  }

  /** Only default reductions occur. */
  lemma ReduceIsDefault(s: int, t: int)
    requires IsState(s) && Terminal(t) && TableAction(s, t).Reduce?
    ensures TableAction(s, t).rule == YyDefact(s) != 0
  {
  }

  lemma StatesAppend(stack: seq<Entry>, n: nat, e: Entry)
    requires n <= |stack|
    ensures States(stack[..n] + [e]) == States(stack)[..n] + [e.state]
    ensures States(stack + [e]) == States(stack) + [e.state]
  {
  }

  /** What a reduction leaves on the stack. */
  lemma ReduceStack(stack: seq<Entry>)
    requires ValidStates(States(stack)) && Top(stack) != YYFINAL && YyDefact(Top(stack)) != 0
    ensures
      var rule := YyDefact(Top(stack));
      var m := |stack| - YyR2(rule);
      && 1 <= m <= |stack|
      && var g := TableGoto(stack[m - 1].state, YyR1(rule));
      && ValidStates(States(stack[..m] + [Entry(g, None)]))
      && m + 1 + Rank(g) < |stack| + Rank(Top(stack))
  {
    hide YyDefact, YyR1, YyR2, YyRhs, YyStos, TableGoto, StateGoto, Below, Rank;
    ReduceOk(States(stack));
    var rule := YyDefact(Top(stack));
    var m := |stack| - YyR2(rule);
    var p := stack[m - 1].state;
    assert States(stack)[m - 1] == p;
    DecodeGoto(p, YyR1(rule));
    StatesAppend(stack, m, Entry(TableGoto(p, YyR1(rule)), None));
  }

  /** One reduction: pop the right-hand side, push the goto state. */
  function Reduced(stack: seq<Entry>): (r: seq<Entry>)
    requires ValidStates(States(stack)) && Top(stack) != YYFINAL && YyDefact(Top(stack)) != 0
    ensures ValidStates(States(r))
    ensures |r| + Rank(Top(r)) < |stack| + Rank(Top(stack))
  {
    ReduceStack(stack);
    var rule := YyDefact(Top(stack));
    var m := |stack| - YyR2(rule);
    stack[..m] + [Entry(TableGoto(stack[m - 1].state, YyR1(rule)), None)]
  }

  /** One shift. */
  function Shifted(stack: seq<Entry>, input: seq<Token>): (r: seq<Entry>)
    requires ValidStates(States(stack)) && TableAction(Top(stack), Lookahead(input)).Shift?
    ensures ValidStates(States(r))
    ensures input == [] ==> |r| + Rank(Top(r)) < |stack| + Rank(Top(stack))
  {
    var g := TableAction(Top(stack), Lookahead(input)).state;
    ShiftOk(Top(stack), Lookahead(input));
    var e := Entry(g, if input == [] then None else Some(input[0]));
    StatesAppend(stack, |stack|, e);
    stack + [e]
  }

  /** yyparse from a given configuration. It ends for every token sequence. */
  function Run(stack: seq<Entry>, input: seq<Token>, ctx: Ctx): Result
    requires ValidStates(States(stack))
    decreases |input|, |stack| + Rank(Top(stack))
  {
    if Top(stack) == YYFINAL then Accepted(ctx)
    else
      match TableAction(Top(stack), Lookahead(input))
      case Shift(_) =>
        Run(Shifted(stack, input), if input == [] then [] else input[1..], ctx)
      case Reduce(rule) =>
        assert States(stack)[|stack| - 1] == Top(stack);
        ReduceIsDefault(Top(stack), Lookahead(input));
        (match Act(rule, ActionValue(stack), ctx)
         case Abort(error) => Aborted(error)
         case Ok(ctx') => Run(Reduced(stack), input, ctx'))
      case Error => SyntaxError
  }

  const BOTTOM: seq<Entry> := [Entry(0, None)]

  /** yyparse on a token sequence. */
  function Parse(input: seq<Token>): Result
  {
    assert States(BOTTOM) == [0];
    Run(BOTTOM, input, INITIAL)
  }

  // One step of the loop, as equations.

  lemma RunShift(stack: seq<Entry>, input: seq<Token>, ctx: Ctx)
    requires ValidStates(States(stack)) && Top(stack) != YYFINAL
    requires TableAction(Top(stack), Lookahead(input)).Shift?
    ensures Run(stack, input, ctx)
         == Run(Shifted(stack, input), if input == [] then [] else input[1..], ctx)
  {
  }

  lemma RunReduce(stack: seq<Entry>, input: seq<Token>, ctx: Ctx)
    requires ValidStates(States(stack)) && Top(stack) != YYFINAL
    requires TableAction(Top(stack), Lookahead(input)).Reduce?
    ensures YyDefact(Top(stack)) != 0
    ensures
      var act := Act(YyDefact(Top(stack)), ActionValue(stack), ctx);
      Run(stack, input, ctx)
      == if act.Ok? then Run(Reduced(stack), input, act.ctx) else Aborted(act.error)
  {
  }

  lemma RunError(stack: seq<Entry>, input: seq<Token>, ctx: Ctx)
    requires ValidStates(States(stack)) && Top(stack) != YYFINAL
    requires TableAction(Top(stack), Lookahead(input)).Error?
    ensures Run(stack, input, ctx) == SyntaxError
  {
  }
}
