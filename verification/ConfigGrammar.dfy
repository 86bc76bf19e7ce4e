/**
 Soundness of the parse tables: every token sequence that the automaton accepts
 has a derivation tree from `configuration` under the grammar's 39 rules.
 */
module ConfigGrammar {
  import opened ConfigStore
  import opened ConfigActions
  import opened ConfigTables
  import opened ConfigParser

  const CONFIGURATION := 24

  datatype Tree = Leaf(token: Token) | Node(rule: int, kids: seq<Tree>)

  function SymbolOf(t: Tree): int
  {
    match t
    case Leaf(token) => Sym(token)
    case Node(rule, _) => YyR1(rule)
  }

  /** A tree each of whose nodes applies one of the rules 2 to 39. */
  ghost predicate Derives(t: Tree)
  {
    match t
    case Leaf(_) => true
    case Node(rule, kids) =>
      && 2 <= rule <= 39
      && |kids| == |YyRhs(rule)|
      && forall i :: 0 <= i < |kids| ==> SymbolOf(kids[i]) == YyRhs(rule)[i] && Derives(kids[i])
  }

  /** The tokens at the leaves. */
  function Yield(t: Tree): seq<Token>
    decreases t, 0
  {
    match t
    case Leaf(token) => [token]
    case Node(_, kids) => Yields(kids)
  }

  function Yields(ts: seq<Tree>): seq<Token>
    decreases ts, 1
  {
    if ts == [] then [] else Yields(ts[..|ts| - 1]) + Yield(ts[|ts| - 1])
  }

  lemma {:induction false} YieldsAppend(a: seq<Tree>, b: seq<Tree>)
    ensures Yields(a + b) == Yields(a) + Yields(b)
    decreases |b|
  {
    if b == [] {
      assert a + b == a;
    } else {
      var n := |b| - 1;
      assert (a + b)[..|a + b| - 1] == a + b[..n];
      YieldsAppend(a, b[..n]);
    }
  }

  /** The trees behind a stack: one per state above the bottom. */
  ghost predicate Forest(stack: seq<Entry>, trees: seq<Tree>)
  {
    && |trees| + 1 == |stack|
    && forall i :: 0 <= i < |trees| ==>
         Derives(trees[i]) && SymbolOf(trees[i]) == YyStos(stack[i + 1].state)
  }

  /** A reduction replaces its right-hand side by one tree. */
  lemma ReduceForest(stack: seq<Entry>, trees: seq<Tree>) returns (trees': seq<Tree>)
    requires ValidStates(States(stack)) && Top(stack) != YYFINAL && YyDefact(Top(stack)) != 0
    requires Forest(stack, trees)
    ensures Forest(Reduced(stack), trees') && Yields(trees') == Yields(trees)
  {
    hide YyDefact, YyR1, YyR2, YyRhs, YyStos, TableGoto, StateGoto, Below, Rank, Yield, Yields;
    var q := States(stack);
    ReduceOk(q);
    ReduceStack(stack);
    var rule := YyDefact(Top(stack));
    var n := YyR2(rule);
    var m := |stack| - n;
    var kids := trees[m - 1..];
    forall i | 0 <= i < |kids|
      ensures SymbolOf(kids[i]) == YyRhs(rule)[i] && Derives(kids[i])
    {
      assert q[|q| - n + i] == stack[m + i].state;
      assert kids[i] == trees[m - 1 + i];
    }
    var node := Node(rule, kids);
    trees' := trees[..m - 1] + [node];
    DecodeGoto(stack[m - 1].state, YyR1(rule));
    assert q[m - 1] == stack[m - 1].state;
    ReplaceTail(trees, m - 1, node);
  }

  lemma ReplaceTail(trees: seq<Tree>, m: nat, node: Tree)
    requires m <= |trees| && node.Node? && node.kids == trees[m..]
    ensures Yields(trees[..m] + [node]) == Yields(trees)
  {
    assert trees == trees[..m] + trees[m..];
    YieldsAppend(trees[..m], trees[m..]);
    assert (trees[..m] + [node])[..m] == trees[..m];
  }

  /** The only accepting stack is configuration above the bottom. */
  lemma FinalStack(stack: seq<Entry>)
    requires ValidStates(States(stack)) && Top(stack) == 2
    ensures |stack| == 2
  {
    var q := States(stack);
    assert q[|q| - 1] == 2;
    assert Below(q[|q| - 2], q[|q| - 1]);
    assert |q| > 2 ==> Below(q[|q| - 3], q[|q| - 2]);
  }

  lemma {:induction false} Sound(stack: seq<Entry>, input: seq<Token>, ctx: Ctx, trees: seq<Tree>)
    returns (t: Tree)
    requires ValidStates(States(stack)) && Top(stack) != YYFINAL && Forest(stack, trees)
    requires Run(stack, input, ctx).Accepted?
    ensures Derives(t) && SymbolOf(t) == CONFIGURATION && Yield(t) == Yields(trees) + input
    decreases |input|, |stack| + Rank(Top(stack))
  {
    hide Run, YyDefact, YyR1, YyStos, Below, Rank, TableAction, Act, Reduced, Shifted;
    assert States(stack)[|stack| - 1] == Top(stack);
    match TableAction(Top(stack), Lookahead(input))
    case Shift(g) =>
      RunShift(stack, input, ctx);
      ShiftOk(Top(stack), Lookahead(input));
      if input == [] {
        FinalStack(stack);
        t := trees[0];
        AcceptSymbol();
        assert trees == [t] && trees[..0] == [];
      } else {
        var trees' := ShiftForest(stack, input, trees);
        t := Sound(Shifted(stack, input), input[1..], ctx, trees');
        assert Yields(trees) + [input[0]] + input[1..] == Yields(trees) + input;
      }
    case Reduce(rule) =>
      RunReduce(stack, input, ctx);
      ReduceIsDefault(Top(stack), Lookahead(input));
      var trees' := ReduceForest(stack, trees);
      NotFinal(stack);
      t := Sound(Reduced(stack), input, Act(rule, ActionValue(stack), ctx).ctx, trees');
    case Error =>
      RunError(stack, input, ctx);
  }

  lemma ShiftForest(stack: seq<Entry>, input: seq<Token>, trees: seq<Tree>) returns (trees': seq<Tree>)
    requires ValidStates(States(stack)) && Forest(stack, trees) && input != []
    requires TableAction(Top(stack), Lookahead(input)).Shift?
    ensures Forest(Shifted(stack, input), trees') && Yields(trees') == Yields(trees) + [input[0]]
    ensures Top(Shifted(stack, input)) != YYFINAL
  {
    hide YyDefact, YyR1, YyStos, Below, Rank, TableAction;
    assert States(stack)[|stack| - 1] == Top(stack);
    ShiftOk(Top(stack), Lookahead(input));
    trees' := trees + [Leaf(input[0])];
    assert trees'[..|trees|] == trees;
  }

  lemma AcceptSymbol()
    ensures YyStos(2) == CONFIGURATION
  {
  }

  /** A reduction never enters the final state. */
  lemma NotFinal(stack: seq<Entry>)
    requires ValidStates(States(stack)) && Top(stack) != YYFINAL && YyDefact(Top(stack)) != 0
    ensures Top(Reduced(stack)) != YYFINAL
  {
  }

  /** Every accepted token sequence derives from `configuration`. */
  lemma AcceptedDerives(input: seq<Token>) returns (t: Tree)
    requires Parse(input).Accepted?
    ensures Derives(t) && SymbolOf(t) == CONFIGURATION && Yield(t) == input
  {
    assert States(BOTTOM) == [0];
    t := Sound(BOTTOM, input, INITIAL, []);
    assert Yields([]) + input == input;
  }

  /** No state shifts the error token, so the first syntax error ends the parse. */
  lemma NoErrorRecovery(s: int)
    requires IsState(s)
    ensures
      var n := YyPact(s) + 1;
      YyPact(s) == YYPACT_NINF || n < 0 || YYLAST < n || YyCheck(n) != 1
  {
  }
}
