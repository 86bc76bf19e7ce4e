/**
 yyparse of grammar.c as a loop: the state and value stacks, the depth limit and
 the error recovery that never recovers.
 */
module ConfigYyparse {
  import opened ConfigStore
  import opened ConfigActions
  import opened ConfigTables
  import opened ConfigParser
  import opened ConfigGrammar

  const YYMAXDEPTH := 10000

  function Max(a: nat, b: nat): nat { if a > b then a else b }

  /** The greatest stack size in a run. */
  ghost function Deepest(stack: seq<Entry>, input: seq<Token>, ctx: Ctx): nat
    requires ValidStates(States(stack))
    decreases |input|, |stack| + Rank(Top(stack))
  {
    Max(|stack|,
      if Top(stack) == YYFINAL then 0
      else
        match TableAction(Top(stack), Lookahead(input))
        case Shift(_) =>
          Deepest(Shifted(stack, input), if input == [] then [] else input[1..], ctx)
        case Reduce(rule) =>
          assert States(stack)[|stack| - 1] == Top(stack);
          ReduceIsDefault(Top(stack), Lookahead(input));
          (match Act(rule, ActionValue(stack), ctx)
           case Abort(error) => 0
           case Ok(ctx') => Deepest(Reduced(stack), input, ctx'))
        case Error => 0)
  }

  lemma DeepestShift(stack: seq<Entry>, input: seq<Token>, ctx: Ctx)
    requires ValidStates(States(stack)) && Top(stack) != YYFINAL
    requires TableAction(Top(stack), Lookahead(input)).Shift?
    ensures Deepest(stack, input, ctx)
         == Max(|stack|, Deepest(Shifted(stack, input), if input == [] then [] else input[1..], ctx))
  {
  }

  lemma DeepestReduce(stack: seq<Entry>, input: seq<Token>, ctx: Ctx)
    requires ValidStates(States(stack)) && Top(stack) != YYFINAL
    requires TableAction(Top(stack), Lookahead(input)).Reduce?
    ensures YyDefact(Top(stack)) != 0
    ensures
      var act := Act(YyDefact(Top(stack)), ActionValue(stack), ctx);
      Deepest(stack, input, ctx)
      == Max(|stack|, if act.Ok? then Deepest(Reduced(stack), input, act.ctx) else 0)
  {
  }

  lemma DeepestHalt(stack: seq<Entry>, input: seq<Token>, ctx: Ctx)
    requires ValidStates(States(stack))
    requires Top(stack) == YYFINAL || TableAction(Top(stack), Lookahead(input)).Error?
    ensures Deepest(stack, input, ctx) == |stack|
  {
  }

  /** yyerrlab1: pop states until one shifts the error token; none does. */
  method Recover(stack0: seq<Entry>) returns (aborted: bool)
    requires ValidStates(States(stack0))
    ensures aborted
  {
    var stack := stack0;
    assert forall i :: 0 <= i < |stack| ==> States(stack)[i] == stack[i].state;
    while true
      invariant stack != [] && forall i :: 0 <= i < |stack| ==> IsState(stack[i].state)
      decreases |stack|
    {
      var n := YyPact(Top(stack));
      NoErrorRecovery(Top(stack));
      if n != YYPACT_NINF && 0 <= n + 1 <= YYLAST && YyCheck(n + 1) == 1 {
        return false;
      }
      if |stack| == 1 {
        return true;
      }
      stack := stack[..|stack| - 1];
    }
  }

  /** 0: accepted, 1: syntax error or aborted action, 2: stack exhausted. */
  method YyParse(tokens: seq<Token>) returns (code: int, ctx: Ctx)
    ensures code == 0 || code == 1 || code == 2
    ensures code == 0 ==> Parse(tokens) == Accepted(ctx)
    ensures code == 1 ==> !Parse(tokens).Accepted?
    ensures code == 2 <==>
      (assert States(BOTTOM) == [0]; Deepest(BOTTOM, tokens, INITIAL) >= YYMAXDEPTH)
  {
    hide TableAction, Shifted, Reduced, Act, Rank, Run, Deepest, YyDefact;
    assert States(BOTTOM) == [0];
    var stack, input := BOTTOM, tokens;
    ctx := INITIAL;
    while true
      invariant ValidStates(States(stack))
      invariant Run(stack, input, ctx) == Run(BOTTOM, tokens, INITIAL)
      invariant Deepest(stack, input, ctx) >= YYMAXDEPTH <==> Deepest(BOTTOM, tokens, INITIAL) >= YYMAXDEPTH
      decreases |input|, |stack| + Rank(Top(stack))
    {
      if |stack| >= YYMAXDEPTH {
        DeepestAtLeast(stack, input, ctx);
        return 2, ctx;
      }
      if Top(stack) == YYFINAL {
        RunFinal(stack, input, ctx);
        DeepestHalt(stack, input, ctx);
        return 0, ctx;
      }
      assert States(stack)[|stack| - 1] == Top(stack);
      var action := TableAction(Top(stack), Lookahead(input));
      if action.Shift? {
        RunShift(stack, input, ctx);
        DeepestShift(stack, input, ctx);
        var g := Shifted(stack, input);
        input := if input == [] then [] else input[1..];
        stack := g;
      } else if action.Reduce? {
        RunReduce(stack, input, ctx);
        DeepestReduce(stack, input, ctx);
        ReduceIsDefault(Top(stack), Lookahead(input));
        var o := Act(action.rule, ActionValue(stack), ctx);
        if o.Abort? {
          return 1, ctx;
        }
        ctx := o.ctx;
        stack := Reduced(stack);
      } else {
        RunError(stack, input, ctx);
        DeepestHalt(stack, input, ctx);
        var aborted := Recover(stack);
        return 1, ctx;
      }
    }
  }

  lemma RunFinal(stack: seq<Entry>, input: seq<Token>, ctx: Ctx)
    requires ValidStates(States(stack)) && Top(stack) == YYFINAL
    ensures Run(stack, input, ctx) == Accepted(ctx)
  {
  }

  lemma DeepestAtLeast(stack: seq<Entry>, input: seq<Token>, ctx: Ctx)
    requires ValidStates(States(stack))
    ensures Deepest(stack, input, ctx) >= |stack|
  {
  }
}
