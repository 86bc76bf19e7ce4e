/**
 The parse tables of libconfig's grammar.c, the lookups of its driver loop, and
 the automaton that they encode.
 */
module ConfigTables {
  const YYFINAL := 6
  const YYLAST := 35
  const YYNTOKENS := 23
  const YYPACT_NINF := -26

  /** yyr1: the symbol that each rule derives. */
  function YyR1(rule: int): int
  {
    match rule
    case 0 => 0 case 1 => 23 case 2 => 24 case 3 => 24 case 4 => 25 case 5 => 25 case 6 => 26
    case 7 => 26 case 8 => 27 case 9 => 27 case 10 => 27 case 11 => 29 case 12 => 28
    case 13 => 31 case 14 => 30 case 15 => 33 case 16 => 32 case 17 => 34 case 18 => 34
    case 19 => 34 case 20 => 34 case 21 => 35 case 22 => 35 case 23 => 36 case 24 => 36
    case 25 => 36 case 26 => 36 case 27 => 36 case 28 => 36 case 29 => 36 case 30 => 37
    case 31 => 37 case 32 => 38 case 33 => 38 case 34 => 39 case 35 => 39 case 36 => 40
    case 37 => 40 case 38 => 42 case 39 => 41
    case _ => -1
  }

  /** yyr2: the length of each rule's right-hand side. */
  function YyR2(rule: int): int
  {
    match rule
    case 0 => 0 case 1 => 2 case 2 => 0 case 3 => 1 case 4 => 1 case 5 => 2 case 6 => 0
    case 7 => 1 case 8 => 0 case 9 => 1 case 10 => 1 case 11 => 0 case 12 => 5 case 13 => 0
    case 14 => 4 case 15 => 0 case 16 => 4 case 17 => 1 case 18 => 1 case 19 => 1 case 20 => 1
    case 21 => 1 case 22 => 2 case 23 => 1 case 24 => 1 case 25 => 1 case 26 => 1 case 27 => 1
    case 28 => 1 case 29 => 1 case 30 => 1 case 31 => 3 case 32 => 0 case 33 => 1 case 34 => 1
    case 35 => 3 case 36 => 0 case 37 => 1 case 38 => 0 case 39 => 4
    case _ => -1
  }

  /** yydefact: the default reduction of each state. */
  function YyDefact(state: int): int
  {
    match state
    case 0 => 2 case 1 => 11 case 2 => 0 case 3 => 3 case 4 => 4 case 5 => 0 case 6 => 1
    case 7 => 5 case 8 => 0 case 9 => 23 case 10 => 24 case 11 => 26 case 12 => 25 case 13 => 27
    case 14 => 28 case 15 => 21 case 16 => 13 case 17 => 15 case 18 => 38 case 19 => 18
    case 20 => 19 case 21 => 8 case 22 => 29 case 23 => 17 case 24 => 20 case 25 => 36
    case 26 => 32 case 27 => 6 case 28 => 10 case 29 => 9 case 30 => 12 case 31 => 22
    case 32 => 34 case 33 => 37 case 34 => 0 case 35 => 30 case 36 => 33 case 37 => 0
    case 38 => 7 case 39 => 0 case 40 => 0 case 41 => 14 case 42 => 0 case 43 => 16
    case 44 => 39 case 45 => 35 case 46 => 31
    case _ => -1
  }

  /** yydefgoto: the default target of each nonterminal. */
  function YyDefgoto(n: int): int
  {
    match n
    case 0 => -1 case 1 => 2 case 2 => 3 case 3 => 39 case 4 => 30 case 5 => 4 case 6 => 5
    case 7 => 19 case 8 => 25 case 9 => 20 case 10 => 26 case 11 => 21 case 12 => 22
    case 13 => 23 case 14 => 36 case 15 => 37 case 16 => 33 case 17 => 34 case 18 => 24
    case 19 => 27
    case _ => -1
  }

  /** yypact: where each state starts in yytable. */
  function YyPact(state: int): int
  {
    match state
    case 0 => -8 case 1 => -26 case 2 => 12 case 3 => -8 case 4 => -26 case 5 => 5 case 6 => -26
    case 7 => -26 case 8 => 0 case 9 => -26 case 10 => -26 case 11 => -26 case 12 => -26
    case 13 => -26 case 14 => -26 case 15 => -26 case 16 => -26 case 17 => -26 case 18 => -26
    case 19 => -26 case 20 => -26 case 21 => -6 case 22 => 10 case 23 => -26 case 24 => -26
    case 25 => 23 case 26 => 0 case 27 => -8 case 28 => -26 case 29 => -26 case 30 => -26
    case 31 => -26 case 32 => -26 case 33 => 3 case 34 => 7 case 35 => -26 case 36 => 6
    case 37 => 8 case 38 => -8 case 39 => 14 case 40 => 23 case 41 => -26 case 42 => 0
    case 43 => -26 case 44 => -26 case 45 => -26 case 46 => -26
    case _ => -1
  }

  /** yypgoto: where each nonterminal starts in yytable. */
  function YyPgoto(n: int): int
  {
    match n
    case 0 => -26 case 1 => -26 case 2 => -5 case 3 => -26 case 4 => -26 case 5 => -3
    case 6 => -26 case 7 => -26 case 8 => -26 case 9 => -26 case 10 => -26 case 11 => -25
    case 12 => -26 case 13 => -15 case 14 => -26 case 15 => -26 case 16 => -26 case 17 => -26
    case 18 => -26 case 19 => -26
    case _ => -1
  }

  /** yytable: what to do. */
  function YyTable(n: int): int
  {
    match n
    case 0 => 7 case 1 => 35 case 2 => 1 case 3 => 9 case 4 => 10 case 5 => 11 case 6 => 12
    case 7 => 13 case 8 => 14 case 9 => 15 case 10 => 32 case 11 => 28 case 12 => 6
    case 13 => 16 case 14 => 29 case 15 => 17 case 16 => 8 case 17 => 46 case 18 => 18
    case 19 => 31 case 20 => 40 case 21 => 41 case 22 => 38 case 23 => 42 case 24 => 43
    case 25 => 45 case 26 => 9 case 27 => 10 case 28 => 11 case 29 => 12 case 30 => 13
    case 31 => 14 case 32 => 15 case 33 => 44 case 34 => 0 case 35 => 7
    case _ => -1
  }

  /** yycheck: guards the entries of yytable. */
  function YyCheck(n: int): int
  {
    match n
    case 0 => 3 case 1 => 26 case 2 => 10 case 3 => 3 case 4 => 4 case 5 => 5 case 6 => 6
    case 7 => 7 case 8 => 8 case 9 => 9 case 10 => 25 case 11 => 17 case 12 => 0 case 13 => 13
    case 14 => 20 case 15 => 15 case 16 => 11 case 17 => 42 case 18 => 18 case 19 => 9
    case 20 => 17 case 21 => 14 case 22 => 27 case 23 => 17 case 24 => 16 case 25 => 40
    case 26 => 3 case 27 => 4 case 28 => 5 case 29 => 6 case 30 => 7 case 31 => 8 case 32 => 9
    case 33 => 19 case 34 => -1 case 35 => 38
    case _ => -1
  }

  /** yystos: the accessing symbol of each state. */
  function YyStos(state: int): int
  {
    match state
    case 0 => 0 case 1 => 10 case 2 => 24 case 3 => 25 case 4 => 28 case 5 => 29 case 6 => 0
    case 7 => 28 case 8 => 11 case 9 => 3 case 10 => 4 case 11 => 5 case 12 => 6 case 13 => 7
    case 14 => 8 case 15 => 9 case 16 => 13 case 17 => 15 case 18 => 18 case 19 => 30
    case 20 => 32 case 21 => 34 case 22 => 35 case 23 => 36 case 24 => 41 case 25 => 31
    case 26 => 33 case 27 => 42 case 28 => 17 case 29 => 20 case 30 => 27 case 31 => 9
    case 32 => 36 case 33 => 39 case 34 => 40 case 35 => 34 case 36 => 37 case 37 => 38
    case 38 => 25 case 39 => 26 case 40 => 17 case 41 => 14 case 42 => 17 case 43 => 16
    case 44 => 19 case 45 => 36 case 46 => 34
    case _ => -1
  }

  /** yyprhs and yyrhs: the right-hand side of each of the 39 rules. */
  function YyRhs(rule: int): seq<int>
  {
    match rule
    case 1 => [24, 0]
    case 2 => []
    case 3 => [25]
    case 4 => [28]
    case 5 => [25, 28]
    case 6 => []
    case 7 => [25]
    case 8 => []
    case 9 => [20]
    case 10 => [17]
    case 11 => []
    case 12 => [10, 29, 11, 34, 27]
    case 13 => []
    case 14 => [13, 31, 40, 14]
    case 15 => []
    case 16 => [15, 33, 38, 16]
    case 17 => [36]
    case 18 => [30]
    case 19 => [32]
    case 20 => [41]
    case 21 => [9]
    case 22 => [35, 9]
    case 23 => [3]
    case 24 => [4]
    case 25 => [6]
    case 26 => [5]
    case 27 => [7]
    case 28 => [8]
    case 29 => [35]
    case 30 => [34]
    case 31 => [37, 17, 34]
    case 32 => []
    case 33 => [37]
    case 34 => [36]
    case 35 => [39, 17, 36]
    case 36 => []
    case 37 => [39]
    case 38 => []
    case 39 => [18, 42, 26, 19]
    case _ => []
  }

  datatype Action = Shift(state: int) | Reduce(rule: int) | Error

  predicate IsState(s: int) { 0 <= s < 47 }
  predicate Terminal(t: int) { 0 <= t < YYNTOKENS }

  function DefaultAction(s: int): Action
  {
    if YyDefact(s) == 0 then Error else Reduce(YyDefact(s))
  }

  /** What yybackup decides in a state on a lookahead token. */
  function TableAction(s: int, t: int): Action
  {
    if YyPact(s) == YYPACT_NINF then DefaultAction(s)
    else
      var n := YyPact(s) + t;
      if n < 0 || YYLAST < n || YyCheck(n) != t then DefaultAction(s)
      else if YyTable(n) <= 0 then Error
      else Shift(YyTable(n))
  }

  /** The state after reducing to nonterminal nt on top of state p. */
  function TableGoto(p: int, nt: int): int
  {
    var n := YyPgoto(nt - YYNTOKENS) + p;
    if 0 <= n <= YYLAST && YyCheck(n) == p then YyTable(n) else YyDefgoto(nt - YYNTOKENS)
  }

  // ---------------------------------------------------------------------
  // The automaton.
  // ---------------------------------------------------------------------

  /** The action of each state, decoded. */
  function StateAction(s: int, t: int): Action
  {
    match s
    case 0 => if t == 10 then Shift(1) else Reduce(2)
    case 1 => Reduce(11)
    case 2 => if t == 0 then Shift(6) else Error
    case 3 => if t == 10 then Shift(1) else Reduce(3)
    case 4 => Reduce(4)
    case 5 => if t == 11 then Shift(8) else Error
    case 6 => Reduce(1)
    case 7 => Reduce(5)
    case 8 => if 3 <= t <= 9 then Shift(t + 6) else if t == 13 then Shift(16) else if t == 15 then Shift(17) else if t == 18 then Shift(18) else Error
    case 9 => Reduce(23)
    case 10 => Reduce(24)
    case 11 => Reduce(26)
    case 12 => Reduce(25)
    case 13 => Reduce(27)
    case 14 => Reduce(28)
    case 15 => Reduce(21)
    case 16 => Reduce(13)
    case 17 => Reduce(15)
    case 18 => Reduce(38)
    case 19 => Reduce(18)
    case 20 => Reduce(19)
    case 21 => if t == 17 then Shift(28) else if t == 20 then Shift(29) else Reduce(8)
    case 22 => if t == 9 then Shift(31) else Reduce(29)
    case 23 => Reduce(17)
    case 24 => Reduce(20)
    case 25 => if 3 <= t <= 9 then Shift(t + 6) else Reduce(36)
    case 26 => if 3 <= t <= 9 then Shift(t + 6) else if t == 13 then Shift(16) else if t == 15 then Shift(17) else if t == 18 then Shift(18) else Reduce(32)
    case 27 => if t == 10 then Shift(1) else Reduce(6)
    case 28 => Reduce(10)
    case 29 => Reduce(9)
    case 30 => Reduce(12)
    case 31 => Reduce(22)
    case 32 => Reduce(34)
    case 33 => if t == 17 then Shift(40) else Reduce(37)
    case 34 => if t == 14 then Shift(41) else Error
    case 35 => Reduce(30)
    case 36 => if t == 17 then Shift(42) else Reduce(33)
    case 37 => if t == 16 then Shift(43) else Error
    case 38 => if t == 10 then Shift(1) else Reduce(7)
    case 39 => if t == 19 then Shift(44) else Error
    case 40 => if 3 <= t <= 9 then Shift(t + 6) else Error
    case 41 => Reduce(14)
    case 42 => if 3 <= t <= 9 then Shift(t + 6) else if t == 13 then Shift(16) else if t == 15 then Shift(17) else if t == 18 then Shift(18) else Error
    case 43 => Reduce(16)
    case 44 => Reduce(39)
    case 45 => Reduce(35)
    case 46 => Reduce(31)
    case _ => Error
  }

  /** Which states can lie directly below a state on the stack. */
  predicate Below(p: int, s: int)
  {
    match s
    case 1 => p == 0 || p == 3 || p == 27 || p == 38
    case 2 => p == 0
    case 3 => p == 0
    case 4 => p == 0 || p == 27
    case 5 => p == 1
    case 6 => p == 2
    case 7 => p == 3 || p == 38
    case 8 => p == 5
    case 9 => p == 8 || p == 25 || p == 26 || p == 40 || p == 42
    case 10 => p == 8 || p == 25 || p == 26 || p == 40 || p == 42
    case 11 => p == 8 || p == 25 || p == 26 || p == 40 || p == 42
    case 12 => p == 8 || p == 25 || p == 26 || p == 40 || p == 42
    case 13 => p == 8 || p == 25 || p == 26 || p == 40 || p == 42
    case 14 => p == 8 || p == 25 || p == 26 || p == 40 || p == 42
    case 15 => p == 8 || p == 25 || p == 26 || p == 40 || p == 42
    case 16 => p == 8 || p == 26 || p == 42
    case 17 => p == 8 || p == 26 || p == 42
    case 18 => p == 8 || p == 26 || p == 42
    case 19 => p == 8 || p == 26 || p == 42
    case 20 => p == 8 || p == 26 || p == 42
    case 21 => p == 8
    case 22 => p == 8 || p == 25 || p == 26 || p == 40 || p == 42
    case 23 => p == 8 || p == 26 || p == 42
    case 24 => p == 8 || p == 26 || p == 42
    case 25 => p == 16
    case 26 => p == 17
    case 27 => p == 18
    case 28 => p == 21
    case 29 => p == 21
    case 30 => p == 21
    case 31 => p == 22
    case 32 => p == 25
    case 33 => p == 25
    case 34 => p == 25
    case 35 => p == 26
    case 36 => p == 26
    case 37 => p == 26
    case 38 => p == 27
    case 39 => p == 27
    case 40 => p == 33
    case 41 => p == 34
    case 42 => p == 36
    case 43 => p == 37
    case 44 => p == 39
    case 45 => p == 40
    case 46 => p == 42
    case _ => false
  }

  /** The target of a reduction to nt on top of p; -1 where the automaton has no transition. */
  function StateGoto(p: int, nt: int): int
  {
    match nt
    case 24 => if p == 0 then 2 else -1
    case 25 => if p == 0 then 3 else if p == 27 then 38 else -1
    case 26 => if p == 27 then 39 else -1
    case 27 => if p == 21 then 30 else -1
    case 28 => if p == 0 then 4 else if p == 3 then 7 else if p == 27 then 4 else if p == 38 then 7 else -1
    case 29 => if p == 1 then 5 else -1
    case 30 => if p == 8 then 19 else if p == 26 then 19 else if p == 42 then 19 else -1
    case 31 => if p == 16 then 25 else -1
    case 32 => if p == 8 then 20 else if p == 26 then 20 else if p == 42 then 20 else -1
    case 33 => if p == 17 then 26 else -1
    case 34 => if p == 8 then 21 else if p == 26 then 35 else if p == 42 then 46 else -1
    case 35 => if p == 8 then 22 else if p == 25 then 22 else if p == 26 then 22 else if p == 40 then 22 else if p == 42 then 22 else -1
    case 36 => if p == 8 then 23 else if p == 25 then 32 else if p == 26 then 23 else if p == 40 then 45 else if p == 42 then 23 else -1
    case 37 => if p == 26 then 36 else -1
    case 38 => if p == 26 then 37 else -1
    case 39 => if p == 25 then 33 else -1
    case 40 => if p == 25 then 34 else -1
    case 41 => if p == 8 then 24 else if p == 26 then 24 else if p == 42 then 24 else -1
    case 42 => if p == 18 then 27 else -1
    case _ => -1
  }

  lemma DecodeFrom0(s: int, t: int)
    requires 0 <= s < 9 && Terminal(t)
    ensures TableAction(s, t) == StateAction(s, t)
  {
  }

  lemma DecodeFrom9(s: int, t: int)
    requires 9 <= s < 25 && Terminal(t)
    ensures TableAction(s, t) == StateAction(s, t)
  {
  }

  lemma DecodeFrom25(s: int, t: int)
    requires 25 <= s < 30 && Terminal(t)
    ensures TableAction(s, t) == StateAction(s, t)
  {
  }

  lemma DecodeFrom30(s: int, t: int)
    requires 30 <= s < 36 && Terminal(t)
    ensures TableAction(s, t) == StateAction(s, t)
  {
  }

  lemma DecodeFrom36(s: int, t: int)
    requires 36 <= s < 41 && Terminal(t)
    ensures TableAction(s, t) == StateAction(s, t)
  {
    match s
    case 36 =>
    case 37 =>
    case 38 =>
    case 39 =>
    case 40 =>
  }

  lemma DecodeFrom41(s: int, t: int)
    requires 41 <= s < 47 && Terminal(t)
    ensures TableAction(s, t) == StateAction(s, t)
  {
    match s
    case 41 =>
    case 42 =>
    case 43 =>
    case 44 =>
    case 45 =>
    case 46 =>
  }

  /** The action tables encode exactly the decoded automaton. */
  lemma DecodeAction(s: int, t: int)
    requires IsState(s) && Terminal(t)
    ensures TableAction(s, t) == StateAction(s, t)
  {
    hide TableAction, StateAction;
    if s < 9 { DecodeFrom0(s, t); }
    else if s < 25 { DecodeFrom9(s, t); }
    else if s < 30 { DecodeFrom25(s, t); }
    else if s < 36 { DecodeFrom30(s, t); }
    else if s < 41 { DecodeFrom36(s, t); }
    else { DecodeFrom41(s, t); }
  }

  /** The goto tables encode exactly the decoded transitions. */
  lemma DecodeGoto(p: int, nt: int)
    requires IsState(p) && StateGoto(p, nt) != -1
    ensures TableGoto(p, nt) == StateGoto(p, nt)
  {
  }

}
