/**
 Path lookup: the names and [i] steps of a path, the loop of config_lookup_from,
 and the paths that lead to each setting.
 */
module ConfigLookup {
  import opened Options
  import opened ConfigStore
  import opened ConfigMeaning
  import opened ConfigTree
  import opened ConfigEdits
  import opened ConfigScanner
  import opened ConfigPrinter
  import opened ConfigLexing
  import Texts = ConfigTexts

  // ---------------------------------------------------------------------
  // The order on first path components.
  // ---------------------------------------------------------------------

  predicate NotPathToken(c: char) { !IsPathToken(c) }

  /** The first component: everything before the first path token. */
  function First(s: string): (r: string)
    ensures |r| <= |s| && r == s[..|r|]
    ensures forall i :: 0 <= i < |r| ==> !IsPathToken(r[i])
    ensures |r| < |s| ==> IsPathToken(s[|r|])
  {
    s[..RunOf(s, NotPathToken)]
  }

  lemma FirstNext(s: string)
    requires !Ends(s)
    ensures First(s) == [s[0]] + First(s[1..])
  {
  }

  /** Two texts compare equal exactly when their first components are the same. */
  lemma {:induction false} CompareFirst(a: string, b: string)
    ensures NameCompare(a, b) == 0 <==> First(a) == First(b)
    decreases |a|
  {
    if !Ends(a) {
      FirstNext(a);
    }
    if !Ends(b) {
      FirstNext(b);
    }
    if !Ends(a) && !Ends(b) && a[0] == b[0] {
      CompareFirst(a[1..], b[1..]);
      if First(a) == First(b) {
        assert First(a)[1..] == First(a[1..]) && First(b)[1..] == First(b[1..]);
      }
    }
  }

  lemma {:induction false} CompareOpposite(a: string, b: string)
    ensures NameCompare(b, a) == -NameCompare(a, b)
    decreases |a|
  {
    if !Ends(a) && !Ends(b) {
      CompareOpposite(a[1..], b[1..]);
    }
  }

  /** x comes before y in a dictionary: y goes on where x ends, or has the larger character where they first differ. */
  ghost predicate Before(x: string, y: string)
  {
    exists k: nat :: Differ(x, y, k)
  }

  predicate Differ(x: string, y: string, k: nat)
  {
    k <= |x| && k < |y| && x[..k] == y[..k] && (k == |x| || x[k] < y[k])
  }

  /** The comparison is negative exactly when the first component comes before the other in a dictionary. */
  lemma {:induction false} CompareOrder(a: string, b: string)
    ensures NameCompare(a, b) < 0 <==> Before(First(a), First(b))
    decreases |a|
  {
    hide First;
    NoFirst(a);
    NoFirst(b);
    if Ends(a) || Ends(b) {
      assert Differ(First(a), First(b), 0) <==> Ends(a) && !Ends(b);
    } else {
      FirstNext(a);
      FirstNext(b);
      BeforeNext(a[0], First(a[1..]), b[0], First(b[1..]));
      if a[0] == b[0] {
        CompareOrder(a[1..], b[1..]);
      }
    }
  }

  lemma NoFirst(s: string)
    ensures Ends(s) <==> First(s) == ""
  {
  }

  lemma BeforeNext(c: char, x: string, d: char, y: string)
    ensures Before([c] + x, [d] + y) <==> c < d || (c == d && Before(x, y))
  {
    hide Differ;
    DifferFirst(c, x, d, y);
    if Before([c] + x, [d] + y) {
      var k: nat :| Differ([c] + x, [d] + y, k);
      if k > 0 {
        DifferNext(c, x, d, y, k - 1);
      }
    }
    if c == d && Before(x, y) {
      var k: nat :| Differ(x, y, k);
      DifferNext(c, x, d, y, k);
    }
  }

  lemma DifferFirst(c: char, x: string, d: char, y: string)
    ensures Differ([c] + x, [d] + y, 0) <==> c < d
  {
  }

  lemma DifferNext(c: char, x: string, d: char, y: string, k: nat)
    ensures Differ([c] + x, [d] + y, k + 1) <==> c == d && Differ(x, y, k)
  {
    if k <= |x| && k < |y| {
      assert ([c] + x)[..k + 1] == [c] + x[..k] && ([d] + y)[..k + 1] == [d] + y[..k];
      assert ([c] + x[..k])[1..] == x[..k] && ([d] + y[..k])[1..] == y[..k];
      assert ([c] + x)[k + 1 ..] == x[k..] && ([d] + y)[k + 1..] == y[k..];
      assert ([c] + x[..k])[0] == c && ([d] + y[..k])[0] == d;
    }
  }

  lemma {:induction false} CompareTransitive(a: string, b: string, c: string)
    requires NameCompare(a, b) <= 0 && NameCompare(b, c) <= 0
    ensures NameCompare(a, c) <= 0
    decreases |a|
  {
    if !Ends(a) && !Ends(b) && !Ends(c) && a[0] == b[0] == c[0] {
      CompareTransitive(a[1..], b[1..], c[1..]);
    }
  }

  /** Only the first component of the searched name matters. */
  lemma {:induction false} SearchFirst(st: Store, ids: seq<Id>, path: string)
    ensures Search(st, ids, path) == Search(st, ids, First(path))
    decreases |ids|
  {
    FirstOfFirst(path);
    if ids != [] {
      SearchFirst(st, ids[1..], path);
      if ids[0] in st.nodes && st.nodes[ids[0]].name.Some? {
        CompareFirst(path, st.nodes[ids[0]].name.value);
        CompareFirst(First(path), st.nodes[ids[0]].name.value);
      }
    }
  }

  lemma FirstOfFirst(s: string)
    ensures First(First(s)) == First(s)
  {
  }

  // ---------------------------------------------------------------------
  // Steps of a path.
  // ---------------------------------------------------------------------

  datatype Step = Member(name: string) | Elem(idx: nat)

  predicate IsCSpace(c: char) { c == ' ' || '\t' <= c <= '\r' }

  /** atoi as an unsigned index. */
  function IndexOf(s: string): nat
  {
    Atoi(s[RunOf(s, IsCSpace)..]) % TWO32
  }

  /** An index is read after blanks, with any sign, up to its last digit, modulo 2^32. */
  lemma IndexReads(blanks: string, sgn: string, ds: string, rest: string)
    requires forall i :: 0 <= i < |blanks| ==> blanks[i] in {' ', '\t', '\n', '\U{000B}', '\U{000C}', '\r'}
    requires Texts.Sign(sgn) && ds != "" && Texts.AllDigits(ds) && (rest == "" || !IsDigit(rest[0]))
    ensures
      var v := Texts.Signed(sgn, ds);
      IndexOf(blanks + sgn + ds + rest) == (if v < -TWO63 then -TWO63 else if v >= TWO63 then TWO63 - 1 else v) % TWO32
  {
    hide Decimal, Wrap32, Texts.Signed;
    var t := sgn + ds + rest;
    assert blanks + sgn + ds + rest == blanks + t;
    assert t[0] == if sgn == "" then ds[0] else sgn[0];
    RunExact(blanks, t, IsCSpace);
    assert (blanks + t)[|blanks|..] == t;
    Texts.SignedDecimal(sgn, ds, rest);
    var x := Clamp(Texts.Signed(sgn, ds), -TWO63, TWO63 - 1);
    Texts.WrapCongruent(x);
    SameIndex(x, Wrap32(x));
  }

  lemma SameIndex(x: int, y: int)
    requires (x - y) % TWO32 == 0
    ensures x % TWO32 == y % TWO32
  {
  }

  function StepOf(component: string): Step
    requires component != ""
  {
    if component[0] == '[' then Elem(IndexOf(component[1..])) else Member(component)
  }

  /** The text after leading path tokens. */
  function Skip(path: string): (r: string)
    ensures |r| <= |path| && (r == "" || !IsPathToken(r[0]))
  {
    path[RunOf(path, IsPathToken)..]
  }

  function Steps(path: string): seq<Step>
    decreases |path|
  {
    var s := Skip(path);
    if s == "" then []
    else
      var c := First(s);
      [StepOf(c)] + Steps(s[|c|..])
  }

  /** The path ends in a component that is a lone bracket. */
  predicate Bare(path: string)
    decreases |path|
  {
    var s := Skip(path);
    s != "" && (s == "[" || Bare(s[|First(s)|..]))
  }

  function Follow(st: Store, id: Id, step: Step): Option<Id>
    requires id in st.nodes
  {
    match step
    case Member(name) => GetMember(st, id, name)
    case Elem(idx) => GetElem(st, id, idx)
  }

  /** The setting that some steps denote. */
  function Walk(st: Store, id: Id, steps: seq<Step>): Option<Id>
    decreases |steps|
  {
    if id !in st.nodes then None
    else if steps == [] then Some(id)
    else
      match Follow(st, id, steps[0])
      case None => None
      case Some(c) => Walk(st, c, steps[1..])
  }

  /** What the loop returns: a missing last step is forgiven when it is a lone bracket. */
  function Found(st: Store, id: Id, steps: seq<Step>, bare: bool): Option<Id>
    decreases |steps|
  {
    if id !in st.nodes then None
    else if steps == [] then Some(id)
    else
      match Follow(st, id, steps[0])
      case None => if bare && |steps| == 1 then Some(id) else None
      case Some(c) => Found(st, c, steps[1..], bare)
  }

  lemma GetMemberFirst(st: Store, id: Id, path: string)
    requires id in st.nodes
    ensures GetMember(st, id, path) == GetMember(st, id, First(path))
  {
    SearchFirst(st, Children(st.nodes[id]), path);
  }

  /** Reading an index stops at the next path token. */
  lemma {:induction false} DigitsFirst(s: string, acc: nat)
    ensures Digits(s, 10, acc) == Digits(First(s), 10, acc)
    decreases |s|
  {
    if s != "" && IsDigit(s[0]) {
      FirstNext(s);
      assert First(s)[1..] == First(s[1..]);
      DigitsFirst(s[1..], 10 * acc + DigitValue(s[0]));
    }
  }

  lemma {:induction false} IndexFirst(s: string)
    ensures IndexOf(s) == IndexOf(First(s))
    decreases |s|
  {
    hide Clamp, Wrap32, Decimal;
    if s != "" && IsCSpace(s[0]) {
      FirstNext(s);
      assert First(s)[1..] == First(s[1..]);
      IndexFirst(s[1..]);
      var n, m := RunOf(s[1..], IsCSpace), RunOf(First(s[1..]), IsCSpace);
      assert s[1..][n..] == s[1 + n..] && First(s[1..])[m..] == First(s)[1 + m..];
    } else {
      assert s[0..] == s && First(s)[0..] == First(s);
      DecimalFirst(s);
    }
  }

  lemma DecimalFirst(s: string)
    ensures Decimal(s) == Decimal(First(s))
  {
    hide Digits, First;
    if s != "" && IsSign(s[0]) {
      FirstNext(s);
      assert First(s)[1..] == First(s[1..]);
      DigitsFirst(s[1..], 0);
    } else {
      DigitsFirst(s, 0);
    }
  }

  // ---------------------------------------------------------------------
  // config_lookup_from
  // ---------------------------------------------------------------------

  lemma SkipTokens(path: string, p: nat)
    requires p < |path| && IsPathToken(path[p])
    ensures Skip(path[p..]) == Skip(path[p + 1..])
  {
  }

  lemma SameSkip(a: string, b: string)
    requires Skip(a) == Skip(b)
    ensures Steps(a) == Steps(b) && Bare(a) == Bare(b)
  {
  }

  /** One component: the step it makes, and what is left. */
  lemma Component(s: string)
    requires s != "" && !IsPathToken(s[0])
    ensures First(s) != "" && Skip(s) == s
    ensures Steps(s) == [StepOf(First(s))] + Steps(s[|First(s)|..])
    ensures Bare(s) <==> s == "[" || Bare(s[|First(s)|..])
  {
  }

  /** A lone bracket at the very end is the only step whose failure is not seen. */
  lemma LoneBracket(s: string)
    requires s != "" && !IsPathToken(s[0])
    ensures Bare(s) && |Steps(s)| == 1 <==> s == "["
  {
  }

  lemma IndexStep(s: string)
    requires s != "" && s[0] == '['
    ensures First(s) != "" && StepOf(First(s)) == Elem(IndexOf(s[1..]))
  {
    FirstNext(s);
    assert First(s)[1..] == First(s[1..]);
    IndexFirst(s[1..]);
  }

  lemma StepStays(st: Store, id: Id, step: Step)
    requires Tree(st) && id in st.nodes && Follow(st, id, step).Some?
    ensures Follow(st, id, step).value in st.nodes
  {
  }

  /** Skip path tokens from a position. */
  method SkipLoop(path: string, start: nat) returns (p: nat)
    requires start <= |path|
    ensures start <= p <= |path| && (p < |path| ==> !IsPathToken(path[p]))
    ensures Steps(path[p..]) == Steps(path[start..]) && Bare(path[p..]) == Bare(path[start..])
  {
    hide Steps, Bare, Skip;
    p := start;
    while p < |path| && IsPathToken(path[p])
      invariant start <= p <= |path|
      invariant Steps(path[p..]) == Steps(path[start..]) && Bare(path[p..]) == Bare(path[start..])
    {
      SkipTokens(path, p);
      SameSkip(path[p..], path[p + 1..]);
      p := p + 1;
    }
  }

  /** Skip to the end of the component that starts at `start`, from a position in it. */
  method ComponentEnd(path: string, start: nat, from: nat) returns (p: nat)
    requires start <= |path| && start <= from <= start + |First(path[start..])|
    ensures p == start + |First(path[start..])|
  {
    p := from;
    ghost var c := First(path[start..]);
    assert forall j :: start <= j < start + |c| ==> path[j] == c[j - start];
    while p < |path| && !IsPathToken(path[p])
      invariant from <= p <= start + |First(path[start..])| <= |path|
    {
      p := p + 1;
    }
  }

  method LookupFrom(st: Store, start: Id, path: string) returns (r: Option<Id>)
    requires Tree(st) && start in st.nodes
    ensures r == Found(st, start, Steps(path), Bare(path))
  {
    hide Tree, Steps, Bare, First, GetMember, GetElem, IndexOf;
    var p, setting := 0, start;
    assert path[0..] == path;
    while true
      invariant p <= |path| && setting in st.nodes
      invariant Found(st, start, Steps(path), Bare(path)) == Found(st, setting, Steps(path[p..]), Bare(path[p..]))
      decreases |path| - p
    {
      p := SkipLoop(path, p);
      if p == |path| {
        assert path[p..] == "";
        EmptySteps();
        return Some(setting);
      }
      ghost var s := path[p..];
      Component(s);
      LoneBracket(s);
      var found, at := None, p;
      if path[p] == '[' {
        p := p + 1;
        IndexStep(s);
        assert path[p..] == s[1..];
        found := GetElem(st, setting, IndexOf(path[p..]));
      } else {
        GetMemberFirst(st, setting, s);
        found := GetMember(st, setting, path[p..]);
      }
      assert found == Follow(st, setting, StepOf(First(s)));
      if found.None? {
        return if p < |path| then None else Some(setting);
      }
      StepStays(st, setting, StepOf(First(s)));
      p := ComponentEnd(path, at, p);
      ghost var rest := s[|First(s)|..];
      assert path[p..] == rest;
      assert Steps(s)[1..] == Steps(rest);
      LastBare(st, found.value, s, rest);
      setting := found.value;
    }
  }

  lemma EmptySteps()
    ensures Steps("") == [] && !Bare("")
  {
  }

  /** Past a component that was found, only the rest decides. */
  lemma LastBare(st: Store, id: Id, s: string, rest: string)
    requires Bare(s) <==> s == "[" || Bare(rest)
    requires s == "[" ==> rest == ""
    ensures Found(st, id, Steps(rest), Bare(s)) == Found(st, id, Steps(rest), Bare(rest))
  {
  }

  // ---------------------------------------------------------------------
  // What the loop finds is what the steps denote.
  // ---------------------------------------------------------------------

  lemma {:induction false} FoundIsWalk(st: Store, id: Id, steps: seq<Step>)
    ensures Found(st, id, steps, false) == Walk(st, id, steps)
    decreases |steps|
  {
    if id in st.nodes && steps != [] && Follow(st, id, steps[0]).Some? {
      FoundIsWalk(st, Follow(st, id, steps[0]).value, steps[1..]);
    }
  }

  lemma {:induction false} FoundBare(st: Store, id: Id, steps: seq<Step>)
    requires Tree(st) && steps != []
    ensures
      var before := Walk(st, id, steps[..|steps| - 1]);
      Found(st, id, steps, true) == if Walk(st, id, steps).Some? || before.None? then Walk(st, id, steps) else before
    decreases |steps|
  {
    hide Tree, GetMember, GetElem;
    var init := steps[..|steps| - 1];
    if id in st.nodes && Follow(st, id, steps[0]).Some? {
      var c := Follow(st, id, steps[0]).value;
      StepStays(st, id, steps[0]);
      if |steps| == 1 {
        assert init == [] && steps[1..] == [];
      } else {
        FoundBare(st, c, steps[1..]);
        assert steps[1..][..|steps| - 2] == init[1..] && init[0] == steps[0];
      }
    } else if |steps| > 1 {
      assert init[0] == steps[0];
    }
  }

  lemma {:induction false} BareLast(path: string)
    requires Bare(path)
    ensures Steps(path) != [] && Steps(path)[|Steps(path)| - 1] == Elem(0)
    decreases |path|
  {
    hide First;
    var s := Skip(path);
    if s == "[" {
      FirstNext(s);
      assert First(s[1..]) == "";
      assert First(s) == s && s[1..] == "" && Steps("") == [];
      assert IndexOf("") == 0;
    } else {
      BareLast(s[|First(s)|..]);
    }
  }

  lemma WalkIn(st: Store, id: Id, steps: seq<Step>)
    requires Walk(st, id, steps).Some?
    ensures Walk(st, id, steps).value in st.nodes
    decreases |steps|
  {
  }

  /** A setting without elements, where a lone bracket fails unseen. */
  predicate Elementless(st: Store, id: Option<Id>)
  {
    id.Some? && id.value in st.nodes && GetElem(st, id.value, 0).None?
  }

  /**
   The result is the setting that the steps denote, except when the path ends in a
   lone bracket after a setting without elements: then it is that setting, not null.
   */
  lemma LookupExact(st: Store, id: Id, path: string)
    requires Tree(st) && id in st.nodes
    ensures Bare(path) ==> Steps(path) != []
    ensures
      var steps := Steps(path);
      Found(st, id, steps, Bare(path)) == Walk(st, id, steps) <==>
        !(Bare(path) && Elementless(st, Walk(st, id, steps[..|steps| - 1])))
  {
    hide Tree, Steps, Bare, GetElem, GetMember;
    var steps := Steps(path);
    FoundIsWalk(st, id, steps);
    if Bare(path) {
      BareLast(path);
      FoundBare(st, id, steps);
      var init, last := steps[..|steps| - 1], [Elem(0)];
      assert steps == init + last;
      WalkAppend(st, id, init, last);
      if Walk(st, id, init).Some? {
        var before := Walk(st, id, init).value;
        WalkIn(st, id, init);
        assert last[1..] == [];
        assert Follow(st, before, Elem(0)) == GetElem(st, before, 0);
        if GetElem(st, before, 0).Some? {
          StepStays(st, before, Elem(0));
          assert Walk(st, GetElem(st, before, 0).value, []).Some?;
        }
      }
    }
  }

  /** Looking up a lone bracket in an empty tree yields the root. */
  lemma LoneBracketFindsRoot()
    ensures Found(EMPTY, 0, Steps("["), Bare("[")) == Some(0) && Walk(EMPTY, 0, Steps("[")) == None
  {
    hide Steps, Bare, First, IndexOf;
    LoneBracket("[");
    Component("[");
    FirstNext("[");
    assert Children(EMPTY.nodes[0]) == [];
    assert Follow(EMPTY, 0, Steps("[")[0]) == None;
  }

  // ---------------------------------------------------------------------
  // The path of each setting leads to it.
  // ---------------------------------------------------------------------

  function StepText(step: Step): string
  {
    match step
    case Member(name) => name
    case Elem(idx) => "[" + DecimalText(idx) + "]"
  }

  predicate WellFormed(step: Step)
  {
    match step
    case Member(name) => ValidName(name)
    case Elem(idx) => idx < TWO32
  }

  /** Steps joined by a separator. */
  function JoinSteps(steps: seq<Step>, sep: char): string
  {
    if steps == [] then ""
    else if |steps| == 1 then StepText(steps[0])
    else StepText(steps[0]) + [sep] + JoinSteps(steps[1..], sep)
  }

  lemma IndexBack(idx: nat)
    requires idx < TWO32
    ensures IndexOf(DecimalText(idx) + "]") == idx
  {
    hide Digits, Number;
    var t := Number(idx, 10);
    var s := t + "]";
    assert s[0] == t[0] && s[0..] == s;
    DigitsAppend(t, "]", 10, 0);
    NumberValue(idx, 10);
    assert Digits("]", 10, idx) == idx by { NotADigit(idx); }
    assert Decimal(s) == idx;
    WrapIndex(idx);
  }

  lemma NotADigit(n: nat)
    ensures Digits("]", 10, n) == n
  {
  }

  lemma WrapIndex(idx: nat)
    requires idx < TWO32
    ensures Wrap32(idx) % TWO32 == idx
  {
  }

  /** A step's text is one component, and it reads as the step. */
  lemma StepBack(step: Step)
    requires WellFormed(step)
    ensures
      var t := StepText(step);
      t != "" && t != "[" && (forall i :: 0 <= i < |t| ==> !IsPathToken(t[i])) && StepOf(t) == step
  {
    hide IndexOf;
    var t := StepText(step);
    match step
    case Member(name) => ValidHasNoPath(name);
    case Elem(idx) =>
      IndexBack(idx);
      assert t[1..] == DecimalText(idx) + "]";
      assert t[0] == '[' && |t| > 1;
  }

  lemma FirstOfText(t: string, rest: string)
    requires forall i :: 0 <= i < |t| ==> !IsPathToken(t[i])
    requires rest == "" || IsPathToken(rest[0])
    ensures First(t + rest) == t
  {
    RunExact(t, rest, NotPathToken);
  }

  lemma {:induction false} JoinedBack(steps: seq<Step>, sep: char)
    requires IsPathToken(sep) && forall i :: 0 <= i < |steps| ==> WellFormed(steps[i])
    ensures Steps(JoinSteps(steps, sep)) == steps && !Bare(JoinSteps(steps, sep))
    decreases |steps|
  {
    hide StepOf, StepText, First, WellFormed, Steps, Bare, Skip;
    if steps == [] {
      EmptySteps();
    } else {
      var t := StepText(steps[0]);
      StepBack(steps[0]);
      var rest := if |steps| == 1 then "" else [sep] + JoinSteps(steps[1..], sep);
      var s := t + rest;
      assert JoinSteps(steps, sep) == s;
      assert s[0] == t[0];
      FirstOfText(t, rest);
      Component(s);
      assert s[|t|..] == rest;
      JoinedBack(steps[1..], sep);
      if |steps| == 1 {
        EmptySteps();
        assert s == t;
      } else {
        SkipTokens(rest, 0);
        assert rest[0..] == rest && rest[1..] == JoinSteps(steps[1..], sep);
        SameSkip(rest, rest[1..]);
      }
    }
  }

  /** The position of an element. */
  function Position(ids: seq<Id>, k: Id): (i: nat)
    requires k in ids
    ensures i < |ids| && ids[i] == k
  {
    if ids[0] == k then 0 else 1 + Position(ids[1..], k)
  }

  /** The steps from the root to a setting: names where there are any, positions elsewhere. */
  ghost function StepsTo(st: Store, id: Id): seq<Step>
    requires Tree(st) && id in st.nodes
    decreases id
  {
    if id == 0 then []
    else
      assert LinkedNode(st, id);
      var p := st.nodes[id].parent.value;
      var s := st.nodes[id];
      StepsTo(st, p) + [if s.name.Some? then Member(s.name.value) else Elem(Position(Children(st.nodes[p]), id))]
  }

  lemma {:induction false} WalkAppend(st: Store, id: Id, a: seq<Step>, b: seq<Step>)
    ensures Walk(st, id, a + b) == match Walk(st, id, a) case None => None case Some(c) => Walk(st, c, b)
    decreases |a|
  {
    if a == [] {
      assert a + b == b;
    } else {
      assert (a + b)[1..] == a[1..] + b && (a + b)[0] == a[0];
      if id in st.nodes && Follow(st, id, a[0]).Some? {
        WalkAppend(st, Follow(st, id, a[0]).value, a[1..], b);
      }
    }
  }

  lemma NameAt(names: seq<Option<string>>, group: bool, i: nat, j: nat)
    requires Names(names, group) && i < |names| && names[i].Some?
    ensures ValidName(names[i].value)
    ensures j < |names| && names[j] == names[i] ==> i == j
  {
  }

  lemma SearchUnique(st: Store, ids: seq<Id>, i: nat)
    requires forall k :: k in ids ==> k in st.nodes
    requires i < |ids| && Names(NamesOf(st, ids), true) && NamesOf(st, ids)[i].Some?
    ensures Search(st, ids, NamesOf(st, ids)[i].value) == i
  {
    hide Names, NameCompare, Search, NoPath, ValidName;
    var names := NamesOf(st, ids);
    var name := names[i].value;
    NameAt(names, true, i, 0);
    ValidHasNoPath(name);
    CompareEqual(name, name);
    var k := Search(st, ids, name);
    assert ids[i] in ids;
    assert k <= i;
    assert names[k].Some?;
    NameAt(names, true, k, i);
    ValidHasNoPath(names[k].value);
    CompareEqual(name, names[k].value);
  }

  /** A named member is found by its name, for names are unique. */
  lemma MemberFound(st: Store, p: Id, id: Id)
    requires Tree(st) && p in st.nodes && id in Children(st.nodes[p]) && st.nodes[id].name.Some?
    ensures GetMember(st, p, st.nodes[id].name.value) == Some(id) && ValidName(st.nodes[id].name.value)
  {
    hide Linked, Shape, Names, ValidName, Search;
    assert NodeOk(st, p);
    var ids := Children(st.nodes[p]);
    var i := Position(ids, id);
    NamedGroup(NamesOf(st, ids), st.nodes[p].kind.GroupKind?, i);
    SearchUnique(st, ids, i);
    NameAt(NamesOf(st, ids), true, i, 0);
  }

  lemma NamedGroup(names: seq<Option<string>>, group: bool, i: nat)
    requires Names(names, group) && i < |names| && names[i].Some?
    ensures group
  {
  }

  lemma {:induction false} StepsLead(st: Store, id: Id)
    requires Tree(st) && id in st.nodes
    requires forall k :: k in st.nodes ==> |Children(st.nodes[k])| <= TWO32
    ensures Walk(st, 0, StepsTo(st, id)) == Some(id)
    ensures forall i :: 0 <= i < |StepsTo(st, id)| ==> WellFormed(StepsTo(st, id)[i])
    decreases id
  {
    hide NodeOk, GetMember;
    if id != 0 {
      assert LinkedNode(st, id);
      var s := st.nodes[id];
      var p := s.parent.value;
      StepsLead(st, p);
      var step := if s.name.Some? then Member(s.name.value) else Elem(Position(Children(st.nodes[p]), id));
      WalkAppend(st, 0, StepsTo(st, p), [step]);
      if s.name.Some? {
        MemberFound(st, p, id);
      } else {
        ParentAggregate(st, p);
      }
      assert Follow(st, p, step) == Some(id);
      assert [step][1..] == [];
      assert Walk(st, p, [step]) == Walk(st, id, []);
    }
  }

  lemma ParentAggregate(st: Store, p: Id)
    requires Tree(st) && p in st.nodes && Children(st.nodes[p]) != []
    ensures Aggregate(st.nodes[p].kind)
  {
  }

  /**
   Looking up the joined steps of any setting returns that setting, whichever path
   token joins them. Lengths are unsigned ints, so positions are below 2^32.
   */
  lemma LookupFindsEverySetting(st: Store, id: Id, sep: char)
    requires Tree(st) && id in st.nodes && IsPathToken(sep)
    requires forall k :: k in st.nodes ==> |Children(st.nodes[k])| <= TWO32
    ensures
      var path := JoinSteps(StepsTo(st, id), sep);
      Found(st, 0, Steps(path), Bare(path)) == Some(id)
  {
    hide Tree, Steps, Bare, Walk, Found, StepsTo;
    StepsLead(st, id);
    JoinedBack(StepsTo(st, id), sep);
    FoundIsWalk(st, 0, StepsTo(st, id));
  }
}
