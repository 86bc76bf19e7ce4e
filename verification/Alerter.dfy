/**
 Alert dispatch (alerter.cpp): rules per directory and level, looked up along the
 chain of base directories, and the registered actions they name.
 */
module Alerter {
  import opened Options
  import opened Paths

  /** The key of a rule: a directory and an alert level. */
  datatype DirLevel = DirLevel(dir: string, level: int)

  type Rules = map<DirLevel, seq<string>>

  /** One execution of an action. */
  datatype Call = Call(action: string, level: int, dir: string, name: string)

  // ---------------------------------------------------------------------
  // The nearest rule.
  // ---------------------------------------------------------------------

  /** A directory, or what is left of it before one of its separators. */
  predicate Ancestor(q: string, dir: string)
  {
    q == dir || exists i :: 0 <= i < |dir| && IsSeparator(dir[i]) && q == dir[..i]
  }

  /** The chain is cut one separator at a time. */
  lemma AncestorStep(q: string, dir: string)
    ensures Ancestor(q, dir) <==> q == dir || (BaseDir(dir) != dir && Ancestor(q, BaseDir(dir)))
  {
  }

  lemma AncestorShorter(q: string, dir: string)
    requires Ancestor(q, dir)
    ensures |q| <= |dir| && (|q| == |dir| ==> q == dir)
  {
  }

  /** A directory is on the chain exactly when the text continues with a separator after it. */
  lemma AncestorPrefix(q: string, dir: string)
    ensures Ancestor(q, dir) <==> q == dir || (|q| < |dir| && dir[..|q|] == q && IsSeparator(dir[|q|]))
  {
  }

  /** The directory whose rule answers for a level: the longest ancestor that has one. */
  ghost predicate Nearest(conf: Rules, level: int, dir: string, answer: Option<string>)
  {
    match answer
    case None => forall q :: Ancestor(q, dir) ==> DirLevel(q, level) !in conf
    case Some(q) =>
      && Ancestor(q, dir) && DirLevel(q, level) in conf
      && forall p :: Ancestor(p, dir) && |p| > |q| ==> DirLevel(p, level) !in conf
  }

  /** There is one such directory. */
  lemma NearestUnique(conf: Rules, level: int, dir: string, a: Option<string>, b: Option<string>)
    requires Nearest(conf, level, dir, a) && Nearest(conf, level, dir, b)
    ensures a == b
  {
  }

  /** The lookup along the chain of base directories. */
  function RuleDir(conf: Rules, level: int, dir: string): (r: Option<string>)
    ensures r.Some? ==> DirLevel(r.value, level) in conf
    decreases |dir|
  {
    if DirLevel(dir, level) in conf then Some(dir)
    else if BaseDir(dir) == dir then None
    else RuleDir(conf, level, BaseDir(dir))
  }

  /** It finds exactly the longest ancestor that has a rule, and none exactly when no ancestor has any. */
  lemma {:induction false} RuleIsNearest(conf: Rules, level: int, dir: string)
    ensures Nearest(conf, level, dir, RuleDir(conf, level, dir))
    decreases |dir|
  {
    hide Ancestor, BaseDir;
    forall q
      ensures Ancestor(q, dir) <==> q == dir || (BaseDir(dir) != dir && Ancestor(q, BaseDir(dir)))
    {
      AncestorStep(q, dir);
    }
    forall q | Ancestor(q, dir)
      ensures |q| <= |dir|
    {
      AncestorShorter(q, dir);
    }
    if DirLevel(dir, level) !in conf && BaseDir(dir) != dir {
      RuleIsNearest(conf, level, BaseDir(dir));
    }
  }

  /** From "/x" the chain goes to the empty text, not to "/". */
  lemma RootIsEmpty(q: string)
    ensures Ancestor(q, "/x") <==> q == "/x" || q == ""
  {
    assert "/x"[0] == '/' && "/x"[1] == 'x' && "/x"[..0] == "";
  }

  /**
   A rule for "/" is the answer exactly for "/" itself, and for texts with a separator
   right after the first one when no longer ancestor has a rule.
   */
  lemma RootRule(conf: Rules, level: int, dir: string)
    ensures RuleDir(conf, level, dir) == Some("/") <==>
      && DirLevel("/", level) in conf
      && (dir == "/" || (|dir| > 1 && dir[0] == '/' && IsSeparator(dir[1])))
      && forall p :: Ancestor(p, dir) && |p| > 1 ==> DirLevel(p, level) !in conf
  {
    hide Ancestor, BaseDir, RuleDir;
    RuleIsNearest(conf, level, dir);
    AncestorPrefix("/", dir);
    assert |dir| > 1 ==> (dir[..1] == "/" <==> dir[0] == '/');
    if Nearest(conf, level, dir, Some("/")) {
      NearestUnique(conf, level, dir, Some("/"), RuleDir(conf, level, dir));
    }
  }

  // ---------------------------------------------------------------------
  // Actions.
  // ---------------------------------------------------------------------

  /** The calls that a rule's actions make: registered ones, in order, as often as they are named. */
  function Calls(types: seq<string>, actions: set<string>, level: int, dir: string, name: string): seq<Call>
  {
    if types == [] then []
    else (if types[0] in actions then [Call(types[0], level, dir, name)] else [])
         + Calls(types[1..], actions, level, dir, name)
  }

  lemma Joins(a: seq<Call>, b: seq<Call>, c: seq<Call>)
    ensures a + (b + c) == a + b + c
  {
  }

  lemma {:induction false} CallsLast(
    types: seq<string>, t: string, actions: set<string>, level: int, dir: string, name: string)
    ensures Calls(types + [t], actions, level, dir, name)
         == Calls(types, actions, level, dir, name) + (if t in actions then [Call(t, level, dir, name)] else [])
    decreases |types|
  {
    if types == [] {
      assert types + [t] == [t] && [t][1..] == [];
    } else {
      assert (types + [t])[1..] == types[1..] + [t] && (types + [t])[0] == types[0];
      CallsLast(types[1..], t, actions, level, dir, name);
      var first := if types[0] in actions then [Call(types[0], level, dir, name)] else [];
      var last := if t in actions then [Call(t, level, dir, name)] else [];
      Joins(first, Calls(types[1..], actions, level, dir, name), last);
    }
  }

  /** The calls of two lists of actions, one after the other. */
  lemma {:induction false} CallsAppend(
    a: seq<string>, b: seq<string>, actions: set<string>, level: int, dir: string, name: string)
    ensures Calls(a + b, actions, level, dir, name)
         == Calls(a, actions, level, dir, name) + Calls(b, actions, level, dir, name)
    decreases |b|
  {
    if b == [] {
      assert a + b == a;
    } else {
      var n := |b| - 1;
      assert a + b == (a + b[..n]) + [b[n]] && b == b[..n] + [b[n]];
      CallsAppend(a, b[..n], actions, level, dir, name);
      CallsLast(a + b[..n], b[n], actions, level, dir, name);
      CallsLast(b[..n], b[n], actions, level, dir, name);
    }
  }

  /** One action runs with the alert's level, directory and name if it is registered. */
  lemma CallsOne(t: string, actions: set<string>, level: int, dir: string, name: string)
    ensures Calls([t], actions, level, dir, name) == if t in actions then [Call(t, level, dir, name)] else []
  {
    assert [t][1..] == [];
  }

  lemma {:induction false} CallsCount(
    types: seq<string>, actions: set<string>, level: int, dir: string, name: string, c: Call)
    ensures multiset(Calls(types, actions, level, dir, name))[c]
         == if c == Call(c.action, level, dir, name) && c.action in actions then multiset(types)[c.action] else 0
    decreases |types|
  {
    if types != [] {
      CallsCount(types[1..], actions, level, dir, name, c);
      assert types == [types[0]] + types[1..];
      var first := if types[0] in actions then [Call(types[0], level, dir, name)] else [];
      assert multiset(Calls(types, actions, level, dir, name))
          == multiset(first) + multiset(Calls(types[1..], actions, level, dir, name));
    }
  }

  // ---------------------------------------------------------------------
  // The object.
  // ---------------------------------------------------------------------

  class Dispatcher {
    var conf: Rules
    var actions: set<string>
    var ran: seq<Call>

    /** No rule belongs to a blank directory. */
    ghost predicate Valid()
      reads this
    {
      forall k :: k in conf ==> !AllBlank(k.dir)
    }

    constructor ()
      ensures Valid() && conf == map[] && actions == {} && ran == []
    {
      conf, actions, ran := map[], {}, [];
    }

    method AddAction(action: string)
      requires Valid()
      modifies this`actions
      ensures Valid() && actions == old(actions) + {action}
    {
      actions := actions + {action};
    }

    /** The directory is trimmed for the test only; the rule is kept under the text as it was given. */
    method AddRule(level: int, dir: string, types: seq<string>)
      requires Valid()
      modifies this`conf
      ensures Valid()
      ensures conf == if AllBlank(dir) then old(conf) else old(conf)[DirLevel(dir, level) := types]
    {
      var path := Trim(dir);
      TrimEmpty(dir);
      if |path| == 0 {
        return;
      }
      conf := conf[DirLevel(dir, level) := types];
    }

    method FindRule(level: int, dir: string) returns (types: Option<seq<string>>)
      ensures types == if DirLevel(dir, level) in conf then Some(conf[DirLevel(dir, level)]) else None
    {
      if DirLevel(dir, level) in conf {
        return Some(conf[DirLevel(dir, level)]);
      }
      return None;
    }

    /** The registered actions of the nearest rule run, in order, and nothing else. */
    method Alert(level: int, dir: string, name: string)
      requires Valid()
      modifies this`ran
      ensures forall q :: Nearest(conf, level, dir, Some(q)) ==>
        ran == old(ran) + Calls(conf[DirLevel(q, level)], actions, level, dir, name)
      ensures Nearest(conf, level, dir, None) ==> ran == old(ran)
      ensures exists answer :: Nearest(conf, level, dir, answer)
    {
      hide Calls, BaseDir, Nearest;
      ghost var nearest := RuleDir(conf, level, dir);
      RuleIsNearest(conf, level, dir);
      forall answer | Nearest(conf, level, dir, answer)
        ensures answer == nearest
      {
        NearestUnique(conf, level, dir, answer, nearest);
      }
      var path := dir;
      var found: Option<seq<string>>;
      while true
        invariant ran == old(ran) && RuleDir(conf, level, path) == nearest
        decreases |path|
      {
        found := FindRule(level, path);
        if found.Some? {
          break;
        }
        var before := path;
        path := BaseDir(before);
        if before == path {
          return;
        }
      }
      assert nearest == Some(path);
      var types := found.value;
      var it := 0;
      assert types[..0] == [];
      NoCalls(actions, level, dir, name);
      while it < |types|
        invariant 0 <= it <= |types|
        invariant ran == old(ran) + Calls(types[..it], actions, level, dir, name)
      {
        if types[it] in actions {
          ran := ran + [Call(types[it], level, dir, name)];
        }
        CallsLast(types[..it], types[it], actions, level, dir, name);
        assert types[..it + 1] == types[..it] + [types[it]];
        it := it + 1;
      }
      assert types[..|types|] == types;
    }
  }

  lemma NoCalls(actions: set<string>, level: int, dir: string, name: string)
    ensures Calls([], actions, level, dir, name) == []
  {
  }
}
