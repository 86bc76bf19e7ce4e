/**
 What the traversal finds: exactly what a trail of entered directories leads to,
 each path once, and nothing under an excluded directory.
 */
module WatcherWalk {
  import opened Paths
  import opened Watcher
  import opened Alerter

  /** q is p or lies below the directory p. */
  predicate Below(p: string, q: string)
  {
    q == p || (|q| >= |Slashed(p)| && q[..|Slashed(p)|] == Slashed(p))
  }

  /** What follows an entry's name in a path below it: nothing, or a slash. */
  lemma BelowSplit(d: string, name: string, q: string) returns (rest: string)
    requires GoodName(name) && Below(Join(d, name), q)
    ensures q == Slashed(d) + (name + rest) && (rest == "" || rest[0] == '/')
  {
    hide Slashed;
    var c := Join(d, name);
    assert c[|c| - 1] == name[|name| - 1] && name[|name| - 1] in name;
    NoSlashYet(c);
    rest := q[|c|..];
    assert q[..|c|] == c;
    assert q != c ==> q[..|c| + 1][|c|] == '/';
  }

  lemma BelowPrefix(d: string, q: string)
    requires |q| >= |Slashed(d)| && q[..|Slashed(d)|] == Slashed(d)
    ensures Below(d, q)
  {
  }

  lemma NoSlashYet(p: string)
    requires !EndsInSlash(p)
    ensures Slashed(p) == p + "/"
  {
  }

  /** Two texts without slashes, each followed by nothing or by a slash. */
  lemma CutUnique(a: string, x: string, b: string, y: string)
    requires '/' !in a && '/' !in b && a + x == b + y
    requires (x == "" || x[0] == '/') && (y == "" || y[0] == '/')
    ensures a == b
  {
    var s := a + x;
    assert s[..|a|] == a && s[..|b|] == b;
    assert forall i :: 0 <= i < |a| ==> s[i] == a[i] && a[i] in a;
    assert forall i :: 0 <= i < |b| ==> s[i] == b[i] && b[i] in b;
    assert |a| < |s| ==> s[|a|] == x[0];
    assert |b| < |s| ==> s[|b|] == y[0];
  }

  /** Nothing is below two entries of a directory. */
  lemma Apart(d: string, a: string, b: string, q: string)
    requires GoodName(a) && GoodName(b) && Below(Join(d, a), q) && Below(Join(d, b), q)
    ensures a == b
  {
    hide Below, Join;
    var x := BelowSplit(d, a, q);
    var y := BelowSplit(d, b, q);
    assert a + x == q[|Slashed(d)|..] == b + y;
    CutUnique(a, x, b, y);
  }

  predicate EndsInSlash(p: string) { p != "" && p[|p| - 1] == '/' }

  // ---------------------------------------------------------------------
  // Trails.
  // ---------------------------------------------------------------------

  /** A directory that is readable and not excluded. */
  predicate Open(w: World, d: string)
  {
    d in w.fs && w.fs[d].Directory? && w.fs[d].readable && d !in w.filter
  }

  /** Such a directory leads to its entries; without recursion, only to those that are files. */
  ghost predicate Leads(w: World, d: string, q: string)
  {
    && Open(w, d) && (w.recursive || (q in w.fs && w.fs[q].File?))
    && exists i :: 0 <= i < |w.fs[d].names| && q == Join(d, w.fs[d].names[i])
  }

  ghost predicate Trail(w: World, t: seq<string>, root: string, q: string)
  {
    && t != [] && t[0] == root && t[|t| - 1] == q
    && forall i :: 0 <= i < |t| - 1 ==> Leads(w, t[i], t[i + 1])
  }

  /** An entry that is yielded once it is reached: a file, or such a directory. */
  ghost predicate Yields(w: World, e: Entry)
  {
    e.name in w.fs && if e.isDir then Open(w, e.name) else w.fs[e.name].File?
  }

  lemma OpenEntered(w: World, d: string)
    ensures Open(w, d) <==> Entered(w, d)
  {
  }

  lemma PushedLeads(w: World, d: string, q: string)
    requires Entered(w, d)
    ensures q in Pushed(w, d, w.fs[d].names) <==> Leads(w, d, q)
  {
  }

  lemma {:induction false} InWalkAll(w: World, stack: seq<string>, e: Entry)
    requires Sane(w.fs)
    ensures e in WalkAll(w, stack, 0) <==> exists q :: q in stack && e in Walk(w, q)
    decreases |stack|
  {
    hide Walk;
    if stack != [] {
      var n := |stack| - 1;
      InWalkAll(w, stack[..n], e);
      assert stack == stack[..n] + [stack[n]];
      assert forall q :: q in stack <==> q in stack[..n] || q == stack[n];
      assert WalkAll(w, stack, 0) == Walk(w, stack[n]) + WalkAll(w, stack[..n], 0);
      assert e in WalkAll(w, stack, 0) <==> e in Walk(w, stack[n]) || e in WalkAll(w, stack[..n], 0);
    }
  }

  lemma InWalk(w: World, p: string, e: Entry)
    requires Sane(w.fs)
    ensures e in Walk(w, p) <==> (e.name == p && Yields(w, e)) || exists q :: Leads(w, p, q) && e in Walk(w, q)
  {
    hide WalkAll, Pushed, Sane, Join;
    OpenEntered(w, p);
    if Entered(w, p) {
      var stack := Pushed(w, p, w.fs[p].names);
      WalkDirectory(w, p);
      InWalkAll(w, stack, e);
      forall q
        ensures q in stack <==> Leads(w, p, q)
      {
        PushedLeads(w, p, q);
      }
    }
  }

  lemma LeadsDown(w: World, d: string, q: string)
    requires Sane(w.fs) && Leads(w, d, q)
    ensures q in w.fs && |d| < |q| < PATH_MAX
    ensures !EndsInSlash(q)
    ensures forall x :: Below(q, x) ==> Below(d, x) && |x| > |d|
  {
    hide Below;
    var i :| 0 <= i < |w.fs[d].names| && q == Join(d, w.fs[d].names[i]);
    var name := w.fs[d].names[i];
    assert GoodName(name) && q in w.fs;
    assert q[|q| - 1] == name[|name| - 1] && name[|name| - 1] in name;
    forall x | Below(q, x)
      ensures Below(d, x) && |x| > |d|
    {
      var rest := BelowSplit(d, name, x);
      assert x[..|Slashed(d)|] == Slashed(d);
      BelowPrefix(d, x);
    }
  }

  /** Everything found is at the end of a trail and below the root of the walk. */
  lemma {:induction false} FoundTrail(w: World, p: string, e: Entry) returns (t: seq<string>)
    requires Sane(w.fs) && e in Walk(w, p)
    ensures Trail(w, t, p, e.name) && Yields(w, e) && Below(p, e.name)
    decreases PATH_MAX - |p|
  {
    hide Walk, Leads, Sane, Below;
    InWalk(w, p, e);
    if e.name == p && Yields(w, e) {
      t := [p];
      assert Below(p, p) by { BelowSelf(p); }
    } else {
      var q :| Leads(w, p, q) && e in Walk(w, q);
      LeadsDown(w, p, q);
      var rest := FoundTrail(w, q, e);
      t := [p] + rest;
      forall i | 0 <= i < |t| - 1
        ensures Leads(w, t[i], t[i + 1])
      {
        if i > 0 {
          assert t[i] == rest[i - 1] && t[i + 1] == rest[i];
        }
      }
    }
  }

  lemma BelowSelf(p: string)
    ensures Below(p, p)
  {
  }

  lemma {:induction false} TrailFound(w: World, t: seq<string>, p: string, e: Entry)
    requires Sane(w.fs) && Trail(w, t, p, e.name) && Yields(w, e)
    ensures e in Walk(w, p)
    decreases |t|
  {
    hide Walk, Leads, Sane, Yields;
    InWalk(w, p, e);
    if |t| > 1 {
      var rest := t[1..];
      forall i | 0 <= i < |rest| - 1
        ensures Leads(w, rest[i], rest[i + 1])
      {
        assert Leads(w, t[i + 1], t[i + 2]);
      }
      TrailFound(w, rest, t[1], e);
      assert Leads(w, t[0], t[1]);
    }
  }

  /** The walk finds exactly the files, and the entered directories, to which trails lead. */
  lemma WalkExact(w: World, root: string, e: Entry)
    requires Sane(w.fs)
    ensures e in Walk(w, root) <==> Yields(w, e) && exists t :: Trail(w, t, root, e.name)
  {
    hide Walk, Trail, Yields, Sane;
    if e in Walk(w, root) {
      var t := FoundTrail(w, root, e);
    }
    if Yields(w, e) && exists t :: Trail(w, t, root, e.name) {
      var t :| Trail(w, t, root, e.name);
      TrailFound(w, t, root, e);
    }
  }

  // ---------------------------------------------------------------------
  // Once each.
  // ---------------------------------------------------------------------

  predicate Once(es: seq<Entry>)
  {
    forall i, j :: 0 <= i < j < |es| ==> es[i].name != es[j].name
  }

  /** No path is below two places of the stack. */
  ghost predicate Separate(stack: seq<string>)
  {
    forall i, j, x :: 0 <= i < j < |stack| && Below(stack[i], x) ==> !Below(stack[j], x)
  }

  lemma OnceAppend(a: seq<Entry>, b: seq<Entry>)
    requires Once(a) && Once(b)
    requires forall x, y :: x in a && y in b ==> x.name != y.name
    ensures Once(a + b)
  {
  }

  lemma {:induction false} PushedSeparate(w: World, d: string, names: seq<string>)
    requires DistinctNames(names) && forall i :: 0 <= i < |names| ==> GoodName(names[i])
    ensures Separate(Pushed(w, d, names))
    decreases |names|
  {
    hide Below, Join;
    if names != [] {
      var n := |names| - 1;
      PushedSeparate(w, d, names[..n]);
      var before, all := Pushed(w, d, names[..n]), Pushed(w, d, names);
      forall i, j, x | 0 <= i < j < |all| && Below(all[i], x)
        ensures !Below(all[j], x)
      {
        if j == |before| {
          assert all[i] in before && all[j] == Join(d, names[n]);
          var k :| 0 <= k < n && all[i] == Join(d, names[..n][k]);
          if Below(all[j], x) {
            Apart(d, names[k], names[n], x);
          }
        }
      }
    }
  }

  lemma {:induction false} WalkOnce(w: World, p: string)
    requires Sane(w.fs)
    ensures Once(Walk(w, p))
    decreases PATH_MAX - |p|, 0
  {
    hide Sane, Pushed, Leads, Below;
    if Entered(w, p) {
      EnteredFits(w, p);
      var stack := Pushed(w, p, w.fs[p].names);
      WalkDirectory(w, p);
      PushedSeparate(w, p, w.fs[p].names);
      forall q | q in stack
        ensures |q| > |p|
      {
        PushedLeads(w, p, q);
        LeadsDown(w, p, q);
      }
      WalkAllOnce(w, stack, |p| + 1);
      var rest := WalkAll(w, stack, 0);
      forall e | e in rest
        ensures e.name != p
      {
        InWalkAll(w, stack, e);
        var q :| q in stack && e in Walk(w, q);
        var t := FoundTrail(w, q, e);
        PushedLeads(w, p, q);
        LeadsDown(w, p, q);
      }
      OnceAppend([Entry(true, p)], rest);
    }
  }

  lemma EnteredFits(w: World, p: string)
    requires Sane(w.fs) && Entered(w, p)
    ensures |p| < PATH_MAX && DistinctNames(w.fs[p].names)
    ensures forall i :: 0 <= i < |w.fs[p].names| ==> GoodName(w.fs[p].names[i])
  {
  }

  lemma {:induction false} WalkAllOnce(w: World, stack: seq<string>, lo: nat)
    requires Sane(w.fs) && lo <= PATH_MAX && Separate(stack) && forall q :: q in stack ==> |q| >= lo
    ensures Once(WalkAll(w, stack, 0))
    decreases PATH_MAX - lo, |stack|
  {
    hide Walk, Sane, Below;
    if stack != [] {
      var n := |stack| - 1;
      var last, rest := Walk(w, stack[n]), WalkAll(w, stack[..n], 0);
      WalkOnce(w, stack[n]);
      WalkAllOnce(w, stack[..n], lo);
      forall x, y | x in last && y in rest
        ensures x.name != y.name
      {
        var tx := FoundTrail(w, stack[n], x);
        InWalkAll(w, stack[..n], y);
        var q :| q in stack[..n] && y in Walk(w, q);
        var ty := FoundTrail(w, q, y);
        var i :| 0 <= i < n && stack[i] == q;
      }
      OnceAppend(last, rest);
    }
  }

  // ---------------------------------------------------------------------
  // Consequences.
  // ---------------------------------------------------------------------

  /** Without recursion no directory but the root is watched. */
  lemma OnlyRootWatched(w: World, root: string, e: Entry)
    requires Sane(w.fs) && !w.recursive && e in Walk(w, root) && e.isDir
    ensures e.name == root
  {
    hide Walk, Sane;
    var t := FoundTrail(w, root, e);
    if |t| > 1 {
      TrailInit(w, t, root, e.name);
    }
  }

  /** A trail passes through every directory above its end. */
  lemma {:induction false} OnTrail(w: World, t: seq<string>, root: string, q: string, d: string)
    requires Sane(w.fs) && Trail(w, t, root, q) && Below(d, q) && |d| >= |root| && !EndsInSlash(d)
    ensures d in t
    decreases |t|
  {
    hide Sane, Leads;
    assert d != q ==> |q| > |d|;
    if d != q && |t| > 1 {
      var prev, init := t[|t| - 2], t[..|t| - 1];
      TrailInit(w, t, root, q);
      TrailLength(w, init, root, prev);
      BelowPrevious(w, prev, q, d, root);
      OnTrail(w, init, root, prev, d);
      assert d in init;
    }
  }

  lemma TrailInit(w: World, t: seq<string>, root: string, q: string)
    requires Trail(w, t, root, q) && |t| > 1
    ensures Trail(w, t[..|t| - 1], root, t[|t| - 2]) && Leads(w, t[|t| - 2], q)
  {
  }

  lemma {:induction false} TrailLength(w: World, t: seq<string>, root: string, q: string)
    requires Sane(w.fs) && Trail(w, t, root, q)
    ensures |root| <= |q| && (EndsInSlash(q) ==> q == root)
    decreases |t|
  {
    hide Sane, Leads, Below, EndsInSlash;
    if |t| > 1 {
      TrailInit(w, t, root, q);
      LeadsDown(w, t[|t| - 2], q);
      TrailLength(w, t[..|t| - 1], root, t[|t| - 2]);
    }
  }

  lemma BelowPrevious(w: World, prev: string, q: string, d: string, root: string)
    requires Sane(w.fs) && Leads(w, prev, q) && Below(d, q) && d != q && !EndsInSlash(d)
    requires |d| >= |root| && (EndsInSlash(prev) ==> prev == root)
    ensures Below(d, prev)
  {
    hide Slashed;
    var i :| 0 <= i < |w.fs[prev].names| && q == Join(prev, w.fs[prev].names[i]);
    var name := w.fs[prev].names[i];
    assert GoodName(name);
    var x, s := Slashed(d), Slashed(prev);
    NoSlashYet(d);
    SlashBefore(x, q[|x|..], s, name);
    if EndsInSlash(prev) {
      assert s == prev by { SlashedAlready(prev); }
    } else {
      NoSlashYet(prev);
      assert |x| == |s| ==> d == x[..|d|] == s[..|prev|] == prev;
      assert |x| < |s| ==> prev[..|x|] == s[..|x|];
    }
  }

  lemma SlashedAlready(p: string)
    requires EndsInSlash(p)
    ensures Slashed(p) == p
  {
  }

  /** A text that ends in a slash cannot reach into a name. */
  lemma SlashBefore(x: string, r: string, s: string, name: string)
    requires x + r == s + name && EndsInSlash(x) && '/' !in name
    ensures |x| <= |s| && s[..|x|] == x
  {
    var t := x + r;
    assert t[|x| - 1] == '/';
    assert forall i :: 0 <= i < |name| ==> t[|s| + i] == name[i] && name[i] in name;
    assert |x| <= |s|;
    assert t[..|x|] == x && t[..|s|] == s;
    assert s[..|x|] == t[..|x|];
  }

  /** A text names a directory in the way in which the walk from root spells it, if it reaches it at all. */
  predicate Spelled(root: string, d: string)
  {
    |d| >= |root| && (d == root || !EndsInSlash(d))
  }

  lemma {:induction false} TrailBelow(w: World, t: seq<string>, root: string, q: string, d: string)
    requires Sane(w.fs) && Trail(w, t, root, q) && d in t
    ensures Below(d, q) && Spelled(root, d) && (d == q || d in w.fs)
    decreases |t|
  {
    hide Sane, Leads, Below;
    BelowSelf(q);
    TrailLength(w, t, root, q);
    if d != q {
      var init, prev := t[..|t| - 1], t[|t| - 2];
      TrailInit(w, t, root, q);
      assert t == init + [q];
      TrailBelow(w, init, root, prev, d);
      LeadsFrom(w, prev, q);
      BelowTrans(w, d, prev, q);
    }
  }

  lemma LeadsFrom(w: World, d: string, q: string)
    requires Leads(w, d, q)
    ensures d in w.fs
  {
  }

  /** What a directory below d leads to is below d. */
  lemma BelowTrans(w: World, d: string, prev: string, q: string)
    requires Sane(w.fs) && Below(d, prev) && Leads(w, prev, q)
    ensures Below(d, q)
  {
    hide Slashed;
    var i :| 0 <= i < |w.fs[prev].names| && q == Join(prev, w.fs[prev].names[i]);
    assert q[..|Slashed(prev)|] == Slashed(prev);
    if d != prev {
      SlashedLonger(prev);
      assert q[..|Slashed(d)|] == prev[..|Slashed(d)|];
    }
  }

  lemma SlashedLonger(p: string)
    ensures |p| <= |Slashed(p)| && Slashed(p)[..|p|] == p
  {
  }

  /** A trail passes through exactly those directories above its end that are spelled as the walk spells them. */
  lemma OnTrailExactly(w: World, t: seq<string>, root: string, q: string, d: string)
    requires Sane(w.fs) && Trail(w, t, root, q)
    ensures d in t <==> Below(d, q) && Spelled(root, d)
  {
    hide Sane, Below, Trail;
    if d in t {
      TrailBelow(w, t, root, q, d);
    }
    if Below(d, q) && Spelled(root, d) {
      if d == root {
        TrailStarts(w, t, root, q);
      } else {
        OnTrail(w, t, root, q, d);
      }
    }
  }

  /** Nothing in or under an excluded directory is found, if the filter spells it as the walk does. */
  lemma ExcludedCut(w: World, root: string, d: string, e: Entry)
    requires Sane(w.fs) && d in w.filter && IsDir(w, d) && e in Walk(w, root)
    ensures !(Below(d, e.name) && Spelled(root, d))
  {
    hide Walk, Sane, Below, Trail;
    var t := FoundTrail(w, root, e);
    OnTrailExactly(w, t, root, e.name, d);
    if d in t {
      TrailBelow(w, t, root, e.name, d);
      TrailMonitored(w, t, root, e, d);
    }
  }

  /** The same world with one more excluded text. */
  function Excluding(w: World, d: string): World
  {
    w.(filter := w.filter + [d])
  }

  /**
   What a filter entry does: it takes away exactly what is in or under the directory
   if it is spelled as the walk spells it, and nothing at all otherwise.
   */
  lemma ExclusionExact(w: World, root: string, d: string, e: Entry)
    requires Sane(w.fs)
    ensures e in Walk(Excluding(w, d), root) <==>
            e in Walk(w, root) && !(IsDir(w, d) && Below(d, e.name) && Spelled(root, d))
  {
    hide Walk, Sane, Below, Trail;
    var w' := Excluding(w, d);
    if e in Walk(w', root) {
      var t := FoundTrail(w', root, e);
      FewerTrails(w, t, root, e, d);
      TrailFound(w, t, root, e);
      if IsDir(w, d) {
        ExcludedCut(w', root, d, e);
      }
    }
    if e in Walk(w, root) && !(IsDir(w, d) && Below(d, e.name) && Spelled(root, d)) {
      var t := FoundTrail(w, root, e);
      OnTrailExactly(w, t, root, e.name, d);
      SameTrails(w, t, root, e, d);
      TrailFound(w', t, root, e);
    }
  }

  lemma FewerTrails(w: World, t: seq<string>, root: string, e: Entry, d: string)
    requires Trail(Excluding(w, d), t, root, e.name) && Yields(Excluding(w, d), e)
    ensures Trail(w, t, root, e.name) && Yields(w, e)
  {
    forall i | 0 <= i < |t| - 1
      ensures Leads(w, t[i], t[i + 1])
    {
      assert Leads(Excluding(w, d), t[i], t[i + 1]);
    }
  }

  lemma SameTrails(w: World, t: seq<string>, root: string, e: Entry, d: string)
    requires Trail(w, t, root, e.name) && Yields(w, e) && (d in t ==> !IsDir(w, d))
    ensures Trail(Excluding(w, d), t, root, e.name) && Yields(Excluding(w, d), e)
  {
    forall i | 0 <= i < |t| - 1
      ensures Leads(Excluding(w, d), t[i], t[i + 1])
    {
      assert Leads(w, t[i], t[i + 1]);
      assert t[i] in t;
    }
    assert e.name in t;
  }

  const B_TREE: FileSystem :=
    map["/a" := Directory(true, ["b"]), "/a/b" := Directory(true, ["x"]), "/a/b/" := Directory(true, ["x"]),
        "/a/b/x" := File]

  const A_TREE: FileSystem := map["/a/" := Directory(true, ["x"]), "/a" := Directory(true, ["x"]), "/a/x" := File]

  /** Excluding "/a/b/" takes nothing away from the walk from "/a". */
  lemma SlashInFilter()
    ensures Sane(B_TREE) && B_TREE["/a/b/"].Directory? && Below("/a/b/", "/a/b/x")
    ensures Entry(false, "/a/b/x") in Walk(World(B_TREE, ["/a/b/"], true), "/a")
  {
    var w := World(B_TREE, ["/a/b/"], true);
    var t := ["/a", "/a/b", "/a/b/x"];
    assert "/a/b/x"[..5] == "/a/b/";
    assert Join("/a", w.fs["/a"].names[0]) == "/a/b" && Join("/a/b", w.fs["/a/b"].names[0]) == "/a/b/x";
    assert Join("/a/b/", w.fs["/a/b/"].names[0]) == "/a/b/x";
    assert Sane(w.fs);
    assert Leads(w, t[0], t[1]) && Leads(w, t[1], t[2]);
    TrailFound(w, t, "/a", Entry(false, "/a/b/x"));
  }

  /** Excluding "/a" takes nothing away from the walk from "/a/". */
  lemma SlashInRoot()
    ensures Sane(A_TREE) && A_TREE["/a"].Directory? && Below("/a", "/a/x")
    ensures Entry(false, "/a/x") in Walk(World(A_TREE, ["/a"], true), "/a/")
  {
    var w := World(A_TREE, ["/a"], true);
    var t := ["/a/", "/a/x"];
    assert "/a/x"[..3] == "/a/";
    assert Join("/a/", w.fs["/a/"].names[0]) == "/a/x" && Join("/a", w.fs["/a"].names[0]) == "/a/x";
    assert Sane(w.fs);
    assert Leads(w, t[0], t[1]);
    TrailFound(w, t, "/a/", Entry(false, "/a/x"));
  }

  lemma TrailStarts(w: World, t: seq<string>, root: string, q: string)
    requires Trail(w, t, root, q)
    ensures root in t
  {
  }

  /** The directories on the way to something found are all monitored. */
  lemma TrailMonitored(w: World, t: seq<string>, root: string, e: Entry, d: string)
    requires Trail(w, t, root, e.name) && Yields(w, e) && d in t && d in w.fs && w.fs[d].Directory?
    ensures NeedMon(w, d)
  {
    var i :| 0 <= i < |t| && t[i] == d;
    assert i < |t| - 1 ==> Leads(w, t[i], t[i + 1]);
  }

  /** The last backslash of a name is its first character. */
  predicate OnlyFirst(name: string)
  {
    name != "" && name[0] == '\\' && '\\' !in name[1..]
  }

  /**
   The base directory given to an analysis is the directory of the entry exactly when
   the name has no backslash and the directory no slash at its end; or, by accident,
   when the directory ends in a slash and the name's only backslash is its first character.
   */
  lemma BaseOfEntry(d: string, name: string)
    requires GoodName(name)
    ensures BaseDir(Join(d, name)) == d <==> if EndsInSlash(d) then OnlyFirst(name) else '\\' !in name
  {
    hide BaseDir, OnlyFirst;
    if EndsInSlash(d) {
      BaseAfterSlash(d, name);
    } else {
      BaseBeforeSlash(d, name);
    }
  }

  lemma BaseBeforeSlash(d: string, name: string)
    requires GoodName(name)
    ensures BaseDir(d + "/" + name) == d <==> '\\' !in name
  {
    hide BaseDir;
    var p, k := d + "/" + name, |d| + 1;
    BaseIs(p, |d|);
    NoBackslash(name);
    assert p[..|d|] == d;
    assert forall j :: k <= j < |p| ==> p[j] == name[j - k];
    assert forall i :: 0 <= i < |name| ==> name[i] == p[k + i];
  }

  lemma BaseAfterSlash(d: string, name: string)
    requires GoodName(name)
    ensures BaseDir(d + name) == d <==> OnlyFirst(name)
  {
    hide BaseDir, OnlyFirst;
    var p := d + name;
    BaseIs(p, |d|);
    FirstOnly(name);
    assert p[..|d|] == d;
    assert forall j :: |d| <= j < |p| ==> p[j] == name[j - |d|];
    assert forall i :: 0 <= i < |name| ==> name[i] == p[|d| + i];
  }

  lemma NoBackslash(name: string)
    requires GoodName(name)
    ensures '\\' !in name <==> forall i :: 0 <= i < |name| ==> !IsSeparator(name[i])
  {
    assert forall i :: 0 <= i < |name| ==> name[i] in name;
  }

  lemma FirstOnly(name: string)
    requires GoodName(name)
    ensures OnlyFirst(name) <==> IsSeparator(name[0]) && forall i :: 0 < i < |name| ==> !IsSeparator(name[i])
  {
    var rest := name[1..];
    assert forall i :: 0 <= i < |name| ==> name[i] in name;
    assert forall i :: 0 < i < |name| ==> name[i] == rest[i - 1] && rest[i - 1] in rest;
  }

  /** Files directly under "/" are analysed with an empty directory. */
  lemma RootFiles(name: string)
    requires GoodName(name) && '\\' !in name
    ensures BaseDir(Join("/", name)) == ""
  {
    var p := Join("/", name);
    assert p[0] == '/' && forall i :: 0 <= i < |name| ==> p[1 + i] == name[i] && name[i] in name;
  }

  /**
   A rule kept under a directory that ends in a slash is off the chain of the files found
   in that directory, but for names that start with a backslash.
   */
  lemma SlashRuleMissed(d: string, name: string)
    requires GoodName(name) && EndsInSlash(d)
    ensures Ancestor(d, BaseDir(Join(d, name))) <==> name[0] == '\\'
  {
    hide Ancestor, BaseDir, IsSeparator, GoodName, EndsInSlash;
    var p, base := Join(d, name), BaseDir(Join(d, name));
    NameAfter(d, name);
    AncestorPrefix(d, base);
    BaseReaches(p, |d|);
    assert base == p[..|base|];
    if |base| >= |d| {
      assert base[..|d|] == p[..|d|] == d;
    }
  }

  lemma NameAfter(d: string, name: string)
    requires GoodName(name) && EndsInSlash(d)
    ensures
      var p := Join(d, name);
      |p| > |d| && p[..|d|] == d && p[|d|] == name[0] && (IsSeparator(p[|d|]) <==> name[0] == '\\')
  {
    assert name[0] in name;
  }

  /** The base directory reaches up to any separator. */
  lemma BaseReaches(p: string, k: nat)
    requires k < |p|
    ensures IsSeparator(p[k]) ==> |BaseDir(p)| >= k && BaseDir(p) != p
    ensures |BaseDir(p)| == k ==> IsSeparator(p[k])
  {
  }

  // ---------------------------------------------------------------------
  // Watch descriptors.
  // ---------------------------------------------------------------------

  lemma {:induction false} RegisteredKeeps(hash: map<int, string>, wd: string -> int, dirs: seq<string>, k: int)
    requires k in hash
    ensures k in Registered(hash, wd, dirs) && Registered(hash, wd, dirs)[k] == hash[k]
    decreases |dirs|
  {
    if dirs != [] {
      RegisteredKeeps(Register(hash, wd, dirs[0]), wd, dirs[1..], k);
    }
  }

  /** The descriptors known after watching: those known before, and the valid ones of the directories. */
  lemma {:induction false} RegisteredExactly(hash: map<int, string>, wd: string -> int, dirs: seq<string>, k: int)
    ensures k in Registered(hash, wd, dirs) <==> k in hash || (k >= 0 && exists d :: d in dirs && wd(d) == k)
    ensures k in Registered(hash, wd, dirs) && k !in hash ==>
      var d := Registered(hash, wd, dirs)[k]; d in dirs && wd(d) == k
    decreases |dirs|
  {
    if dirs != [] {
      var next := Register(hash, wd, dirs[0]);
      RegisteredExactly(next, wd, dirs[1..], k);
      if k in next {
        RegisteredKeeps(next, wd, dirs[1..], k);
      }
      assert forall d :: d in dirs <==> d == dirs[0] || d in dirs[1..];
    }
  }

  /** A new descriptor of a watched directory leads an event back to that directory. */
  lemma {:induction false} EventsResolve(hash: map<int, string>, wd: string -> int, dirs: seq<string>, d: string)
    requires d in dirs && wd(d) >= 0 && wd(d) !in hash
    requires forall q :: q in dirs && wd(q) == wd(d) ==> q == d
    ensures wd(d) in Registered(hash, wd, dirs) && Registered(hash, wd, dirs)[wd(d)] == d
    decreases |dirs|
  {
    var next := Register(hash, wd, dirs[0]);
    if dirs[0] == d {
      RegisteredKeeps(next, wd, dirs[1..], wd(d));
    } else {
      assert dirs[0] in dirs;
      EventsResolve(next, wd, dirs[1..], d);
    }
  }

  /** The path that an event analyses is the one that the walk finds exactly when the directory has no slash at its end. */
  lemma EventName(dir: string, name: string)
    ensures dir + "/" + name == Join(dir, name) <==> !EndsInSlash(dir)
  {
    if EndsInSlash(dir) {
      assert |dir + "/" + name| == |Join(dir, name)| + 1;
    }
  }
}
