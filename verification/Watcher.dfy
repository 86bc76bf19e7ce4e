/**
 The directory traversal of file_watcher.cpp: a stack of paths walks a finite
 file system, watching directories and analysing files.
 */
module Watcher {
  import opened Paths

  const PATH_MAX := 4096

  datatype Node =
    | File
    | Directory(readable: bool, names: seq<string>)

  /** What lstat and readdir see; `.` and `..` are left out of the names. */
  type FileSystem = map<string, Node>

  /** The path of an entry of a directory. */
  function Join(dir: string, name: string): string
  {
    Slashed(dir) + name
  }

  function Slashed(dir: string): string
  {
    if dir != "" && dir[|dir| - 1] == '/' then dir else dir + "/"
  }

  predicate GoodName(name: string) { name != "" && '/' !in name }

  predicate DistinctNames(names: seq<string>)
  {
    forall i, j :: 0 <= i < j < |names| ==> names[i] != names[j]
  }

  /** A file system whose paths fit the path buffer. */
  ghost predicate Sane(fs: FileSystem)
  {
    && (forall p :: p in fs ==> 0 < |p| < PATH_MAX - 1)
    && (forall p :: p in fs && fs[p].Directory? ==>
          DistinctNames(fs[p].names)
          && forall i :: 0 <= i < |fs[p].names| ==> GoodName(fs[p].names[i]) && Join(p, fs[p].names[i]) in fs)
  }

  datatype Entry = Entry(isDir: bool, name: string)

  /** What a traversal depends on. */
  datatype World = World(fs: FileSystem, filter: seq<string>, recursive: bool)

  /** need_mon: not excluded. */
  predicate NeedMon(w: World, dir: string) { dir !in w.filter }

  /** is_dir, which is also true of what lstat cannot find. */
  predicate IsDir(w: World, p: string) { p !in w.fs || w.fs[p].Directory? }

  /** A directory that is entered: monitored and readable. */
  predicate Entered(w: World, p: string)
  {
    p in w.fs && w.fs[p].Directory? && NeedMon(w, p) && w.fs[p].readable
  }

  /** The paths that a directory pushes: all its entries, or only those that are not directories. */
  function Pushed(w: World, dir: string, names: seq<string>): (r: seq<string>)
    ensures forall q :: q in r <==>
      exists i :: 0 <= i < |names| && q == Join(dir, names[i]) && (w.recursive || !IsDir(w, q))
  {
    if names == [] then []
    else
      var n := |names| - 1;
      var q := Join(dir, names[n]);
      Pushed(w, dir, names[..n]) + (if !IsDir(w, q) || w.recursive then [q] else [])
  }

  /** The entries of two lists of names are pushed one after the other. */
  lemma {:induction false} PushedAppend(w: World, dir: string, a: seq<string>, b: seq<string>)
    ensures Pushed(w, dir, a + b) == Pushed(w, dir, a) + Pushed(w, dir, b)
    decreases |b|
  {
    hide Join, IsDir, Pushed;
    if b == [] {
      NonePushed(w, dir);
      assert a + b == a;
    } else {
      var n := |b| - 1;
      assert (a + b)[..|a| + n] == a + b[..n] && (a + b)[|a| + n] == b[n];
      PushedAppend(w, dir, a, b[..n]);
      PushedLast(w, dir, a + b);
      PushedLast(w, dir, b);
    }
  }

  lemma NonePushed(w: World, dir: string)
    ensures Pushed(w, dir, []) == []
  {
  }

  lemma PushedLast(w: World, dir: string, names: seq<string>)
    requires names != []
    ensures
      var n := |names| - 1;
      var q := Join(dir, names[n]);
      Pushed(w, dir, names) == Pushed(w, dir, names[..n]) + (if !IsDir(w, q) || w.recursive then [q] else [])
  {
  }

  /** The entries found from one path, in the order of the stack. */
  ghost function Walk(w: World, p: string): seq<Entry>
    requires Sane(w.fs)
    decreases PATH_MAX - |p|, 0
  {
    if p !in w.fs then []
    else if w.fs[p].File? then [Entry(false, p)]
    else if !Entered(w, p) then []
    else
      [Entry(true, p)] + WalkAll(w, Pushed(w, p, w.fs[p].names), |p| + 1)
  }

  /** The entries found from a stack of paths, the last one first; no path is shorter than lo. */
  ghost function WalkAll(w: World, stack: seq<string>, lo: nat): seq<Entry>
    requires Sane(w.fs) && lo <= PATH_MAX && forall q :: q in stack ==> |q| >= lo
    decreases PATH_MAX - lo, |stack|
  {
    if stack == [] then []
    else
      var n := |stack| - 1;
      Walk(w, stack[n]) + WalkAll(w, stack[..n], lo)
  }

  lemma {:induction false} WalkAllLow(w: World, stack: seq<string>, lo: nat, lo': nat)
    requires Sane(w.fs) && lo <= PATH_MAX && lo' <= PATH_MAX
    requires forall q :: q in stack ==> |q| >= lo && |q| >= lo'
    ensures WalkAll(w, stack, lo) == WalkAll(w, stack, lo')
    decreases |stack|
  {
    if stack != [] {
      WalkAllLow(w, stack[..|stack| - 1], lo, lo');
    }
  }

  lemma {:induction false} WalkAllAppend(w: World, a: seq<string>, b: seq<string>)
    requires Sane(w.fs)
    ensures WalkAll(w, a + b, 0) == WalkAll(w, b, 0) + WalkAll(w, a, 0)
    decreases |b|
  {
    hide Walk;
    if b == [] {
      assert a + b == a;
    } else {
      var n := |b| - 1;
      assert (a + b)[..|a| + n] == a + b[..n];
      WalkAllAppend(w, a, b[..n]);
    }
  }

  lemma WalkDirectory(w: World, p: string)
    requires Sane(w.fs) && Entered(w, p)
    ensures Walk(w, p) == [Entry(true, p)] + WalkAll(w, Pushed(w, p, w.fs[p].names), 0)
  {
    hide WalkAll, Pushed;
    WalkAllLow(w, Pushed(w, p, w.fs[p].names), |p| + 1, 0);
  }

  // ---------------------------------------------------------------------
  // The iterator and the watcher.
  // ---------------------------------------------------------------------

  class EntryIterator {
    const w: World
    var queue: seq<string>

    ghost predicate Valid()
    {
      Sane(w.fs)
    }

    /** The entries still to come. */
    ghost function Remaining(): seq<Entry>
      reads this
      requires Valid()
    {
      WalkAll(w, queue, 0)
    }

    constructor (w: World, dir: string)
      requires Sane(w.fs)
      ensures Valid() && this.w == w && Remaining() == Walk(w, dir)
    {
      this.w := w;
      queue := [dir];
      new;
      assert queue[..0] == [];
      assert WalkAll(w, [], 0) == [];
    }

    /** The inner loop over readdir. */
    method PushEntries(dir: string, names: seq<string>)
      modifies this
      ensures queue == old(queue) + Pushed(w, dir, names)
    {
      var i := 0;
      while i < |names|
        invariant 0 <= i <= |names|
        invariant queue == old(queue) + Pushed(w, dir, names[..i])
      {
        var path := Join(dir, names[i]);
        if !IsDir(w, path) || w.recursive {
          queue := queue + [path];
        }
        assert names[..i + 1][..i] == names[..i];
        i := i + 1;
      }
      assert names[..|names|] == names;
    }

    /** The next entry, or one with an empty name at the end. */
    method Next() returns (e: Entry)
      requires Valid()
      modifies this
      ensures if old(Remaining()) == [] then e == Entry(true, "") && Remaining() == []
              else e.name != "" && old(Remaining()) == [e] + Remaining()
    {
      hide Walk, Pushed, Sane;
      while |queue| > 0
        invariant Remaining() == old(Remaining())
        decreases |queue|
      {
        var n := |queue| - 1;
        var name := queue[n];
        queue := queue[..n];
        var rest := queue;
        PathsFit(w, name);
        if IsDir(w, name) {
          if !NeedMon(w, name) || name !in w.fs || !w.fs[name].readable {
            Skipped(w, name);
            continue;
          }
          PushEntries(name, w.fs[name].names);
          WalkDirectory(w, name);
          WalkAllAppend(w, rest, Pushed(w, name, w.fs[name].names));
          return Entry(true, name);
        }
        FileWalk(w, name);
        return Entry(false, name);
      }
      return Entry(true, "");
    }
  }

  lemma PathsFit(w: World, p: string)
    requires Sane(w.fs)
    ensures p in w.fs ==> p != ""
  {
  }

  lemma Skipped(w: World, p: string)
    requires Sane(w.fs) && IsDir(w, p) && !Entered(w, p)
    ensures Walk(w, p) == []
  {
  }

  lemma FileWalk(w: World, p: string)
    requires Sane(w.fs) && !IsDir(w, p)
    ensures Walk(w, p) == [Entry(false, p)]
  {
  }

  function DirsOf(es: seq<Entry>): (ds: seq<string>)
    ensures forall d :: d in ds <==> Entry(true, d) in es
  {
    if es == [] then [] else (if es[0].isDir then [es[0].name] else []) + DirsOf(es[1..])
  }

  function FilesOf(es: seq<Entry>): (fs: seq<string>)
    ensures forall f :: f in fs <==> Entry(false, f) in es
  {
    if es == [] then [] else (if es[0].isDir then [] else [es[0].name]) + FilesOf(es[1..])
  }

  /** The watch descriptors after watching some directories; a descriptor keeps its first directory. */
  function Registered(hash: map<int, string>, wd: string -> int, dirs: seq<string>): map<int, string>
    decreases |dirs|
  {
    if dirs == [] then hash else Registered(Register(hash, wd, dirs[0]), wd, dirs[1..])
  }

  function Register(hash: map<int, string>, wd: string -> int, dir: string): map<int, string>
  {
    if wd(dir) < 0 || wd(dir) in hash then hash else hash[wd(dir) := dir]
  }

  /** A file's analysis gets its base directory and its name. */
  datatype Analysis = Analysis(dir: string, name: string)

  function Analyses(files: seq<string>): (analyses: seq<Analysis>)
    ensures |analyses| == |files|
    ensures forall i :: 0 <= i < |files| ==> analyses[i].dir == BaseDir(files[i]) && analyses[i].name == files[i]
  {
    if files == [] then [] else [Analysis(BaseDir(files[0]), files[0])] + Analyses(files[1..])
  }

  /** The watcher's records. */
  datatype Records = Records(watched: seq<string>, hash: map<int, string>, analysed: seq<Analysis>)

  function Visit(r: Records, e: Entry, skip: bool, wd: string -> int): Records
  {
    if e.isDir then r.(watched := r.watched + [e.name], hash := Register(r.hash, wd, e.name))
    else if skip then r
    else r.(analysed := r.analysed + [Analysis(BaseDir(e.name), e.name)])
  }

  function VisitAll(r: Records, es: seq<Entry>, skip: bool, wd: string -> int): Records
    decreases |es|
  {
    if es == [] then r else VisitAll(Visit(r, es[0], skip, wd), es[1..], skip, wd)
  }

  lemma VisitFirst(r: Records, e: Entry, rest: seq<Entry>, skip: bool, wd: string -> int)
    ensures VisitAll(r, [e] + rest, skip, wd) == VisitAll(Visit(r, e, skip, wd), rest, skip, wd)
  {
  }

  /** Visiting entries records their directories and, unless files are skipped, their files. */
  lemma {:induction false} VisitAllIs(r: Records, es: seq<Entry>, skip: bool, wd: string -> int)
    ensures VisitAll(r, es, skip, wd) ==
      Records(r.watched + DirsOf(es), Registered(r.hash, wd, DirsOf(es)),
              r.analysed + (if skip then [] else Analyses(FilesOf(es))))
    decreases |es|
  {
    hide BaseDir, Register, Registered, DirsOf, FilesOf, Analyses, VisitAll;
    if es == [] {
      NothingLeft(r, skip, wd);
      NothingFound(r.hash, wd);
    } else {
      var e, rest := es[0], es[1..];
      assert es == [e] + rest;
      VisitFirst(r, e, rest, skip, wd);
      VisitAllIs(Visit(r, e, skip, wd), rest, skip, wd);
      FirstEntry(e, rest);
      FirstWatched(r.hash, wd, e.name, DirsOf(rest));
      FirstAnalysed(e.name, FilesOf(rest));
      Associative(r.watched, e.name, DirsOf(rest));
      Associative(r.analysed, Analysis(BaseDir(e.name), e.name), Analyses(FilesOf(rest)));
    }
  }

  lemma Associative<T>(a: seq<T>, x: T, b: seq<T>)
    ensures a + [x] + b == a + ([x] + b)
  {
  }

  lemma NothingFound(hash: map<int, string>, wd: string -> int)
    ensures DirsOf([]) == [] && FilesOf([]) == [] && Analyses([]) == [] && Registered(hash, wd, []) == hash
  {
  }

  class FileWatcher {
    const skip: bool
    const wd: string -> int
    var filter: seq<string>
    var hash: map<int, string>
    var watched: seq<string>
    var analysed: seq<Analysis>

    constructor (skip: bool, wd: string -> int)
      ensures this.skip == skip && this.wd == wd && filter == [] && hash == map[] && watched == [] && analysed == []
    {
      this.skip, this.wd := skip, wd;
      filter, hash, watched, analysed := [], map[], [], [];
    }

    /** exclude_dir: empty texts are not filters. */
    method ExcludeDir(dirs: seq<string>)
      modifies this`filter
      ensures forall d :: d in filter <==> d in old(filter) || (d in dirs && d != "")
    {
      var i := 0;
      while i < |dirs|
        invariant 0 <= i <= |dirs|
        invariant forall d :: d in filter <==> d in old(filter) || (d in dirs[..i] && d != "")
      {
        if |dirs[i]| != 0 {
          filter := filter + [dirs[i]];
        }
        assert dirs[..i + 1] == dirs[..i] + [dirs[i]];
        i := i + 1;
      }
      assert dirs[..|dirs|] == dirs;
    }

    /** add_dir of one directory. */
    method Watch(dir: string)
      modifies this`hash, this`watched
      ensures watched == old(watched) + [dir] && hash == Register(old(hash), wd, dir)
    {
      watched := watched + [dir];
      var d := wd(dir);
      if d >= 0 && d !in hash {
        hash := hash[d := dir];
      }
    }

    /** add_dir of a tree: watches the directories and analyses the files that the walk finds. */
    method AddDir(fs: FileSystem, dir: string, recursive: bool)
      requires Sane(fs)
      modifies this`hash, this`watched, this`analysed
      ensures
        var found := Walk(World(fs, filter, recursive), dir);
        && watched == old(watched) + DirsOf(found)
        && hash == Registered(old(hash), wd, DirsOf(found))
        && analysed == old(analysed) + (if skip then [] else Analyses(FilesOf(found)))
    {
      hide Walk, WalkAll, Sane, Visit, VisitAll;
      var it := new EntryIterator(World(fs, filter, recursive), dir);
      ghost var found := it.Remaining();
      ghost var start := Now();
      while true
        invariant fresh(it) && it.Valid() && it.w == World(fs, filter, recursive)
        invariant VisitAll(Now(), it.Remaining(), skip, wd) == VisitAll(start, found, skip, wd)
        decreases |it.Remaining()|
      {
        ghost var before := Now();
        var e := it.Next();
        if |e.name| == 0 {
          break;
        }
        VisitFirst(before, e, it.Remaining(), skip, wd);
        Record(e);
      }
      NothingLeft(Now(), skip, wd);
      VisitAllIs(start, found, skip, wd);
    }

    ghost function Now(): Records
      reads this
    {
      Records(watched, hash, analysed)
    }

    method Record(e: Entry)
      modifies this`hash, this`watched, this`analysed
      ensures Now() == Visit(old(Now()), e, skip, wd)
    {
      if e.isDir {
        Watch(e.name);
      } else if !skip {
        analysed := analysed + [Analysis(BaseDir(e.name), e.name)];
      }
    }
  }

  lemma NothingLeft(r: Records, skip: bool, wd: string -> int)
    ensures VisitAll(r, [], skip, wd) == r
  {
  }

  lemma FirstEntry(e: Entry, rest: seq<Entry>)
    ensures DirsOf([e] + rest) == (if e.isDir then [e.name] else []) + DirsOf(rest)
    ensures FilesOf([e] + rest) == (if e.isDir then [] else [e.name]) + FilesOf(rest)
  {
  }

  lemma FirstWatched(hash: map<int, string>, wd: string -> int, dir: string, rest: seq<string>)
    ensures Registered(hash, wd, [dir] + rest) == Registered(Register(hash, wd, dir), wd, rest)
    ensures [] + rest == rest
  {
  }

  lemma FirstAnalysed(name: string, rest: seq<string>)
    ensures Analyses([name] + rest) == [Analysis(BaseDir(name), name)] + Analyses(rest)
    ensures [] + rest == rest
  {
  }
}
