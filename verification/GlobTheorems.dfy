/** The promises of the two glob walkers. */
module GlobTheorems {
  import opened Wrappers
  import opened GlobWalk
  import opened GlobMatch

  lemma {:induction false} CountIn(paths: seq<Path>, path: Path)
    ensures Count(paths, path) > 0 <==> path in paths
  {
    if paths != [] {
      CountIn(paths[1..], path);
    }
  }

  lemma {:induction false} CountTwice(paths: seq<Path>, i: nat, j: nat)
    requires i < j < |paths| && paths[i] == paths[j]
    ensures Count(paths, paths[i]) >= 2
  {
    if i == 0 {
      assert paths[1..][j - 1] == paths[i];
      CountIn(paths[1..], paths[i]);
    } else {
      CountTwice(paths[1..], i - 1, j - 1);
    }
  }

  /** The walker yields exactly the paths that it can look up and that the pattern fits. */
  lemma YieldedIff(fs: FileSystem, matches: (string, string) -> bool, base: Path, dir: Key,
                   parts: seq<string>, visited: set<Key>, path: Path)
    requires Closed(fs) && DistinctNames(fs) && dir in fs
    ensures path in Walk(fs, matches, base, dir, parts, visited) <==>
            && base <= path
            && Look(fs, dir, path[|base|..], visited).Some?
            && exists w :: Fits(matches, parts, path[|base|..], Look(fs, dir, path[|base|..], visited).value, w)
  {
    hide Walk, Cuts, Fits, Look, Count, Closed;
    CountWalk(fs, matches, base, dir, parts, visited, path);
    CountIn(Walk(fs, matches, base, dir, parts, visited), path);
    if base <= path {
      var names := path[|base|..];
      var found := Look(fs, dir, names, visited);
      if found.Some? {
        var kind := found.value;
        if |Cuts(matches, parts, names, kind)| > 0 {
          CutsFit(matches, parts, names, kind, 0);
        }
        if w :| Fits(matches, parts, names, kind, w) {
          var k := FitsIsCut(matches, parts, names, kind, w);
        }
      }
    }
  }

  /** With at most one `**` no path is yielded twice. */
  lemma NoPathTwice(fs: FileSystem, matches: (string, string) -> bool, base: Path, dir: Key,
                    parts: seq<string>, visited: set<Key>)
    requires Closed(fs) && DistinctNames(fs) && dir in fs && StarCount(parts) <= 1
    ensures var out := Walk(fs, matches, base, dir, parts, visited);
            forall i, j | 0 <= i < j < |out| :: out[i] != out[j]
  {
    hide Walk, Cuts, Look, Count, Closed;
    var out := Walk(fs, matches, base, dir, parts, visited);
    forall i, j | 0 <= i < j < |out|
      ensures out[i] != out[j]
    {
      var path := out[i];
      CountWalk(fs, matches, base, dir, parts, visited, path);
      if base <= path {
        var found := Look(fs, dir, path[|base|..], visited);
        if found.Some? {
          OneStarOneWay(matches, parts, path[|base|..], found.value);
        }
      }
      if out[i] == out[j] {
        CountTwice(out, i, j);
        assert false;
      }
    }
  }

  /** Two `**` do repeat: a directory `n` levels down is yielded `n + 1` times. */
  lemma {:induction false} TwoStarsRepeat(matches: (string, string) -> bool, names: seq<string>)
    ensures |Cuts(matches, ["**", "**"], names, Enterable)| == |names| + 1
  {
    var parts := [STARS, STARS];
    assert parts[1..] == [STARS];
    OneStarOneWay(matches, [STARS], names, Enterable);
    assert Fits(matches, [STARS], names, Enterable, [|names|]);
    var k := FitsIsCut(matches, [STARS], names, Enterable, [|names|]);
    assert Cuts(matches, parts, names, Enterable)
        == HereCuts(matches, parts, names, Enterable) + DeepCuts(matches, parts, names, Enterable);
    if names != [] {
      TwoStarsRepeat(matches, names[1..]);
    }
  }

  // ---------- descent ----------

  /** The keys of the directories that a path goes through, its last name excluded. */
  function DirsAlong(fs: FileSystem, dir: Key, names: seq<string>): Option<seq<Key>>
    requires Closed(fs) && dir in fs
    decreases |names|
  {
    if |names| <= 1 then Some([])
    else
      var entry := Find(Listing(fs, dir), names[0]);
      if entry.None? || !entry.value.target.Dir? then None
      else
        var rest := DirsAlong(fs, entry.value.target.key, names[1..]);
        if rest.None? then None else Some([entry.value.target.key] + rest.value)
  }

  function Find(entries: seq<Entry>, name: string): (r: Option<Entry>)
    ensures r.Some? ==> r.value in entries && r.value.name == name
  {
    if entries == [] then None
    else if entries[0].name == name then Some(entries[0])
    else Find(entries[1..], name)
  }

  lemma {:induction false} LookInFind(fs: FileSystem, entries: seq<Entry>, names: seq<string>, visited: set<Key>)
    requires Closed(fs) && EntriesIn(entries, fs) && names != []
    ensures LookIn(fs, entries, names, visited) ==
            match Find(entries, names[0]) case None => None case Some(e) => LookAt(fs, e, names, visited)
  {
    if entries != [] && entries[0].name != names[0] {
      LookInFind(fs, entries[1..], names, visited);
    }
  }

  lemma {:induction false} LookDescends(fs: FileSystem, dir: Key, names: seq<string>, visited: set<Key>)
    requires Closed(fs) && dir in fs && Look(fs, dir, names, visited).Some?
    ensures DirsAlong(fs, dir, names).Some?
    ensures var keys := DirsAlong(fs, dir, names).value;
            && (forall i | 0 <= i < |keys| :: keys[i] !in visited)
            && (forall i, j | 0 <= i < j < |keys| :: keys[i] != keys[j])
    decreases |names|
  {
    if |names| > 1 {
      LookInFind(fs, Listing(fs, dir), names, visited);
      var key := Find(Listing(fs, dir), names[0]).value.target.key;
      LookDescends(fs, key, names[1..], visited + {key});
      var rest := DirsAlong(fs, key, names[1..]).value;
      var keys := DirsAlong(fs, dir, names).value;
      assert forall i | 1 <= i < |keys| :: keys[i] == rest[i - 1];
    }
  }

  /** On any graph, cycles included: no yielded path descends through the same directory twice. */
  lemma NoDirectoryTwice(fs: FileSystem, matches: (string, string) -> bool, base: Path, dir: Key,
                         parts: seq<string>, visited: set<Key>, path: Path)
    requires Closed(fs) && DistinctNames(fs) && dir in fs
    requires path in Walk(fs, matches, base, dir, parts, visited)
    ensures base <= path && DirsAlong(fs, dir, path[|base|..]).Some?
    ensures var keys := DirsAlong(fs, dir, path[|base|..]).value;
            && (forall i | 0 <= i < |keys| :: keys[i] !in visited)
            && (forall i, j | 0 <= i < j < |keys| :: keys[i] != keys[j])
  {
    YieldedIff(fs, matches, base, dir, parts, visited, path);
    LookDescends(fs, dir, path[|base|..], visited);
  }

  // ---------- trees: no symlink leads back up ----------

  /** `rank` falls from every directory to its subdirectories. */
  ghost predicate Ranked(fs: FileSystem, rank: Key -> nat) {
    forall d, e | d in fs && e in Listing(fs, d) && e.target.Dir? :: rank(e.target.key) < rank(d)
  }

  /** What a path leads to, the visited set left out. */
  function TreeLook(fs: FileSystem, dir: Key, names: seq<string>): Option<Kind>
    requires Closed(fs) && dir in fs
    decreases |names|
  {
    if names == [] then Some(Enterable)
    else
      var entry := Find(Listing(fs, dir), names[0]);
      if entry.None? then None
      else if |names| == 1 then
        match entry.value.target
        case File => Some(PlainFile)
        case Broken => Some(Other)
        case Dir(_) => Some(Enterable)
      else if entry.value.target.Dir? then TreeLook(fs, entry.value.target.key, names[1..])
      else None
  }

  lemma {:induction false} LookInTree(fs: FileSystem, rank: Key -> nat, dir: Key, names: seq<string>, visited: set<Key>)
    requires Closed(fs) && dir in fs && Ranked(fs, rank)
    requires forall k | k in visited :: rank(k) >= rank(dir)
    ensures Look(fs, dir, names, visited) == TreeLook(fs, dir, names)
    decreases |names|
  {
    if names != [] {
      LookInFind(fs, Listing(fs, dir), names, visited);
      var entry := Find(Listing(fs, dir), names[0]);
      if entry.Some? && entry.value.target.Dir? {
        LookInTree(fs, rank, entry.value.target.key, names[1..], visited + {entry.value.target.key});
      }
    }
  }

  /**
    `glob` on a tree: the yields are exactly the paths that exist and that the pattern fits, and with
    at most one `**` each comes once.
   */
  lemma GlobOnTree(fs: FileSystem, matches: (string, string) -> bool, rank: Key -> nat, base: Path, root: Key,
                   parts: seq<string>, path: Path)
    requires Closed(fs) && DistinctNames(fs) && root in fs && Ranked(fs, rank)
    ensures var out := Walk(fs, matches, base, root, parts, {root});
            && (path in out <==>
                  && base <= path
                  && TreeLook(fs, root, path[|base|..]).Some?
                  && exists w :: Fits(matches, parts, path[|base|..], TreeLook(fs, root, path[|base|..]).value, w))
            && (StarCount(parts) <= 1 ==> forall i, j | 0 <= i < j < |out| :: out[i] != out[j])
  {
    YieldedIff(fs, matches, base, root, parts, {root}, path);
    if base <= path {
      LookInTree(fs, rank, root, path[|base|..], {root});
    }
    if StarCount(parts) <= 1 {
      NoPathTwice(fs, matches, base, root, parts, {root});
    }
  }
}
