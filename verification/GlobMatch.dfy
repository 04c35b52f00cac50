/** What a glob pattern means, and that the walker yields exactly that. */
module GlobMatch {
  import opened Wrappers
  import opened GlobWalk

  /** What stands at the end of a path: a directory that may be entered, a file, or neither. */
  datatype Kind = Enterable | PlainFile | Other

  // ---------- the meaning of a pattern ----------

  /** How many of the first parts' names `w` uses up. */
  function Used(w: seq<nat>): nat {
    if w == [] then 0 else w[0] + Used(w[1..])
  }

  /**
    `w` cuts the names among the pattern parts: `**` takes any number of them, every other part takes
    one that it matches.  Only the last part takes a name that is not a directory's, and then it is
    not a `**` unless the name is a file's.
   */
  ghost predicate Fits(matches: (string, string) -> bool, parts: seq<string>, names: seq<string>, kind: Kind,
                       w: seq<nat>)
    decreases |parts|
  {
    && parts != [] && |w| == |parts| && w[0] <= |names|
    && (parts[0] != STARS ==> w[0] == 1 && matches(parts[0], names[0]))
    && if |parts| == 1 then
         w[0] == |names| && (parts[0] == STARS && names != [] ==> kind != Other)
       else
         (w[0] == |names| && names != [] ==> kind == Enterable)
         && Fits(matches, parts[1..], names[w[0]..], kind, w[1..])
  }

  /** All cuts: those in which the first part takes nothing, then the others. */
  function Cuts(matches: (string, string) -> bool, parts: seq<string>, names: seq<string>, kind: Kind): seq<seq<nat>>
    decreases |parts|, |names|, 1
  {
    if parts == [] then []
    else HereCuts(matches, parts, names, kind) + DeepCuts(matches, parts, names, kind)
  }

  function HereCuts(matches: (string, string) -> bool, parts: seq<string>, names: seq<string>, kind: Kind): seq<seq<nat>>
    requires parts != []
    decreases |parts|, |names|, 0
  {
    if parts[0] != STARS then []
    else if |parts| > 1 then Prepend(0, Cuts(matches, parts[1..], names, kind))
    else if names == [] then [[0]]
    else []
  }

  function DeepCuts(matches: (string, string) -> bool, parts: seq<string>, names: seq<string>, kind: Kind): seq<seq<nat>>
    requires parts != []
    decreases |parts|, |names|, 0
  {
    if names == [] then []
    else if parts[0] == STARS then
      if |names| > 1 || kind == Enterable then Bump(Cuts(matches, parts, names[1..], kind))
      else if kind == PlainFile && |parts| == 1 then [[1]]
      else []
    else if !matches(parts[0], names[0]) then []
    else if |parts| == 1 then (if |names| == 1 then [[1]] else [])
    else if |names| > 1 || kind == Enterable then Prepend(1, Cuts(matches, parts[1..], names[1..], kind))
    else []
  }

  function Prepend(n: nat, cuts: seq<seq<nat>>): (r: seq<seq<nat>>)
    ensures |r| == |cuts| && forall k | 0 <= k < |cuts| :: r[k] == [n] + cuts[k]
  {
    if cuts == [] then [] else [[n] + cuts[0]] + Prepend(n, cuts[1..])
  }

  /** The leading part takes one name more. */
  function BumpOne(w: seq<nat>): seq<nat> {
    if w == [] then [] else w[0 := w[0] + 1]
  }

  function Bump(cuts: seq<seq<nat>>): (r: seq<seq<nat>>)
    ensures |r| == |cuts| && forall k | 0 <= k < |cuts| :: r[k] == BumpOne(cuts[k])
  {
    if cuts == [] then [] else [BumpOne(cuts[0])] + Bump(cuts[1..])
  }

  // ---------- counting yields ----------

  function Count(paths: seq<Path>, path: Path): nat {
    if paths == [] then 0 else (if paths[0] == path then 1 else 0) + Count(paths[1..], path)
  }

  lemma {:induction false} CountConcat(a: seq<Path>, b: seq<Path>, path: Path)
    ensures Count(a + b, path) == Count(a, path) + Count(b, path)
  {
    if a == [] {
      assert a + b == b;
    } else {
      assert (a + b)[1..] == a[1..] + b;
      CountConcat(a[1..], b, path);
    }
  }

  // ---------- looking a path up without entering a visited directory ----------

  function KindOf(target: Target, visited: set<Key>): Kind {
    match target
    case Dir(key) => if key in visited then Other else Enterable
    case File => PlainFile
    case Broken => Other
  }

  function Look(fs: FileSystem, dir: Key, names: seq<string>, visited: set<Key>): Option<Kind>
    requires Closed(fs) && dir in fs
    decreases |names|, 1
  {
    if names == [] then Some(Enterable) else LookIn(fs, Listing(fs, dir), names, visited)
  }

  function LookIn(fs: FileSystem, entries: seq<Entry>, names: seq<string>, visited: set<Key>): Option<Kind>
    requires Closed(fs) && EntriesIn(entries, fs) && names != []
    decreases |names|, 0, |entries|
  {
    if entries == [] then None
    else if entries[0].name == names[0] then LookAt(fs, entries[0], names, visited)
    else LookIn(fs, entries[1..], names, visited)
  }

  function LookAt(fs: FileSystem, entry: Entry, names: seq<string>, visited: set<Key>): Option<Kind>
    requires Closed(fs) && names != [] && (entry.target.Dir? ==> entry.target.key in fs)
    decreases |names|, 0, 0
  {
    if |names| == 1 then Some(KindOf(entry.target, visited))
    else if entry.target.Dir? && entry.target.key !in visited then
      Look(fs, entry.target.key, names[1..], visited + {entry.target.key})
    else None
  }

  ghost predicate DistinctNames(fs: FileSystem) {
    forall d | d in fs && fs[d].Some? :: NamesDiffer(fs[d].value)
  }

  ghost predicate NamesDiffer(entries: seq<Entry>) {
    forall i, j | 0 <= i < j < |entries| :: entries[i].name != entries[j].name
  }

  /** How often a path that looks up to `found` has to be yielded. */
  function Ways(matches: (string, string) -> bool, parts: seq<string>, names: seq<string>, found: Option<Kind>): nat {
    if found.None? then 0 else |Cuts(matches, parts, names, found.value)|
  }

  /** The same, for the yields that come from inside the directory. */
  function DeepWays(matches: (string, string) -> bool, parts: seq<string>, names: seq<string>, found: Option<Kind>): nat
    requires parts != []
  {
    if found.None? then 0 else |DeepCuts(matches, parts, names, found.value)|
  }

  // ---------- the walker yields every path once for each cut ----------

  lemma {:induction false} CountWalk(fs: FileSystem, matches: (string, string) -> bool, base: Path, dir: Key,
                                     parts: seq<string>, visited: set<Key>, path: Path)
    requires Closed(fs) && DistinctNames(fs) && dir in fs
    ensures Count(Walk(fs, matches, base, dir, parts, visited), path) ==
            if base <= path then
              Ways(matches, parts, path[|base|..], Look(fs, dir, path[|base|..], visited))
            else 0
    decreases Unvisited(fs, visited), |parts|, |Listing(fs, dir)| + 2
  {
    if parts != [] {
      var entries := Listing(fs, dir);
      var head := if parts[0] != STARS then []
                  else if |parts| > 1 then Walk(fs, matches, base, dir, parts[1..], visited)
                  else [base];
      CountConcat(head, WalkEntries(fs, matches, base, entries, parts, visited), path);
      if parts[0] == STARS && |parts| > 1 {
        CountWalk(fs, matches, base, dir, parts[1..], visited, path);
      }
      assert Count([base], path) == if path == base then 1 else 0;
      assert NamesDiffer(entries);
      CountEntries(fs, matches, base, entries, parts, visited, path);
      if base <= path {
        assert path[|base|..] == [] <==> path == base;
        WaysSplit(matches, parts, path[|base|..], Look(fs, dir, path[|base|..], visited));
      }
    }
  }

  lemma WaysSplit(matches: (string, string) -> bool, parts: seq<string>, names: seq<string>, found: Option<Kind>)
    requires parts != []
    ensures Ways(matches, parts, names, found) ==
            (if parts[0] != STARS || found.None? then 0
             else if |parts| > 1 then Ways(matches, parts[1..], names, found)
             else if names == [] then 1 else 0)
            + DeepWays(matches, parts, names, found)
    ensures names == [] ==> DeepWays(matches, parts, names, found) == 0
  {
    if found.Some? {
      assert Cuts(matches, parts, names, found.value)
          == HereCuts(matches, parts, names, found.value) + DeepCuts(matches, parts, names, found.value);
    }
  }

  lemma {:induction false} CountEntries(fs: FileSystem, matches: (string, string) -> bool, base: Path,
                                        entries: seq<Entry>, parts: seq<string>, visited: set<Key>, path: Path)
    requires Closed(fs) && DistinctNames(fs) && EntriesIn(entries, fs) && NamesDiffer(entries) && parts != []
    ensures Count(WalkEntries(fs, matches, base, entries, parts, visited), path) ==
            if base < path then
              DeepWays(matches, parts, path[|base|..], LookIn(fs, entries, path[|base|..], visited))
            else 0
    decreases Unvisited(fs, visited), |parts|, |entries| + 1
  {
    if entries != [] {
      CountConcat(WalkEntry(fs, matches, base, entries[0], parts, visited),
                  WalkEntries(fs, matches, base, entries[1..], parts, visited), path);
      CountEntry(fs, matches, base, entries[0], parts, visited, path);
      CountEntries(fs, matches, base, entries[1..], parts, visited, path);
      if base < path && path[|base|] == entries[0].name {
        NotListed(fs, entries[1..], path[|base|..], visited);
      }
    }
  }

  lemma {:induction false} NotListed(fs: FileSystem, entries: seq<Entry>, names: seq<string>, visited: set<Key>)
    requires Closed(fs) && EntriesIn(entries, fs) && names != []
    requires forall e | e in entries :: e.name != names[0]
    ensures LookIn(fs, entries, names, visited) == None
  {
    if entries != [] {
      NotListed(fs, entries[1..], names, visited);
    }
  }

  lemma {:induction false} CountEnter(fs: FileSystem, matches: (string, string) -> bool, base: Path, key: Key,
                                      parts: seq<string>, visited: set<Key>, path: Path)
    requires Closed(fs) && DistinctNames(fs) && key in fs
    ensures Count(Enter(fs, matches, base, key, parts, visited), path) ==
            if base <= path && key !in visited then
              Ways(matches, parts, path[|base|..], Look(fs, key, path[|base|..], visited + {key}))
            else 0
    decreases Unvisited(fs, visited), 0, 0
  {
    if key !in visited {
      VisitShrinks(fs, visited, key);
      CountWalk(fs, matches, base, key, parts, visited + {key}, path);
    }
  }

  lemma {:induction false} CountEntry(fs: FileSystem, matches: (string, string) -> bool, base: Path,
                                      entry: Entry, parts: seq<string>, visited: set<Key>, path: Path)
    requires Closed(fs) && DistinctNames(fs) && EntriesIn([entry], fs) && parts != []
    requires entry.target.Dir? ==> entry.target.key in fs
    ensures Count(WalkEntry(fs, matches, base, entry, parts, visited), path) ==
            if base < path && path[|base|] == entry.name then
              DeepWays(matches, parts, path[|base|..], LookAt(fs, entry, path[|base|..], visited))
            else 0
    decreases Unvisited(fs, visited), |parts|, 0
  {
    hide Cuts, Enter, Look, Closed, DistinctNames;
    var fullPath := base + [entry.name];
    ExtendsEntry(base, entry.name, path);
    assert Count([fullPath], path) == if path == fullPath then 1 else 0;
    if entry.target.Dir? {
      CountEnter(fs, matches, fullPath, entry.target.key, parts, visited, path);
      if |parts| > 1 {
        CountEnter(fs, matches, fullPath, entry.target.key, parts[1..], visited, path);
      }
      if |path| == |fullPath| {
        LookHere(fs, entry.target.key, visited + {entry.target.key});
      }
    }
  }

  lemma LookHere(fs: FileSystem, dir: Key, visited: set<Key>)
    requires Closed(fs) && dir in fs
    ensures Look(fs, dir, [], visited) == Some(Enterable)
  {
  }

  lemma ExtendsEntry(base: Path, name: string, path: Path)
    ensures base + [name] <= path <==> base < path && path[|base|] == name
    ensures base + [name] <= path ==>
              && path[|base|..][1..] == path[|base| + 1..]
              && path[|base|..][0] == name
              && (path == base + [name] <==> |path[|base|..]| == 1)
              && (path == base + [name] ==> path[|base| + 1..] == [])
  {
  }

  // ---------- the cuts are exactly the ways the pattern fits, each once ----------

  ghost predicate Distinct(cuts: seq<seq<nat>>) {
    forall i, j | 0 <= i < j < |cuts| :: cuts[i] != cuts[j]
  }

  /** Every cut that is listed fits. */
  lemma {:induction false} CutsFit(matches: (string, string) -> bool, parts: seq<string>, names: seq<string>, kind: Kind,
                                   k: nat)
    requires k < |Cuts(matches, parts, names, kind)|
    ensures Fits(matches, parts, names, kind, Cuts(matches, parts, names, kind)[k])
    decreases |parts|, |names|, 1
  {
    hide HereCuts, DeepCuts, Fits;
    var here, deep := HereCuts(matches, parts, names, kind), DeepCuts(matches, parts, names, kind);
    if k < |here| {
      HereFits(matches, parts, names, kind, k);
    } else {
      DeepFits(matches, parts, names, kind, k - |here|);
      assert Cuts(matches, parts, names, kind)[k] == deep[k - |here|];
    }
  }

  lemma {:induction false} HereFits(matches: (string, string) -> bool, parts: seq<string>, names: seq<string>, kind: Kind,
                                    k: nat)
    requires parts != [] && k < |HereCuts(matches, parts, names, kind)|
    ensures Fits(matches, parts, names, kind, HereCuts(matches, parts, names, kind)[k])
    decreases |parts|, |names|, 0
  {
    hide Cuts;
    assert names[0..] == names;
    if |parts| > 1 {
      CutsFit(matches, parts[1..], names, kind, k);
      var v := Cuts(matches, parts[1..], names, kind)[k];
      assert ([0] + v)[1..] == v;
    }
  }

  lemma {:induction false} DeepFits(matches: (string, string) -> bool, parts: seq<string>, names: seq<string>, kind: Kind,
                                    k: nat)
    requires parts != [] && k < |DeepCuts(matches, parts, names, kind)|
    ensures Fits(matches, parts, names, kind, DeepCuts(matches, parts, names, kind)[k])
    decreases |parts|, |names|, 0
  {
    hide Cuts;
    if parts[0] == STARS {
      if |names| > 1 || kind == Enterable {
        CutsFit(matches, parts, names[1..], kind, k);
      }
    } else if |parts| > 1 {
      CutsFit(matches, parts[1..], names[1..], kind, k);
      var v := Cuts(matches, parts[1..], names[1..], kind)[k];
      assert ([1] + v)[1..] == v;
    }
  }

  /** Every way the pattern fits is listed. */
  lemma {:induction false} FitsIsCut(matches: (string, string) -> bool, parts: seq<string>, names: seq<string>, kind: Kind,
                                     w: seq<nat>) returns (k: nat)
    requires Fits(matches, parts, names, kind, w)
    ensures k < |Cuts(matches, parts, names, kind)| && Cuts(matches, parts, names, kind)[k] == w
    decreases |parts|, |names|, 1
  {
    hide HereCuts, DeepCuts;
    var here, deep := HereCuts(matches, parts, names, kind), DeepCuts(matches, parts, names, kind);
    assert Cuts(matches, parts, names, kind) == here + deep;
    if parts[0] == STARS && w[0] == 0 {
      k := FitsHere(matches, parts, names, kind, w);
    } else {
      var j := FitsDeep(matches, parts, names, kind, w);
      k := |here| + j;
    }
  }

  lemma {:induction false} FitsHere(matches: (string, string) -> bool, parts: seq<string>, names: seq<string>, kind: Kind,
                                    w: seq<nat>) returns (k: nat)
    requires Fits(matches, parts, names, kind, w) && parts[0] == STARS && w[0] == 0
    ensures k < |HereCuts(matches, parts, names, kind)| && HereCuts(matches, parts, names, kind)[k] == w
    decreases |parts|, |names|, 0
  {
    hide Cuts;
    assert names[0..] == names && w == [0] + w[1..];
    k := 0;
    if |parts| > 1 {
      k := FitsIsCut(matches, parts[1..], names, kind, w[1..]);
    }
  }

  lemma {:induction false} FitsDeep(matches: (string, string) -> bool, parts: seq<string>, names: seq<string>, kind: Kind,
                                    w: seq<nat>) returns (k: nat)
    requires Fits(matches, parts, names, kind, w) && !(parts[0] == STARS && w[0] == 0)
    ensures k < |DeepCuts(matches, parts, names, kind)| && DeepCuts(matches, parts, names, kind)[k] == w
    decreases |parts|, |names|, 0
  {
    hide Cuts;
    assert w == [w[0]] + w[1..];
    k := 0;
    if parts[0] == STARS {
      if |names| > 1 || kind == Enterable {
        var v := [w[0] - 1] + w[1..];
        assert BumpOne(v) == w;
        k := FitsIsCut(matches, parts, names[1..], kind, v);
      }
    } else if |parts| > 1 {
      k := FitsIsCut(matches, parts[1..], names[1..], kind, w[1..]);
    }
  }

  ghost predicate NoneEmpty(cuts: seq<seq<nat>>) {
    forall k | 0 <= k < |cuts| :: cuts[k] != []
  }

  lemma PrependDistinct(n: nat, cuts: seq<seq<nat>>)
    requires Distinct(cuts)
    ensures Distinct(Prepend(n, cuts)) && NoneEmpty(Prepend(n, cuts))
  {
    var r := Prepend(n, cuts);
    assert forall k | 0 <= k < |cuts| :: r[k][1..] == cuts[k];
  }

  lemma BumpInjective(v: seq<nat>, w: seq<nat>)
    requires v != [] && w != [] && v != w
    ensures BumpOne(v) != BumpOne(w)
  {
    if |v| == |w| {
      var k :| 0 <= k < |v| && v[k] != w[k];
      assert BumpOne(v)[k] != BumpOne(w)[k];
    }
  }

  lemma BumpDistinct(cuts: seq<seq<nat>>)
    requires Distinct(cuts) && NoneEmpty(cuts)
    ensures Distinct(Bump(cuts)) && NoneEmpty(Bump(cuts))
  {
    hide BumpOne;
    forall i, j | 0 <= i < j < |cuts|
      ensures BumpOne(cuts[i]) != BumpOne(cuts[j])
    {
      BumpInjective(cuts[i], cuts[j]);
    }
    forall k | 0 <= k < |cuts|
      ensures BumpOne(cuts[k]) != []
    {
      BumpKeeps(cuts[k]);
    }
  }

  lemma BumpKeeps(w: seq<nat>)
    requires w != []
    ensures BumpOne(w) != [] && BumpOne(w)[0] == w[0] + 1
  {
  }

  /** No way the pattern fits is listed twice. */
  lemma {:induction false} CutsDistinct(matches: (string, string) -> bool, parts: seq<string>, names: seq<string>, kind: Kind)
    ensures Distinct(Cuts(matches, parts, names, kind)) && NoneEmpty(Cuts(matches, parts, names, kind))
    decreases |parts|, |names|, 1
  {
    if parts != [] {
      hide HereCuts, DeepCuts;
      var here, deep := HereCuts(matches, parts, names, kind), DeepCuts(matches, parts, names, kind);
      HereDistinct(matches, parts, names, kind);
      DeepDistinct(matches, parts, names, kind);
    }
  }

  lemma {:induction false} HereDistinct(matches: (string, string) -> bool, parts: seq<string>, names: seq<string>, kind: Kind)
    requires parts != []
    ensures var here := HereCuts(matches, parts, names, kind);
            Distinct(here) && NoneEmpty(here) && forall k | 0 <= k < |here| :: here[k][0] == 0
    decreases |parts|, |names|, 0
  {
    hide Cuts;
    if |parts| > 1 {
      CutsDistinct(matches, parts[1..], names, kind);
      PrependDistinct(0, Cuts(matches, parts[1..], names, kind));
    }
  }

  lemma {:induction false} DeepDistinct(matches: (string, string) -> bool, parts: seq<string>, names: seq<string>, kind: Kind)
    requires parts != []
    ensures var deep := DeepCuts(matches, parts, names, kind);
            Distinct(deep) && NoneEmpty(deep) && forall k | 0 <= k < |deep| :: deep[k][0] > 0
    decreases |parts|, |names|, 0
  {
    hide Cuts, BumpOne;
    if names != [] {
      if parts[0] == STARS {
        var inner := Cuts(matches, parts, names[1..], kind);
        CutsDistinct(matches, parts, names[1..], kind);
        BumpDistinct(inner);
        forall k | 0 <= k < |inner|
          ensures BumpOne(inner[k]) != [] && BumpOne(inner[k])[0] > 0
        {
          BumpKeeps(inner[k]);
        }
      } else if |parts| > 1 {
        CutsDistinct(matches, parts[1..], names[1..], kind);
        PrependDistinct(1, Cuts(matches, parts[1..], names[1..], kind));
      }
    }
  }

  // ---------- at most one `**`: at most one way ----------

  function StarCount(parts: seq<string>): nat {
    if parts == [] then 0 else (if parts[0] == STARS then 1 else 0) + StarCount(parts[1..])
  }

  lemma {:induction false} FitLength(matches: (string, string) -> bool, parts: seq<string>, names: seq<string>, kind: Kind,
                                     w: seq<nat>)
    requires Fits(matches, parts, names, kind, w) && StarCount(parts) == 0
    ensures |names| == |parts|
    decreases |parts|
  {
    if |parts| > 1 {
      FitLength(matches, parts[1..], names[1..], kind, w[1..]);
    }
  }

  lemma {:induction false} OneStarOneFit(matches: (string, string) -> bool, parts: seq<string>, names: seq<string>,
                                         kind: Kind, v: seq<nat>, w: seq<nat>)
    requires StarCount(parts) <= 1
    requires Fits(matches, parts, names, kind, v) && Fits(matches, parts, names, kind, w)
    ensures v == w
    decreases |parts|
  {
    if |parts| > 1 {
      if parts[0] == STARS {
        FitLength(matches, parts[1..], names[v[0]..], kind, v[1..]);
        FitLength(matches, parts[1..], names[w[0]..], kind, w[1..]);
      }
      OneStarOneFit(matches, parts[1..], names[v[0]..], kind, v[1..], w[1..]);
      assert v == [v[0]] + v[1..] && w == [w[0]] + w[1..];
    }
  }

  lemma OneStarOneWay(matches: (string, string) -> bool, parts: seq<string>, names: seq<string>, kind: Kind)
    requires StarCount(parts) <= 1
    ensures |Cuts(matches, parts, names, kind)| <= 1
  {
    var cuts := Cuts(matches, parts, names, kind);
    CutsDistinct(matches, parts, names, kind);
    if |cuts| > 1 {
      CutsFit(matches, parts, names, kind, 0);
      CutsFit(matches, parts, names, kind, 1);
      OneStarOneFit(matches, parts, names, kind, cuts[0], cuts[1]);
    }
  }
}
