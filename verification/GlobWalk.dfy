/**
  The recursive glob walker.  A file system is a finite graph: a directory is known by its cycle
  key (`dev:ino`), and entries name files, directories, or things that cannot be stat'ed.
 */
module GlobWalk {
  import opened Wrappers

  type Key = int
  type Path = seq<string>

  /** What `stat` says: `Broken` when it throws. */
  datatype Target = File | Broken | Dir(key: Key)

  datatype Entry = Entry(name: string, target: Target)

  /** `None` is a directory that cannot be listed. */
  type FileSystem = map<Key, Option<seq<Entry>>>

  const STARS := "**"

  ghost predicate Closed(fs: FileSystem) {
    forall d, e | d in fs && fs[d].Some? && e in fs[d].value && e.target.Dir? :: e.target.key in fs
  }

  ghost predicate EntriesIn(entries: seq<Entry>, fs: FileSystem) {
    forall e | e in entries && e.target.Dir? :: e.target.key in fs
  }

  function Listing(fs: FileSystem, dir: Key): seq<Entry>
    requires dir in fs
  {
    if fs[dir].Some? then fs[dir].value else []
  }

  // ---------- what the walker yields ----------

  ghost function Unvisited(fs: FileSystem, visited: set<Key>): nat {
    |fs.Keys - visited|
  }

  lemma VisitShrinks(fs: FileSystem, visited: set<Key>, key: Key)
    requires key in fs && key !in visited
    ensures Unvisited(fs, visited + {key}) < Unvisited(fs, visited)
  {
    assert fs.Keys - (visited + {key}) == (fs.Keys - visited) - {key};
  }

  /** All paths the walker yields, in order; `matches(part, name)` is the compiled pattern's test. */
  function Walk(fs: FileSystem, matches: (string, string) -> bool, base: Path, dir: Key,
                parts: seq<string>, visited: set<Key>): seq<Path>
    requires Closed(fs) && dir in fs
    decreases Unvisited(fs, visited), |parts|, |Listing(fs, dir)| + 2
  {
    if parts == [] then []
    else
      (if parts[0] != STARS then []
       else if |parts| > 1 then Walk(fs, matches, base, dir, parts[1..], visited)
       else [base])
      + WalkEntries(fs, matches, base, Listing(fs, dir), parts, visited)
  }

  function WalkEntries(fs: FileSystem, matches: (string, string) -> bool, base: Path, entries: seq<Entry>,
                       parts: seq<string>, visited: set<Key>): seq<Path>
    requires Closed(fs) && EntriesIn(entries, fs) && parts != []
    decreases Unvisited(fs, visited), |parts|, |entries| + 1
  {
    if entries == [] then []
    else
      WalkEntry(fs, matches, base, entries[0], parts, visited)
      + WalkEntries(fs, matches, base, entries[1..], parts, visited)
  }

  function WalkEntry(fs: FileSystem, matches: (string, string) -> bool, base: Path, entry: Entry,
                     parts: seq<string>, visited: set<Key>): seq<Path>
    requires Closed(fs) && EntriesIn([entry], fs) && parts != []
    decreases Unvisited(fs, visited), |parts|, 0
  {
    var fullPath := base + [entry.name];
    if parts[0] == STARS then
      match entry.target
      case Dir(key) =>
        assert entry in [entry];
        Enter(fs, matches, fullPath, key, parts, visited)
      case File => if |parts| == 1 then [fullPath] else []
      case Broken => []
    else if !matches(parts[0], entry.name) then []
    else if |parts| == 1 then [fullPath]
    else if entry.target.Dir? then
      assert entry in [entry];
      Enter(fs, matches, fullPath, entry.target.key, parts[1..], visited)
    else []
  }

  /** A directory on the current descent path is not entered again. */
  function Enter(fs: FileSystem, matches: (string, string) -> bool, base: Path, dir: Key,
                 parts: seq<string>, visited: set<Key>): seq<Path>
    requires Closed(fs) && dir in fs
    decreases Unvisited(fs, visited), 0, 0
  {
    if dir in visited then []
    else
      VisitShrinks(fs, visited, dir);
      Walk(fs, matches, base, dir, parts, visited + {dir})
  }

  // ---------- the walker itself ----------

  /** The loop over a listing: what entry `i` adds and what the later ones will. */
  lemma EntryStep(fs: FileSystem, matches: (string, string) -> bool, base: Path, entries: seq<Entry>, i: nat,
                  parts: seq<string>, visited: set<Key>)
    requires Closed(fs) && i < |entries| && EntriesIn(entries[i..], fs) && parts != []
    ensures EntriesIn([entries[i]], fs) && EntriesIn(entries[i + 1..], fs)
    ensures entries[i].target.Dir? ==> entries[i].target.key in fs
    ensures WalkEntries(fs, matches, base, entries[i..], parts, visited) ==
            WalkEntry(fs, matches, base, entries[i], parts, visited)
            + WalkEntries(fs, matches, base, entries[i + 1..], parts, visited)
  {
  }

  /** `_globWalk` of packages/kaos/src/local.ts */
  method GlobWalkLocal(fs: FileSystem, matches: (string, string) -> bool, basePath: Path, dir: Key,
                       patternParts: seq<string>, visited: set<Key>) returns (out: seq<Path>)
    requires Closed(fs) && dir in fs
    ensures out == Walk(fs, matches, basePath, dir, patternParts, visited)
    decreases Unvisited(fs, visited), |patternParts|, 1
  {
    out := [];
    if |patternParts| == 0 {
      return;
    }
    if patternParts[0] == STARS {
      if |patternParts| > 1 {
        out := GlobWalkLocal(fs, matches, basePath, dir, patternParts[1..], visited);
      } else {
        out := [basePath];
      }
    }
    if fs[dir].None? {
      return;
    }
    var inner := GlobEntriesLocal(fs, matches, basePath, fs[dir].value, patternParts, visited);
    out := out + inner;
  }

  /** The loop over the entries, the same in both halves of the source's function. */
  method GlobEntriesLocal(fs: FileSystem, matches: (string, string) -> bool, basePath: Path, entries: seq<Entry>,
                          patternParts: seq<string>, visited: set<Key>) returns (out: seq<Path>)
    requires Closed(fs) && EntriesIn(entries, fs) && patternParts != []
    ensures out == WalkEntries(fs, matches, basePath, entries, patternParts, visited)
    decreases Unvisited(fs, visited), |patternParts|, 0
  {
    hide Walk, WalkEntries, Closed, EntriesIn, Unvisited;
    out := [];
    NoEntries(fs, matches, basePath, patternParts, visited);
    var currentPattern, remainingParts := patternParts[0], patternParts[1..];
    var i := 0;
    assert entries[0..] == entries;
    while i < |entries|
      invariant i <= |entries| && EntriesIn(entries[i..], fs)
      invariant WalkEntries(fs, matches, basePath, entries, patternParts, visited) ==
                out + WalkEntries(fs, matches, basePath, entries[i..], patternParts, visited)
    {
      var entry := entries[i];
      var fullPath := basePath + [entry.name];
      EntryStep(fs, matches, basePath, entries, i, patternParts, visited);
      var found: seq<Path> := [];
      if currentPattern == STARS {
        match entry.target {
          case Broken =>
          case Dir(key) =>
            if key !in visited {
              VisitShrinks(fs, visited, key);
              found := GlobWalkLocal(fs, matches, fullPath, key, patternParts, visited + {key});
            }
          case File =>
            if |remainingParts| == 0 {
              found := [fullPath];
            }
        }
      } else if matches(currentPattern, entry.name) {
        if |remainingParts| == 0 {
          found := [fullPath];
        } else if entry.target.Dir? && entry.target.key !in visited {
          VisitShrinks(fs, visited, entry.target.key);
          found := GlobWalkLocal(fs, matches, fullPath, entry.target.key, remainingParts,
                                 visited + {entry.target.key});
        }
      }
      out := out + found;
      i := i + 1;
    }
    assert entries[i..] == [];
  }

  lemma NoEntries(fs: FileSystem, matches: (string, string) -> bool, base: Path,
                  parts: seq<string>, visited: set<Key>)
    requires Closed(fs) && parts != []
    ensures EntriesIn([], fs) && WalkEntries(fs, matches, base, [], parts, visited) == []
  {
  }
}
