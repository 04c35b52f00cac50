/** The glob walker over SFTP (packages/kaos/src/ssh.ts), and that it agrees with the local one. */
module SshGlob {
  import opened Wrappers
  import opened GlobWalk
  import opened GlobTheorems

  predicate IsDot(name: string) {
    name == "." || name == ".."
  }

  /** SFTP lists `.` and `..`; a local `readdir` does not. */
  function WithoutDots(entries: seq<Entry>): (r: seq<Entry>)
    ensures forall e | e in r :: e in entries && !IsDot(e.name)
  {
    if entries == [] then []
    else (if IsDot(entries[0].name) then [] else [entries[0]]) + WithoutDots(entries[1..])
  }

  lemma DotsCons(e: Entry, rest: seq<Entry>)
    ensures WithoutDots([e] + rest) == (if e.name == "." || e.name == ".." then [] else [e]) + WithoutDots(rest)
    ensures WithoutDots([]) == []
  {
    assert ([e] + rest)[1..] == rest;
  }

  /** Nothing but `.` and `..` is dropped, and the order stays: part by part, and here for one entry. */
  lemma {:induction false} OnlyDotsAreDropped(before: seq<Entry>, e: Entry)
    ensures WithoutDots(before + [e]) == WithoutDots(before) + if e.name == "." || e.name == ".." then [] else [e]
  {
    hide WithoutDots, IsDot;
    DotsCons(e, []);
    if before == [] {
      assert [] + [e] == [e] + [];
    } else {
      var first, rest := before[0], before[1..];
      OnlyDotsAreDropped(rest, e);
      DotsCons(first, rest);
      DotsCons(first, rest + [e]);
      assert before == [first] + rest && before + [e] == [first] + (rest + [e]);
    }
  }

  function LocalView(fs: FileSystem): (r: FileSystem)
    ensures r.Keys == fs.Keys
    ensures forall d | d in fs :: Listing(r, d) == WithoutDots(Listing(fs, d))
  {
    map d | d in fs :: if fs[d].None? then None else Some(WithoutDots(fs[d].value))
  }

  /** No link leads back up, apart from the dots. */
  ghost predicate RankedBelowDots(fs: FileSystem, rank: Key -> nat) {
    forall d, e | d in fs && e in Listing(fs, d) && !IsDot(e.name) && e.target.Dir? :: rank(e.target.key) < rank(d)
  }

  ghost predicate EntriesBelow(entries: seq<Entry>, rank: Key -> nat, bound: nat) {
    forall e | e in entries && !IsDot(e.name) && e.target.Dir? :: rank(e.target.key) < bound
  }

  /** SFTP attributes do not follow links: an entry is a directory or it is not. */
  ghost predicate NoBroken(fs: FileSystem) {
    forall d, e | d in fs && e in Listing(fs, d) :: !e.target.Broken?
  }

  function SshWalk(fs: FileSystem, matches: (string, string) -> bool, base: Path, dir: Key, parts: seq<string>,
                   ghost rank: Key -> nat): seq<Path>
    requires Closed(fs) && dir in fs && RankedBelowDots(fs, rank)
    decreases rank(dir), |parts|, |Listing(fs, dir)| + 2
  {
    if parts == [] then []
    else
      (if parts[0] != STARS then []
       else if |parts| > 1 then SshWalk(fs, matches, base, dir, parts[1..], rank)
       else [base])
      + SshEntries(fs, matches, base, Listing(fs, dir), parts, rank, rank(dir))
  }

  function SshEntries(fs: FileSystem, matches: (string, string) -> bool, base: Path, entries: seq<Entry>,
                      parts: seq<string>, ghost rank: Key -> nat, ghost bound: nat): seq<Path>
    requires Closed(fs) && RankedBelowDots(fs, rank) && EntriesIn(entries, fs) && EntriesBelow(entries, rank, bound)
    requires parts != []
    decreases bound, |parts|, |entries| + 1
  {
    if entries == [] then []
    else
      assert entries[0] in entries;
      (if IsDot(entries[0].name) then [] else SshEntry(fs, matches, base, entries[0], parts, rank, bound))
      + SshEntries(fs, matches, base, entries[1..], parts, rank, bound)
  }

  function SshEntry(fs: FileSystem, matches: (string, string) -> bool, base: Path, entry: Entry,
                    parts: seq<string>, ghost rank: Key -> nat, ghost bound: nat): seq<Path>
    requires Closed(fs) && RankedBelowDots(fs, rank) && parts != []
    requires entry.target.Dir? ==> entry.target.key in fs && rank(entry.target.key) < bound
    decreases bound, |parts|, 0
  {
    var fullPath := base + [entry.name];
    if parts[0] == STARS then
      if entry.target.Dir? then SshWalk(fs, matches, fullPath, entry.target.key, parts, rank)
      else if |parts| == 1 then [fullPath]
      else []
    else if !matches(parts[0], entry.name) then []
    else if |parts| == 1 then [fullPath]
    else if entry.target.Dir? then SshWalk(fs, matches, fullPath, entry.target.key, parts[1..], rank)
    else []
  }

  /** `_globWalk` of packages/kaos/src/ssh.ts */
  method GlobWalkSsh(fs: FileSystem, matches: (string, string) -> bool, basePath: Path, dir: Key,
                     patternParts: seq<string>, ghost rank: Key -> nat) returns (out: seq<Path>)
    requires Closed(fs) && dir in fs && RankedBelowDots(fs, rank)
    ensures out == SshWalk(fs, matches, basePath, dir, patternParts, rank)
    decreases rank(dir), |patternParts|, 1
  {
    out := [];
    if |patternParts| == 0 {
      return;
    }
    if patternParts[0] == STARS {
      if |patternParts| > 1 {
        out := GlobWalkSsh(fs, matches, basePath, dir, patternParts[1..], rank);
      } else {
        out := [basePath];
      }
    }
    if fs[dir].None? {
      return;
    }
    var inner := GlobEntriesSsh(fs, matches, basePath, Listing(fs, dir), patternParts, rank, rank(dir));
    out := out + inner;
  }

  /** The loop over the entries, the same in both halves of the source's function. */
  method GlobEntriesSsh(fs: FileSystem, matches: (string, string) -> bool, basePath: Path, entries: seq<Entry>,
                        patternParts: seq<string>, ghost rank: Key -> nat, ghost bound: nat) returns (out: seq<Path>)
    requires Closed(fs) && RankedBelowDots(fs, rank) && EntriesIn(entries, fs) && EntriesBelow(entries, rank, bound)
    requires patternParts != []
    ensures out == SshEntries(fs, matches, basePath, entries, patternParts, rank, bound)
    decreases bound, |patternParts|, 0
  {
    hide SshWalk, SshEntries, Closed, RankedBelowDots, EntriesIn, EntriesBelow;
    out := [];
    var i := 0;
    SshStart(fs, matches, basePath, entries, patternParts, rank, bound);
    while i < |entries|
      invariant i <= |entries| && EntriesIn(entries[i..], fs) && EntriesBelow(entries[i..], rank, bound)
      invariant SshEntries(fs, matches, basePath, entries, patternParts, rank, bound) ==
                out + SshEntries(fs, matches, basePath, entries[i..], patternParts, rank, bound)
    {
      var entry := entries[i];
      SshStep(fs, matches, basePath, entries, i, patternParts, rank, bound);
      i := i + 1;
      if IsDot(entry.name) {
        continue;
      }
      var fullPath := basePath + [entry.name];
      var found: seq<Path> := [];
      if patternParts[0] == STARS {
        if entry.target.Dir? {
          found := GlobWalkSsh(fs, matches, fullPath, entry.target.key, patternParts, rank);
        } else if |patternParts| == 1 {
          found := [fullPath];
        }
      } else if matches(patternParts[0], entry.name) {
        if |patternParts| == 1 {
          found := [fullPath];
        } else if entry.target.Dir? {
          found := GlobWalkSsh(fs, matches, fullPath, entry.target.key, patternParts[1..], rank);
        }
      }
      out := out + found;
    }
    assert entries[i..] == [];
  }

  lemma SshStart(fs: FileSystem, matches: (string, string) -> bool, base: Path, entries: seq<Entry>,
                 parts: seq<string>, rank: Key -> nat, bound: nat)
    requires Closed(fs) && RankedBelowDots(fs, rank) && EntriesIn(entries, fs) && EntriesBelow(entries, rank, bound)
    requires parts != []
    ensures entries[0..] == entries
    ensures EntriesIn([], fs) && EntriesBelow([], rank, bound)
    ensures SshEntries(fs, matches, base, [], parts, rank, bound) == []
  {
  }

  lemma SshStep(fs: FileSystem, matches: (string, string) -> bool, base: Path, entries: seq<Entry>, i: nat,
                parts: seq<string>, rank: Key -> nat, bound: nat)
    requires Closed(fs) && RankedBelowDots(fs, rank) && parts != [] && i < |entries|
    requires EntriesIn(entries[i..], fs) && EntriesBelow(entries[i..], rank, bound)
    ensures EntriesIn(entries[i + 1..], fs) && EntriesBelow(entries[i + 1..], rank, bound)
    ensures entries[i].target.Dir? ==> entries[i].target.key in fs
    ensures entries[i].target.Dir? && !IsDot(entries[i].name) ==> rank(entries[i].target.key) < bound
    ensures SshEntries(fs, matches, base, entries[i..], parts, rank, bound) ==
            (if IsDot(entries[i].name) then [] else SshEntry(fs, matches, base, entries[i], parts, rank, bound))
            + SshEntries(fs, matches, base, entries[i + 1..], parts, rank, bound)
  {
  }

  // ---------- the same yields in the same order ----------

  /** On a tree both walkers yield the same paths in the same order. */
  lemma {:induction false} SameYields(fs: FileSystem, matches: (string, string) -> bool, base: Path, dir: Key,
                                      parts: seq<string>, rank: Key -> nat, visited: set<Key>)
    requires Closed(fs) && Closed(LocalView(fs)) && dir in fs && RankedBelowDots(fs, rank) && NoBroken(fs)
    requires forall k | k in visited :: rank(k) >= rank(dir)
    ensures SshWalk(fs, matches, base, dir, parts, rank) == Walk(LocalView(fs), matches, base, dir, parts, visited)
    decreases rank(dir), |parts|, |Listing(fs, dir)| + 2
  {
    if parts != [] {
      if parts[0] == STARS && |parts| > 1 {
        SameYields(fs, matches, base, dir, parts[1..], rank, visited);
      }
      SameEntries(fs, matches, base, dir, 0, parts, rank, visited);
      assert Listing(fs, dir)[0..] == Listing(fs, dir);
    }
  }

  lemma {:induction false} SameEntries(fs: FileSystem, matches: (string, string) -> bool, base: Path, dir: Key, i: nat,
                                       parts: seq<string>, rank: Key -> nat, visited: set<Key>)
    requires Closed(fs) && Closed(LocalView(fs)) && dir in fs && RankedBelowDots(fs, rank) && NoBroken(fs)
    requires parts != [] && i <= |Listing(fs, dir)|
    requires forall k | k in visited :: rank(k) >= rank(dir)
    ensures var rest := Listing(fs, dir)[i..];
            && EntriesIn(rest, fs) && EntriesBelow(rest, rank, rank(dir)) && EntriesIn(WithoutDots(rest), LocalView(fs))
            && SshEntries(fs, matches, base, rest, parts, rank, rank(dir))
               == WalkEntries(LocalView(fs), matches, base, WithoutDots(rest), parts, visited)
    decreases rank(dir), |parts|, |Listing(fs, dir)| + 1 - i
  {
    hide Walk, WalkEntry, WalkEntries, SshWalk, SshEntry, SshEntries, RankedBelowDots, NoBroken, Closed,
      EntriesIn, EntriesBelow, LocalView;
    var entries := Listing(fs, dir);
    var rest := entries[i..];
    SuffixIn(fs, dir, i, rank);
    if rest == [] {
      BothEmpty(fs, matches, base, parts, rank, rank(dir), visited);
    } else {
      SshStep(fs, matches, base, entries, i, parts, rank, rank(dir));
      SameEntries(fs, matches, base, dir, i + 1, parts, rank, visited);
      assert rest == [entries[i]] + entries[i + 1..];
      if !IsDot(entries[i].name) {
        WalkCons(LocalView(fs), matches, base, entries[i], WithoutDots(entries[i + 1..]), parts, visited);
        assert entries[i] in entries;
        NotBroken(fs, dir, entries[i]);
        SameEntry(fs, matches, base, entries[i], parts, rank, rank(dir), visited);
      }
    }
  }

  lemma NotBroken(fs: FileSystem, dir: Key, entry: Entry)
    requires NoBroken(fs) && dir in fs && entry in Listing(fs, dir)
    ensures !entry.target.Broken?
  {
  }

  lemma SuffixIn(fs: FileSystem, dir: Key, i: nat, rank: Key -> nat)
    requires Closed(fs) && dir in fs && RankedBelowDots(fs, rank) && i <= |Listing(fs, dir)|
    ensures var rest := Listing(fs, dir)[i..];
            && EntriesIn(rest, fs) && EntriesBelow(rest, rank, rank(dir)) && EntriesIn(WithoutDots(rest), LocalView(fs))
            && (rest != [] && IsDot(rest[0].name) ==> WithoutDots(rest) == WithoutDots(Listing(fs, dir)[i + 1..]))
            && (rest != [] && !IsDot(rest[0].name) ==>
                  WithoutDots(rest) == [rest[0]] + WithoutDots(Listing(fs, dir)[i + 1..]))
  {
  }

  lemma BothEmpty(fs: FileSystem, matches: (string, string) -> bool, base: Path, parts: seq<string>,
                  rank: Key -> nat, bound: nat, visited: set<Key>)
    requires Closed(fs) && Closed(LocalView(fs)) && RankedBelowDots(fs, rank) && parts != []
    ensures EntriesIn([], fs) && EntriesBelow([], rank, bound) && EntriesIn([], LocalView(fs)) && WithoutDots([]) == []
    ensures SshEntries(fs, matches, base, [], parts, rank, bound) == []
    ensures WalkEntries(LocalView(fs), matches, base, [], parts, visited) == []
  {
  }

  lemma WalkCons(fs: FileSystem, matches: (string, string) -> bool, base: Path, entry: Entry, rest: seq<Entry>,
                 parts: seq<string>, visited: set<Key>)
    requires Closed(fs) && EntriesIn([entry] + rest, fs) && parts != []
    ensures EntriesIn([entry], fs) && EntriesIn(rest, fs)
    ensures WalkEntries(fs, matches, base, [entry] + rest, parts, visited) ==
            WalkEntry(fs, matches, base, entry, parts, visited) + WalkEntries(fs, matches, base, rest, parts, visited)
  {
  }

  lemma {:induction false} SameEntry(fs: FileSystem, matches: (string, string) -> bool, base: Path, entry: Entry,
                                     parts: seq<string>, rank: Key -> nat, bound: nat, visited: set<Key>)
    requires Closed(fs) && Closed(LocalView(fs)) && RankedBelowDots(fs, rank) && NoBroken(fs) && parts != []
    requires EntriesIn([entry], LocalView(fs)) && !entry.target.Broken?
    requires entry.target.Dir? ==> entry.target.key in fs && rank(entry.target.key) < bound
    requires forall k | k in visited :: rank(k) >= bound
    ensures SshEntry(fs, matches, base, entry, parts, rank, bound)
         == WalkEntry(LocalView(fs), matches, base, entry, parts, visited)
    decreases bound, |parts|, 0
  {
    hide Walk, Enter, SshWalk, Closed, RankedBelowDots, NoBroken, LocalView, Unvisited;
    if entry.target.Dir? {
      assert entry in [entry];
      SameEnter(fs, matches, base + [entry.name], entry.target.key, parts, rank, visited);
      if |parts| > 1 {
        SameEnter(fs, matches, base + [entry.name], entry.target.key, parts[1..], rank, visited);
      }
    }
  }

  lemma {:induction false} SameEnter(fs: FileSystem, matches: (string, string) -> bool, base: Path, key: Key,
                                     parts: seq<string>, rank: Key -> nat, visited: set<Key>)
    requires Closed(fs) && Closed(LocalView(fs)) && key in fs && RankedBelowDots(fs, rank) && NoBroken(fs)
    requires forall k | k in visited :: rank(k) > rank(key)
    ensures SshWalk(fs, matches, base, key, parts, rank)
         == Enter(LocalView(fs), matches, base, key, parts, visited)
    decreases rank(key), |parts|, |Listing(fs, key)| + 3
  {
    VisitShrinks(LocalView(fs), visited, key);
    SameYields(fs, matches, base, key, parts, rank, visited + {key});
  }

  lemma SameGlob(fs: FileSystem, matches: (string, string) -> bool, base: Path, root: Key,
                 parts: seq<string>, rank: Key -> nat)
    requires Closed(fs) && root in fs && RankedBelowDots(fs, rank) && NoBroken(fs)
    ensures Closed(LocalView(fs))
    ensures SshWalk(fs, matches, base, root, parts, rank) == Walk(LocalView(fs), matches, base, root, parts, {root})
  {
    SameYields(fs, matches, base, root, parts, rank, {root});
  }
}
