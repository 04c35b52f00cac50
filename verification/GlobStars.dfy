/** When a pattern can make the walker repeat a path. */
module GlobStars {
  import opened Wrappers
  import opened GlobWalk
  import opened GlobMatch
  import opened GlobTheorems

  ghost predicate HasName(matches: (string, string) -> bool, part: string) {
    exists n :: matches(part, n)
  }

  /** Every part but `**` matches some name. */
  ghost predicate Matchable(matches: (string, string) -> bool, parts: seq<string>) {
    parts == [] || ((parts[0] == STARS || HasName(matches, parts[0])) && Matchable(matches, parts[1..]))
  }

  ghost function NameFor(matches: (string, string) -> bool, part: string): (n: string)
    ensures HasName(matches, part) ==> matches(part, n)
  {
    if HasName(matches, part) then
      var n :| matches(part, n); n
    else ""
  }

  /** Names that the parts fit when every `**` takes none, and that cut. */
  ghost function Shortest(matches: (string, string) -> bool, parts: seq<string>): seq<string>
  {
    if parts == [] then []
    else (if parts[0] == STARS then [] else [NameFor(matches, parts[0])]) + Shortest(matches, parts[1..])
  }

  function ZeroCut(parts: seq<string>): (w: seq<nat>)
    ensures |w| == |parts|
  {
    if parts == [] then [] else [if parts[0] == STARS then 0 else 1] + ZeroCut(parts[1..])
  }

  lemma FitsCons(matches: (string, string) -> bool, parts: seq<string>, block: seq<string>, rest: seq<string>, w: seq<nat>)
    requires parts != [] && (parts[0] == STARS || (|block| == 1 && matches(parts[0], block[0])))
    requires if |parts| == 1 then rest == [] && w == [] else Fits(matches, parts[1..], rest, Enterable, w)
    ensures Fits(matches, parts, block + rest, Enterable, [|block|] + w)
  {
    var names, cut := block + rest, [|block|] + w;
    assert names[|block|..] == rest && cut[1..] == w;
  }

  lemma {:induction false} ShortestFits(matches: (string, string) -> bool, parts: seq<string>)
    requires parts != [] && Matchable(matches, parts)
    ensures Fits(matches, parts, Shortest(matches, parts), Enterable, ZeroCut(parts))
  {
    var block := if parts[0] == STARS then [] else [NameFor(matches, parts[0])];
    if |parts| > 1 {
      ShortestFits(matches, parts[1..]);
    }
    FitsCons(matches, parts, block, Shortest(matches, parts[1..]), ZeroCut(parts[1..]));
  }

  /** The names before the first `**`, and those after it. */
  ghost function Lead(matches: (string, string) -> bool, parts: seq<string>): seq<string>
  {
    if parts == [] || parts[0] == STARS then [] else [NameFor(matches, parts[0])] + Lead(matches, parts[1..])
  }

  ghost function Trail(matches: (string, string) -> bool, parts: seq<string>): seq<string>
  {
    if parts == [] then []
    else if parts[0] == STARS then Shortest(matches, parts[1..])
    else Trail(matches, parts[1..])
  }

  /** The first `**` can take any block of names. */
  lemma {:induction false} StarTakes(matches: (string, string) -> bool, parts: seq<string>, block: seq<string>)
    returns (w: seq<nat>)
    requires Matchable(matches, parts) && StarCount(parts) >= 1
    ensures Fits(matches, parts, Lead(matches, parts) + (block + Trail(matches, parts)), Enterable, w)
  {
    var rest := parts[1..];
    if parts[0] == STARS {
      if rest != [] {
        ShortestFits(matches, rest);
      }
      FitsCons(matches, parts, block, Shortest(matches, rest), ZeroCut(rest));
      w := [|block|] + ZeroCut(rest);
      assert [] + (block + Trail(matches, parts)) == block + Trail(matches, parts);
    } else {
      var v := StarTakes(matches, rest, block);
      var first := [NameFor(matches, parts[0])];
      var more := Lead(matches, rest) + (block + Trail(matches, rest));
      FitsCons(matches, parts, first, more, v);
      w := [1] + v;
      assert first + more == (first + Lead(matches, rest)) + (block + Trail(matches, rest));
    }
  }

  /** A leading `**` and a later one can share a block of names in two ways. */
  lemma LeadingStarTwoCuts(matches: (string, string) -> bool, parts: seq<string>)
    returns (names: seq<string>, v: seq<nat>, w: seq<nat>)
    requires parts != [] && parts[0] == STARS && Matchable(matches, parts[1..]) && StarCount(parts[1..]) >= 1
    ensures v != w && Fits(matches, parts, names, Enterable, v) && Fits(matches, parts, names, Enterable, w)
  {
    hide Fits, Lead, Trail, Matchable;
    var rest := parts[1..];
    var lead, trail := Lead(matches, rest), Trail(matches, rest);
    var block := if lead == [] then ["x"] else lead;
    var v1 := StarTakes(matches, rest, []);
    var w1 := StarTakes(matches, rest, block);
    names := lead + (block + trail);
    FitsCons(matches, parts, block, lead + ([] + trail), v1);
    FitsCons(matches, parts, [], names, w1);
    assert block + (lead + ([] + trail)) == names;
    assert [] + names == names;
    v, w := [|block|] + v1, [0] + w1;
    assert v[0] != w[0];
  }

  /** With two `**` some names fit in two ways. */
  lemma {:induction false} TwoStarsTwoCuts(matches: (string, string) -> bool, parts: seq<string>)
    returns (names: seq<string>, v: seq<nat>, w: seq<nat>)
    requires Matchable(matches, parts) && StarCount(parts) >= 2
    ensures v != w && Fits(matches, parts, names, Enterable, v) && Fits(matches, parts, names, Enterable, w)
  {
    hide Fits, HasName;
    if parts[0] == STARS {
      names, v, w := LeadingStarTwoCuts(matches, parts);
    } else {
      var more, v1, w1 := TwoStarsTwoCuts(matches, parts[1..]);
      var first := [NameFor(matches, parts[0])];
      names := first + more;
      FitsCons(matches, parts, first, more, v1);
      FitsCons(matches, parts, first, more, w1);
      v, w := [1] + v1, [1] + w1;
      assert v[1..] == v1 && w[1..] == w1;
    }
  }

  // ---------- a tree with these names ----------

  /** One directory below the other. */
  function Chain(names: seq<string>): (fs: FileSystem)
    ensures Closed(fs) && DistinctNames(fs) && forall k | 0 <= k <= |names| :: k in fs
  {
    map k: Key | 0 <= k <= |names| :: Some(if k < |names| then [Entry(names[k], Dir(k + 1))] else [])
  }

  lemma LookStep(names: seq<string>, i: nat, visited: set<Key>)
    requires i < |names| && i + 1 !in visited
    ensures Look(Chain(names), i, names[i..], visited) ==
      if i + 1 == |names| then Some(Enterable)
      else Look(Chain(names), i + 1, names[i + 1..], visited + {i + 1})
  {
    hide Closed, DistinctNames;
    var fs, rest := Chain(names), names[i..];
    var entry := Entry(names[i], Dir(i + 1));
    assert Listing(fs, i) == [entry] && rest[0] == names[i] && rest[1..] == names[i + 1..];
    assert EntriesIn([entry], fs);
    assert LookIn(fs, [entry], rest, visited) == LookAt(fs, entry, rest, visited);
  }

  lemma {:induction false} LookDown(names: seq<string>, i: nat, visited: set<Key>)
    requires i <= |names| && forall k | k in visited :: k <= i
    ensures Look(Chain(names), i, names[i..], visited) == Some(Enterable)
    decreases |names| - i
  {
    hide Closed, DistinctNames, Chain;
    if i < |names| {
      LookStep(names, i, visited);
      LookDown(names, i + 1, visited + {i + 1});
    }
  }

  ghost predicate NoRepeats(paths: seq<Path>) {
    forall i, j | 0 <= i < j < |paths| :: paths[i] != paths[j]
  }

  lemma {:induction false} RepeatIsCounted(paths: seq<Path>, path: Path)
    requires NoRepeats(paths)
    ensures Count(paths, path) <= 1
  {
    if paths != [] {
      RepeatIsCounted(paths[1..], path);
      CountIn(paths[1..], path);
    }
  }

  /** With two `**` there is a tree on which some path is yielded twice. */
  lemma TwoStarsRepeatSomewhere(matches: (string, string) -> bool, parts: seq<string>) returns (names: seq<string>)
    requires Matchable(matches, parts) && StarCount(parts) >= 2
    ensures !NoRepeats(Walk(Chain(names), matches, [], 0, parts, {0}))
  {
    hide Walk, Cuts, Fits, Look, NoRepeats, Chain, Closed;
    var v: seq<nat>, w: seq<nat>;
    names, v, w := TwoStarsTwoCuts(matches, parts);
    var i := FitsIsCut(matches, parts, names, Enterable, v);
    var j := FitsIsCut(matches, parts, names, Enterable, w);
    LookDown(names, 0, {0});
    assert names[0..] == names;
    CountWalk(Chain(names), matches, [], 0, parts, {0}, names);
    var paths := Walk(Chain(names), matches, [], 0, parts, {0});
    if NoRepeats(paths) {
      RepeatIsCounted(paths, names);
    }
  }

  ghost predicate NeverRepeats(matches: (string, string) -> bool, parts: seq<string>) {
    forall fs: FileSystem, dir: Key | Closed(fs) && DistinctNames(fs) && dir in fs ::
      NoRepeats(Walk(fs, matches, [], dir, parts, {dir}))
  }

  /** A pattern whose parts can match at all never repeats a path, on any file system, iff it has at most one `**`. */
  lemma NeverRepeatsIff(matches: (string, string) -> bool, parts: seq<string>)
    requires Matchable(matches, parts)
    ensures NeverRepeats(matches, parts) <==> StarCount(parts) <= 1
  {
    hide Walk, Closed, DistinctNames, Chain;
    if StarCount(parts) <= 1 {
      forall fs: FileSystem, dir: Key | Closed(fs) && DistinctNames(fs) && dir in fs
        ensures NoRepeats(Walk(fs, matches, [], dir, parts, {dir}))
      {
        NoPathTwice(fs, matches, [], dir, parts, {dir});
      }
    } else {
      var names := TwoStarsRepeatSomewhere(matches, parts);
      assert 0 in Chain(names);
    }
  }
}
