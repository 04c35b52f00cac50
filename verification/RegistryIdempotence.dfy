/** Importing the same registry twice. */
module RegistryIdempotence {
  import opened Wrappers
  import opened CustomRegistry
  import opened RegistryTheorems

  lemma {:induction false} LastOf(es: seq<Entry>, p: string) returns (i: nat)
    requires p in Ids(es)
    ensures IsLast(es, i) && es[i].id == p
  {
    hide Ids;
    if es == [] {
      NoIds();
    } else {
      IdsSnoc(es);
      var n := |es| - 1;
      if es[n].id == p {
        i := n;
      } else {
        i := LastOf(es[..n], p);
      }
    }
  }

  lemma NothingIsStale(c: Config, es: seq<Entry>, source: Source)
    ensures Stale(Import(c, es, source), es, source) == {}
  {
    hide Refreshes, WithoutStale, Ids, Models;
    var t, stale := Import(c, es, source), Stale(c, es, source);
    forall p ensures p !in Stale(t, es, source) {
      if p !in Ids(es) {
        WithoutStaleAt(c, stale, p);
        ProviderAfter(WithoutStale(c, stale), es, source, p);
      }
    }
  }

  lemma SameProviders(c: Config, base: Config, es: seq<Entry>, source: Source)
    requires c == Refreshes(base, es, source)
    ensures Refreshes(c, es, source).providers == c.providers
  {
    hide Refreshes, Ids, ProviderOf;
    var u := Refreshes(c, es, source);
    forall p ensures At(u.providers, p) == At(c.providers, p) {
      ProviderAfter(base, es, source, p);
      ProviderAfter(c, es, source, p);
      if p in Ids(es) {
        var i := LastOf(es, p);
      }
    }
    SameMap(u.providers, c.providers);
  }

  lemma SameMap<V>(m: map<string, V>, n: map<string, V>)
    requires forall k :: At(m, k) == At(n, k)
    ensures m == n
  {
    forall k | k in m ensures k in n && m[k] == n[k] {
      assert At(m, k) == At(n, k);
    }
    forall k | k in n ensures k in m {
      assert At(m, k) == At(n, k);
    }
  }

  lemma {:induction false} AliasesWritten(c: Config, es: seq<Entry>, source: Source)
    ensures var r := Refreshes(c, es, source); r.models.Some? || (es == [] && r == c)
  {
    hide Refreshed, Models, Owns;
    if es != [] {
      DefaultsRefreshed(Refreshes(c, es[..|es| - 1], source), es[|es| - 1], source);
    }
  }

  lemma SameModels(c: Config, base: Config, es: seq<Entry>, source: Source)
    requires c == Refreshes(base, es, source)
    ensures Refreshes(c, es, source).models == c.models
  {
    hide Refreshes, Ids, At, FateOf, KeysOf, AliasAt;
    var u := Refreshes(c, es, source);
    forall k ensures At(Models(u), k) == At(Models(c), k) {
      ModelAfter(base, es, source, k);
      ModelAfter(c, es, source, k);
    }
    SameMap(Models(u), Models(c));
    AliasesWritten(base, es, source);
    AliasesWritten(c, es, source);
  }

  // ---------- which entries write a key ----------

  ghost predicate NothingWrites(es: seq<Entry>, n: nat, k: string) {
    forall j: nat | j < n :: !Claims(es, j, k)
  }

  ghost predicate LastWriter(es: seq<Entry>, j: nat, k: string) {
    Claims(es, j, k) && forall i: nat | j < i :: !Claims(es, i, k)
  }

  /** The entry at `n` follows one with its id that writes `k`, and no entry between the two writes it. */
  ghost predicate RepeatsAt(es: seq<Entry>, j: nat, n: nat, k: string) {
    && j < n < |es| && Claims(es, j, k) && es[j].id == es[n].id
    && forall i: nat | j < i < n :: !Claims(es, i, k)
  }

  ghost predicate LostToRepeat(es: seq<Entry>, k: string) {
    exists j: nat, n: nat :: RepeatsAt(es, j, n, k)
  }

  lemma {:induction false} SomeLastWriter(es: seq<Entry>, k: string)
    requires !NothingWrites(es, |es|, k)
    ensures exists j: nat :: LastWriter(es, j, k)
  {
    hide KeysOf;
    var n := |es| - 1;
    if Claims(es, n, k) {
      assert LastWriter(es, n, k);
    } else {
      var front := es[..n];
      assert forall i: nat | i < n :: Claims(front, i, k) <==> Claims(es, i, k);
      SomeLastWriter(front, k);
      var j: nat :| LastWriter(front, j, k);
      assert LastWriter(es, j, k);
    }
  }

  /** The last writer decides: its alias stays unless another entry of its id follows. */
  lemma {:induction false} FateOfLast(es: seq<Entry>, j: nat, k: string)
    requires LastWriter(es, j, k)
    ensures FateOf(es, k) == if IsLast(es, j) then InstalledBy(es[j]) else Dropped
  {
    hide KeysOf;
    var n := |es| - 1;
    if j < n {
      var front := es[..n];
      assert forall i: nat | i < n :: Claims(front, i, k) <==> Claims(es, i, k);
      FateOfLast(front, j, k);
      assert !Claims(es, n, k);
      assert forall i | j < i < n :: front[i] == es[i];
    }
  }

  lemma NotLastRepeats(es: seq<Entry>, j: nat, k: string)
    requires LastWriter(es, j, k) && !IsLast(es, j)
    ensures LostToRepeat(es, k)
  {
    hide KeysOf;
    var n :| j < n < |es| && es[n].id == es[j].id;
    assert RepeatsAt(es, j, n, k);
  }

  // ---------- one import and the default model ----------

  /** The default's provider is refreshed before any entry writes the default's key. */
  ghost predicate LostToOwner(c: Config, es: seq<Entry>, d: string) {
    exists n: nat :: OwnerAt(c, es, d, n)
  }

  ghost predicate OwnerAt(c: Config, es: seq<Entry>, d: string, n: nat) {
    n < |es| && Owns(Models(c), d, es[n].id) && es[n].id in c.providers && NothingWrites(es, n, d)
  }

  ghost predicate Lost(c: Config, es: seq<Entry>, d: string) {
    LostToOwner(c, es, d) || LostToRepeat(es, d)
  }

  lemma LostMore(c: Config, es: seq<Entry>, d: string)
    requires es != [] && Lost(c, es[..|es| - 1], d)
    ensures Lost(c, es, d)
  {
    hide KeysOf, Models;
    var front := es[..|es| - 1];
    assert forall i: nat | i < |front| :: Claims(front, i, d) <==> Claims(es, i, d);
    if LostToOwner(c, front, d) {
      var n: nat :| OwnerAt(c, front, d, n);
      assert OwnerAt(c, es, d, n);
    } else {
      var j: nat, n: nat :| RepeatsAt(front, j, n, d);
      assert RepeatsAt(es, j, n, d);
    }
  }

  /** If it is not lost among the first entries, it is lost at the last one, and only there. */
  lemma LostNow(c: Config, es: seq<Entry>, d: string)
    requires es != [] && !Lost(c, es[..|es| - 1], d)
    ensures var n := |es| - 1;
      Lost(c, es, d) <==> OwnerAt(c, es, d, n) || exists j: nat :: RepeatsAt(es, j, n, d)
  {
    hide KeysOf, Models;
    var n := |es| - 1;
    var front := es[..n];
    assert forall i: nat | i < n :: Claims(front, i, d) <==> Claims(es, i, d);
    forall i: nat | OwnerAt(c, es, d, i) && i < n ensures OwnerAt(c, front, d, i) {
    }
    forall j: nat, i: nat | RepeatsAt(es, j, i, d) && i < n ensures RepeatsAt(front, j, i, d) {
    }
  }

  /** The default is dropped by the entry at the end of `es` when that entry's provider exists and owns it. */
  lemma DropsAtEnd(c: Config, es: seq<Entry>, source: Source, d: string)
    requires es != [] && !Lost(c, es[..|es| - 1], d)
    ensures var was, e := Refreshes(c, es[..|es| - 1], source), es[|es| - 1];
      e.id in was.providers && Owns(Models(was), d, e.id) <==> Lost(c, es, d)
  {
    hide KeysOf, Models, Refreshes, FateOf, Ids, AliasAt, Lost;
    var n := |es| - 1;
    var front, e := es[..n], es[n];
    var was := Refreshes(c, front, source);
    assert forall i: nat | i < n :: Claims(front, i, d) <==> Claims(es, i, d);
    LostNow(c, es, d);
    ModelAfter(c, front, source, d);
    ProviderAfter(c, front, source, e.id);
    FirstHas(front, e.id);
    OwnsAt(Models(was), d, e.id);
    OwnsAt(Models(c), d, e.id);
    if NothingWrites(front, n, d) {
      UnclaimedIsUntouched(front, d);
      NotYetOwner(c, front, d);
    } else {
      SomeLastWriter(front, d);
      var j: nat :| LastWriter(front, j, d);
      FateOfLast(front, j, d);
      AliasAtIsOwn(front[j], d);
      WriterRepeats(c, es, d, j);
    }
  }

  /** No entry writes the key: its owner, if it has been refreshed, was no known provider. */
  lemma NotYetOwner(c: Config, es: seq<Entry>, d: string)
    requires NothingWrites(es, |es|, d) && !Lost(c, es, d)
    ensures forall p | Owns(Models(c), d, p) && p in Ids(es) :: p !in c.providers
  {
    hide KeysOf, Models;
    forall p | Owns(Models(c), d, p) && p in Ids(es) ensures p !in c.providers {
      FirstHas(es, p);
      var i: nat :| i < |es| && es[i].id == p;
      assert !OwnerAt(c, es, d, i);
    }
  }

  lemma WriterRepeats(c: Config, es: seq<Entry>, d: string, j: nat)
    requires es != [] && LastWriter(es[..|es| - 1], j, d) && !Lost(c, es[..|es| - 1], d)
    ensures var n := |es| - 1;
      && IsLast(es[..n], j) && !OwnerAt(c, es, d, n)
      && ((exists i: nat :: RepeatsAt(es, i, n, d)) <==> es[j].id == es[n].id)
  {
    hide KeysOf, Models;
    var n := |es| - 1;
    var front := es[..n];
    assert forall i: nat | i < n :: Claims(front, i, d) <==> Claims(es, i, d);
    if !IsLast(front, j) {
      NotLastRepeats(front, j, d);
    }
    assert Claims(es, j, d) && j < n;
    if es[j].id == es[n].id {
      assert RepeatsAt(es, j, n, d);
    }
    forall i: nat | RepeatsAt(es, i, n, d) ensures i == j {
    }
  }

  /** The default model after an import of these entries, for every config and all entries. */
  lemma {:induction false} DefaultAfter(c: Config, es: seq<Entry>, source: Source, d: string)
    requires c.defaultModel == Some(d)
    ensures Refreshes(c, es, source).defaultModel == if Lost(c, es, d) then None else Some(d)
  {
    hide Refreshed, Models, Owns, Lost;
    if es == [] {
      NothingLost(c, d);
    } else {
      var front, e := es[..|es| - 1], es[|es| - 1];
      DefaultAfter(c, front, source, d);
      DefaultsRefreshed(Refreshes(c, front, source), e, source);
      if Lost(c, front, d) {
        LostMore(c, es, d);
      } else {
        DropsAtEnd(c, es, source, d);
      }
    }
  }

  lemma NothingLost(c: Config, d: string)
    ensures !Lost(c, [], d)
  {
  }

  lemma {:induction false} NoDefaultStays(c: Config, es: seq<Entry>, source: Source)
    requires c.defaultModel.None?
    ensures Refreshes(c, es, source).defaultModel.None?
  {
    hide Refreshed, Models, Owns;
    if es != [] {
      NoDefaultStays(c, es[..|es| - 1], source);
      DefaultsRefreshed(Refreshes(c, es[..|es| - 1], source), es[|es| - 1], source);
    }
  }

  // ---------- one import and the default provider ----------

  /** Two entries have the id `p`. */
  ghost predicate Repeated(es: seq<Entry>, p: string) {
    exists i: nat, j: nat :: i < j < |es| && es[i].id == p && es[j].id == p
  }

  ghost predicate ProviderLost(c: Config, es: seq<Entry>, p: string) {
    (p in c.providers && p in Ids(es)) || Repeated(es, p)
  }

  lemma RepeatedSnoc(es: seq<Entry>, p: string)
    requires es != []
    ensures Repeated(es, p) <==> Repeated(es[..|es| - 1], p) || (p in Ids(es[..|es| - 1]) && es[|es| - 1].id == p)
  {
    var n := |es| - 1;
    var front := es[..n];
    FirstHas(front, p);
    if Repeated(es, p) && es[n].id != p {
      var i: nat, j: nat :| i < j < |es| && es[i].id == p && es[j].id == p;
      assert front[i].id == p && front[j].id == p;
    }
    if Repeated(es, p) && es[n].id == p {
      var i: nat, j: nat :| i < j < |es| && es[i].id == p && es[j].id == p;
      assert front[i].id == p;
    }
    if Repeated(front, p) {
      var i: nat, j: nat :| i < j < |front| && front[i].id == p && front[j].id == p;
      assert es[i].id == p && es[j].id == p;
    }
    if p in Ids(front) && es[n].id == p {
      var i: nat :| i < |front| && front[i].id == p;
      assert es[i].id == p && es[n].id == p;
    }
  }

  /** The default provider after an import of these entries. */
  lemma {:induction false} DefaultProviderAfter(c: Config, es: seq<Entry>, source: Source)
    ensures Refreshes(c, es, source).defaultProvider ==
      if c.defaultProvider.Some? && ProviderLost(c, es, c.defaultProvider.value) then None else c.defaultProvider
  {
    hide Refreshed, Ids, Models, Owns, Repeated;
    if es == [] {
      NoIds();
      assert forall p :: !Repeated(es, p) by {
        NoneRepeated();
      }
    } else {
      var front, e := es[..|es| - 1], es[|es| - 1];
      DefaultProviderAfter(c, front, source);
      IdsSnoc(es);
      RepeatedSnoc(es, e.id);
      if c.defaultProvider.Some? {
        RepeatedSnoc(es, c.defaultProvider.value);
      }
      DefaultsRefreshed(Refreshes(c, front, source), e, source);
      ProviderAfter(c, front, source, e.id);
    }
  }

  lemma NoneRepeated()
    ensures forall p :: !Repeated([], p)
  {
  }

  // ---------- the second import ----------

  /** For every config a second import of the same registry changes neither providers nor aliases. */
  lemma SecondImport(c: Config, es: seq<Entry>, source: Source)
    ensures var t := Import(c, es, source);
      var u := Import(t, es, source);
      && u == Refreshes(t, es, source) && u.providers == t.providers && u.models == t.models
      && forall p | p in Ids(es) :: p in t.providers
  {
    hide Refreshes, Stale, Ids, Models, WithoutStale;
    var base := WithoutStale(c, Stale(c, es, source));
    var t := Import(c, es, source);
    NothingIsStale(c, es, source);
    WithoutNone(t);
    SameProviders(t, base, es, source);
    SameModels(t, base, es, source);
    forall p | p in Ids(es) ensures p in t.providers {
      ProviderAfter(base, es, source, p);
    }
  }

  /** The default model survives a first import: it is no alias of a stale provider and is not lost on the way. */
  ghost predicate SurvivesOnce(c: Config, es: seq<Entry>, source: Source, d: string) {
    c.defaultModel == Some(d) && !OwnedBy(At(Models(c), d), Stale(c, es, source)) && !Lost(c, es, d)
  }

  /** Some entry writes `d`, and one with the last writer's id comes before any other writer. */
  ghost predicate WritesAgainAt(es: seq<Entry>, d: string, j: nat, n: nat) {
    j < |es| && n < |es| && LastWriter(es, j, d) && es[n].id == es[j].id && NothingWrites(es, n, d)
  }

  ghost predicate WritesAgain(es: seq<Entry>, d: string) {
    exists j: nat, n: nat :: WritesAgainAt(es, d, j, n)
  }

  /** The default provider is listed once and is not there yet. */
  ghost predicate ProviderIsNew(c: Config, es: seq<Entry>, p: string) {
    p in Ids(es) && p !in c.providers && !Repeated(es, p)
  }

  /** Removing the stale providers affects no entry's provider and no alias of one. */
  lemma BaseLosesSame(c: Config, es: seq<Entry>, source: Source, d: string)
    ensures Lost(WithoutStale(c, Stale(c, es, source)), es, d) <==> Lost(c, es, d)
  {
    hide KeysOf, Models, WithoutStale, LostToRepeat, NothingWrites;
    var stale := Stale(c, es, source);
    var base := WithoutStale(c, stale);
    forall n: nat ensures OwnerAt(base, es, d, n) <==> OwnerAt(c, es, d, n) {
      if n < |es| {
        var p := es[n].id;
        assert p in Ids(es);
        WithoutStaleAt(c, stale, p);
        WithoutStaleAt(c, stale, d);
        assert p in base.providers <==> p in c.providers;
        OwnsAt(Models(c), d, p);
        OwnsAt(Models(base), d, p);
      }
    }
  }

  lemma FirstDefault(c: Config, es: seq<Entry>, source: Source, d: string)
    ensures Import(c, es, source).defaultModel == Some(d) <==> SurvivesOnce(c, es, source, d)
    ensures SurvivesOnce(c, es, source, d) ==> c.defaultModel == Some(d)
  {
    hide Refreshes, WithoutStale, Stale, Models, Lost;
    var stale := Stale(c, es, source);
    var base := WithoutStale(c, stale);
    WithoutStaleDefaults(c, stale);
    BaseLosesSame(c, es, source, d);
    if base.defaultModel.Some? {
      DefaultAfter(base, es, source, base.defaultModel.value);
    } else {
      NoDefaultStays(base, es, source);
    }
  }

  lemma WithoutStaleDefaults(c: Config, stale: set<string>)
    ensures var r := WithoutStale(c, stale);
      && r.defaultModel == (if c.defaultModel.Some? && OwnedBy(At(Models(c), c.defaultModel.value), stale) then None
                            else c.defaultModel)
      && r.defaultProvider == (if c.defaultProvider.Some? && c.defaultProvider.value in stale then None
                               else c.defaultProvider)
  {
  }

  /** After an import whose default survived, a second one loses it exactly if the entries write its key again. */
  lemma SecondDefault(c: Config, es: seq<Entry>, source: Source, d: string)
    requires SurvivesOnce(c, es, source, d)
    ensures var t := Import(c, es, source);
      Lost(t, es, d) <==> WritesAgain(es, d)
  {
    hide Import, Stale, Models, At, Ids, OwnerAt, LostToRepeat, WritesAgainAt;
    var t := Import(c, es, source);
    if LostToOwner(t, es, d) {
      var n: nat :| OwnerAt(t, es, d, n);
      OwnerAfterImport(c, es, source, d, n);
    }
    if WritesAgain(es, d) {
      var j: nat, n: nat :| WritesAgainAt(es, d, j, n);
      OwnerAfterImport(c, es, source, d, n);
    }
  }

  lemma OwnerAfterImport(c: Config, es: seq<Entry>, source: Source, d: string, n: nat)
    requires !LostToRepeat(es, d)
    ensures OwnerAt(Import(c, es, source), es, d, n) <==> exists j: nat :: WritesAgainAt(es, d, j, n)
  {
    hide Refreshes, WithoutStale, Stale, Models, KeysOf, Ids, FateOf, AliasAt, NothingWrites, LastWriter, At, LostToRepeat, After;
    var base := WithoutStale(c, Stale(c, es, source));
    var t := Import(c, es, source);
    SecondImport(c, es, source);
    ModelAfter(base, es, source, d);
    if n < |es| {
      var p := es[n].id;
      FirstHas(es, p);
      OwnsAt(Models(t), d, p);
      OwnerOfWritten(es, d, n, At(Models(base), d));
      assert Owns(Models(t), d, p) <==> OwnedBy(After(es, At(Models(base), d), d), {p});
      if Owns(Models(t), d, p) && NothingWrites(es, n, d) {
        var j: nat :| j < |es| && LastWriter(es, j, d) && es[j].id == p;
        assert WritesAgainAt(es, d, j, n);
      }
    }
  }

  /** The key is owned by the id of the entry at `n` exactly if the last writer has that id. */
  lemma OwnerOfWritten(es: seq<Entry>, d: string, n: nat, was: Option<Alias>)
    requires n < |es| && !LostToRepeat(es, d)
    ensures OwnedBy(After(es, was, d), {es[n].id}) <==> exists j: nat :: j < |es| && LastWriter(es, j, d) && es[j].id == es[n].id
  {
    hide KeysOf, FateOf, AliasAt, LostToRepeat;
    FirstHas(es, es[n].id);
    if NothingWrites(es, |es|, d) {
      assert forall i: nat :: !Claims(es, i, d);
      UnclaimedIsUntouched(es, d);
    } else {
      SomeLastWriter(es, d);
      var j: nat :| LastWriter(es, j, d);
      FateOfLast(es, j, d);
      if !IsLast(es, j) {
        NotLastRepeats(es, j, d);
      }
      AliasAtIsOwn(es[j], d);
    }
  }

  lemma SecondProvider(c: Config, es: seq<Entry>, source: Source)
    ensures var t := Import(c, es, source);
      var u := Import(t, es, source);
      u.defaultProvider == t.defaultProvider <==>
        !(c.defaultProvider.Some? && ProviderIsNew(c, es, c.defaultProvider.value))
  {
    hide Refreshes, WithoutStale, Models, Ids, Repeated;
    var stale := Stale(c, es, source);
    var base := WithoutStale(c, stale);
    var t := Import(c, es, source);
    SecondImport(c, es, source);
    WithoutStaleDefaults(c, stale);
    DefaultProviderAfter(base, es, source);
    DefaultProviderAfter(t, es, source);
    if c.defaultProvider.Some? {
      var p := c.defaultProvider.value;
      WithoutStaleAt(c, stale, p);
      if p !in stale {
        assert p in base.providers <==> p in c.providers;
      }
    }
  }

  /**
    Importing twice is importing once, for every config and all entries, exactly when the default model does not
    survive the first import only to be written again, and the default provider is not a listed one that is new.
   */
  lemma IdempotentIff(c: Config, es: seq<Entry>, source: Source)
    ensures var t := Import(c, es, source);
      Import(t, es, source) == t <==>
        && !(c.defaultModel.Some? && SurvivesOnce(c, es, source, c.defaultModel.value)
             && WritesAgain(es, c.defaultModel.value))
        && !(c.defaultProvider.Some? && ProviderIsNew(c, es, c.defaultProvider.value))
  {
    hide Refreshes, Import, SurvivesOnce, WritesAgain, ProviderIsNew, Lost, Ids;
    var t := Import(c, es, source);
    SecondImport(c, es, source);
    SecondProvider(c, es, source);
    if t.defaultModel.Some? {
      var d := t.defaultModel.value;
      FirstDefault(c, es, source, d);
      SecondDefault(c, es, source, d);
      DefaultAfter(t, es, source, d);
    } else {
      NoDefaultStays(t, es, source);
      if c.defaultModel.Some? {
        FirstDefault(c, es, source, c.defaultModel.value);
      }
    }
  }

  /** An alias whose key carries its own slash-free provider as prefix. */
  ghost predicate HasOwnKey(k: string, a: Alias) {
    a.Alias? && SlashFree(a.provider) && exists m :: k == AliasKey(a.provider, m)
  }

  ghost predicate KeysAreOwn(c: Config) {
    forall k | k in Models(c) :: HasOwnKey(k, Models(c)[k])
  }

  /** Where alias keys carry their own provider and references hold, importing twice is importing once. */
  lemma ImportIsIdempotent(c: Config, es: seq<Entry>, source: Source)
    requires RefersWell(c) && KeysAreOwn(c) && forall e | e in es :: SlashFree(e.id)
    ensures var t := Import(c, es, source);
      Import(t, es, source) == t
  {
    hide Import, SlashFree, HasOwnKey, Stale, KeysOf, Models, LostToRepeat, Ids;
    IdempotentIff(c, es, source);
    if c.defaultModel.Some? && WritesAgain(es, c.defaultModel.value) {
      var d := c.defaultModel.value;
      var j: nat, n: nat :| WritesAgainAt(es, d, j, n);
      ClaimedByOwn(es, j, d, Models(c)[d]);
      assert OwnerAt(c, es, d, n);
    }
  }

  lemma ClaimedByOwn(es: seq<Entry>, i: nat, d: string, a: Alias)
    requires Claims(es, i, d) && HasOwnKey(d, a) && SlashFree(es[i].id)
    ensures a.Alias? && es[i].id == a.provider
  {
    hide SlashFree, AliasKey;
    var m :| d == AliasKey(a.provider, m);
    var x :| x in es[i].models && d == AliasKey(es[i].id, x);
    SamePrefix(a.provider, m, es[i].id, x);
  }

  /** References alone are not enough: a default on an alias that is no record survives one import but not two. */
  lemma ImportCanCostTheDefault(source: Source)
    ensures var c := Config(map[], Some(map["p/m" := OtherAlias("")]), Some("p/m"), None);
      var es := [Entry("p", "api", "openai", map["m" := SomeModel])];
      var t := Import(c, es, source);
      RefersWell(c) && Import(t, es, source) != t
  {
    hide Import, Stale, KeysOf;
    var c := Config(map[], Some(map["p/m" := OtherAlias("")]), Some("p/m"), None);
    var e := Entry("p", "api", "openai", map["m" := SomeModel]);
    var es := [e];
    SlashKey(e, "m");
    assert "p" + "/" + "m" == "p/m";
    assert Claims(es, 0, "p/m") && LastWriter(es, 0, "p/m");
    assert WritesAgainAt(es, "p/m", 0, 0);
    IdempotentIff(c, es, source);
  }

  lemma SlashKey(e: Entry, m: string)
    requires m in e.models
    ensures e.id + "/" + m in KeysOf(e)
  {
  }
}
