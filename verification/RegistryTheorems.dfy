/** What an import leaves behind, and what importing again changes. */
module RegistryTheorems {
  import opened Wrappers
  import opened CustomRegistry

  function At<V>(m: map<string, V>, k: string): Option<V> {
    if k in m then Some(m[k]) else None
  }

  /** What the entries do to one alias key. */
  datatype Fate = Untouched | Dropped | InstalledBy(entry: Entry)

  function FateOf(es: seq<Entry>, k: string): Fate {
    if es == [] then Untouched
    else
      var f, e := FateOf(es[..|es| - 1], k), es[|es| - 1];
      if k in KeysOf(e) then InstalledBy(e)
      else if f.InstalledBy? && f.entry.id == e.id then Dropped
      else f
  }

  predicate Claims(es: seq<Entry>, i: nat, k: string) {
    i < |es| && k in KeysOf(es[i])
  }

  predicate IsLast(es: seq<Entry>, i: nat) {
    i < |es| && forall j | i < j < |es| :: es[j].id != es[i].id
  }

  /** Entries with different ids never write the same alias key. */
  predicate Apart(es: seq<Entry>) {
    forall i: nat, j: nat | i < |es| && j < |es| && es[i].id != es[j].id :: KeysOf(es[i]) !! KeysOf(es[j])
  }

  predicate SlashFree(s: string) {
    '/' !in s
  }

  lemma {:induction false} SamePrefix(a: string, x: string, b: string, y: string)
    requires SlashFree(a) && SlashFree(b) && AliasKey(a, x) == AliasKey(b, y)
    ensures a == b
  {
    var k := AliasKey(a, x);
    assert k[|a|] == '/' && k[|b|] == '/';
    assert k[..|a|] == a && k[..|b|] == b;
    assert forall i | 0 <= i < |a| :: k[i] == a[i];
    assert forall i | 0 <= i < |b| :: k[i] == b[i];
  }

  lemma SlashFreeIdsAreApart(es: seq<Entry>)
    requires forall e | e in es :: SlashFree(e.id)
    ensures Apart(es)
  {
    hide AliasKey, SlashFree;
    forall i: nat, j: nat, k | i < |es| && j < |es| && k in KeysOf(es[i]) && k in KeysOf(es[j])
      ensures es[i].id == es[j].id
    {
      var x :| x in es[i].models && k == AliasKey(es[i].id, x);
      var y :| y in es[j].models && k == AliasKey(es[j].id, y);
      SamePrefix(es[i].id, x, es[j].id, y);
    }
  }

  // One entry, key by key.

  lemma ModelRefreshed(c: Config, e: Entry, source: Source, k: string)
    ensures At(Models(Refreshed(c, e, source)), k) ==
      if k in KeysOf(e) then Some(AliasAt(e, k))
      else if Owns(Models(c), k, e.id) then None
      else At(Models(c), k)
  {
  }

  lemma ProviderRefreshed(c: Config, e: Entry, source: Source, p: string)
    ensures At(Refreshed(c, e, source).providers, p) ==
      if p == e.id then Some(ProviderOf(e, source)) else At(c.providers, p)
  {
  }

  lemma DefaultsRefreshed(c: Config, e: Entry, source: Source)
    ensures var r := Refreshed(c, e, source);
      && r.models.Some?
      && r.defaultModel == (if e.id in c.providers && c.defaultModel.Some? && Owns(Models(c), c.defaultModel.value, e.id)
                            then None else c.defaultModel)
      && r.defaultProvider == (if e.id in c.providers && c.defaultProvider == Some(e.id) then None else c.defaultProvider)
  {
  }

  lemma OwnsAt(m: map<string, Alias>, k: string, id: string)
    ensures Owns(m, k, id) <==> At(m, k).Some? && At(m, k).value.Alias? && At(m, k).value.provider == id
  {
  }

  lemma IdsSnoc(es: seq<Entry>)
    requires es != []
    ensures Ids(es) == Ids(es[..|es| - 1]) + {es[|es| - 1].id}
  {
  }

  predicate OwnedBy(alias: Option<Alias>, ids: set<string>) {
    alias.Some? && alias.value.Alias? && alias.value.provider in ids
  }

  /** The alias under `k` once every entry has been applied. */
  function After(es: seq<Entry>, was: Option<Alias>, k: string): Option<Alias> {
    match FateOf(es, k)
    case InstalledBy(e) => if k in KeysOf(e) then Some(AliasAt(e, k)) else None
    case Dropped => None
    case Untouched => if OwnedBy(was, Ids(es)) then None else was
  }

  lemma {:induction false} InstallerClaims(es: seq<Entry>, k: string)
    requires FateOf(es, k).InstalledBy?
    ensures exists i: nat :: Claims(es, i, k) && IsLast(es, i) && es[i] == FateOf(es, k).entry
  {
    hide KeysOf;
    var n := |es| - 1;
    var front, e := es[..n], es[n];
    if k in KeysOf(e) {
      assert Claims(es, n, k) && IsLast(es, n);
    } else {
      InstallerClaims(front, k);
      var i: nat :| Claims(front, i, k) && IsLast(front, i) && front[i] == FateOf(front, k).entry;
      assert Claims(es, i, k) && IsLast(es, i) && es[i] == front[i];
    }
  }

  lemma AfterMore(es: seq<Entry>, was: Option<Alias>, k: string)
    requires es != []
    ensures var front, e := es[..|es| - 1], es[|es| - 1];
      var before := After(front, was, k);
      After(es, was, k) ==
        if k in KeysOf(e) then Some(AliasAt(e, k))
        else if before.Some? && before.value.Alias? && before.value.provider == e.id then None
        else before
  {
  }

  lemma {:induction false} ModelAfter(c: Config, es: seq<Entry>, source: Source, k: string)
    ensures At(Models(Refreshes(c, es, source)), k) == After(es, At(Models(c), k), k)
  {
    hide Refreshed, KeysOf, AliasAt, Models, After, At, Owns;
    if es == [] {
      AfterNothing(At(Models(c), k), k);
    } else {
      var front, e := es[..|es| - 1], es[|es| - 1];
      var was := Refreshes(c, front, source);
      ModelAfter(c, front, source, k);
      ModelRefreshed(was, e, source, k);
      OwnsAt(Models(was), k, e.id);
      AfterMore(es, At(Models(c), k), k);
    }
  }

  lemma AfterNothing(was: Option<Alias>, k: string)
    ensures After([], was, k) == was
  {
  }

  lemma {:induction false} ProviderAfter(c: Config, es: seq<Entry>, source: Source, p: string)
    ensures p !in Ids(es) ==> At(Refreshes(c, es, source).providers, p) == At(c.providers, p)
    ensures forall i: nat | IsLast(es, i) && es[i].id == p ::
      At(Refreshes(c, es, source).providers, p) == Some(ProviderOf(es[i], source))
    ensures p in Ids(es) ==> p in Refreshes(c, es, source).providers
  {
    hide Refreshed, Ids, ProviderOf;
    if es != [] {
      var n := |es| - 1;
      var front, e := es[..n], es[n];
      ProviderAfter(c, front, source, p);
      ProviderRefreshed(Refreshes(c, front, source), e, source, p);
      IdsSnoc(es);
      forall i: nat | IsLast(es, i) && es[i].id == p
        ensures At(Refreshes(c, es, source).providers, p) == Some(ProviderOf(es[i], source))
      {
        if i < n {
          assert front[i] == es[i] && IsLast(front, i);
        }
      }
    } else {
      NoIds();
    }
  }

  lemma NoIds()
    ensures Ids([]) == {}
  {
  }

  lemma WithoutStaleAt(c: Config, stale: set<string>, k: string)
    ensures var r := WithoutStale(c, stale);
      && At(r.providers, k) == (if k in stale then None else At(c.providers, k))
      && At(Models(r), k) == (if OwnedBy(At(Models(c), k), stale) then None else At(Models(c), k))
  {
  }

  // What an import leaves behind.

  lemma {:induction false} LastInstalls(es: seq<Entry>, i: nat, k: string)
    requires Apart(es) && IsLast(es, i) && k in KeysOf(es[i])
    ensures FateOf(es, k) == InstalledBy(es[i])
  {
    hide KeysOf;
    var n := |es| - 1;
    var front, e := es[..n], es[n];
    if i < n {
      assert front[i] == es[i] && IsLast(front, i);
      assert Apart(front);
      LastInstalls(front, i, k);
      assert es[n].id != es[i].id;
      assert k !in KeysOf(es[n]);
    }
  }

  predicate ProviderFits(p: Provider, e: Entry, source: Source) {
    && p.ApiJsonProvider? && p.wire == e.wire && p.baseUrl == e.api && p.apiKey == source.apiKey
    && p.source.url == source.url && p.source.apiKey == source.apiKey
  }

  /** The names whose condition holds, in the order of the table. */
  function Selected(table: seq<(string, bool)>): seq<string> {
    if table == [] then [] else (if table[0].1 then [table[0].0] else []) + Selected(table[1..])
  }

  /** The capabilities that the model's hints name; without any hint there is tool use. */
  predicate CapabilitiesFit(caps: seq<string>, m: ModelEntry) {
    if m.toolCall.None? && m.reasoning.None? && m.modalities.None? then caps == ["tool_use"]
    else caps == Selected([("tool_use", m.toolCall == Some(true)), ("thinking", m.reasoning == Some(true)),
                           ("image_in", Accepts(m, "image")), ("video_in", Accepts(m, "video")),
                           ("image_out", Produces(m, "image")), ("audio_out", Produces(m, "audio"))])
  }

  predicate Accepts(m: ModelEntry, medium: string) {
    m.modalities.Some? && m.modalities.value.input.Some? && medium in m.modalities.value.input.value
  }

  predicate Produces(m: ModelEntry, medium: string) {
    m.modalities.Some? && m.modalities.value.output.Some? && medium in m.modalities.value.output.value
  }

  predicate AliasFits(a: Alias, e: Entry, m: ModelEntry) {
    && a.Alias? && a.provider == e.id && a.model == m.id && CapabilitiesFit(a.capabilities, m)
    && a.displayName == (if m.name.Some? && m.name.value != "" then m.name.value else m.id)
    && (m.context.Some? && m.context.value > 0 ==> a.maxContextSize == m.context.value)
    && (!(m.context.Some? && m.context.value > 0) ==>
          a.maxContextSize == if m.output.Some? && m.output.value > 0 then m.output.value else 131072)
  }

  lemma SelectedCons(name: string, chosen: bool, rest: seq<(string, bool)>)
    ensures Selected([(name, chosen)] + rest) == (if chosen then [name] else []) + Selected(rest)
  {
    assert ([(name, chosen)] + rest)[1..] == rest;
  }

  lemma JoinSix<T>(a: seq<T>, b: seq<T>, c: seq<T>, d: seq<T>, e: seq<T>, f: seq<T>)
    ensures a + (b + (c + (d + (e + (f + []))))) == a + b + c + d + e + f
  {
  }

  lemma CapabilitiesAreRight(m: ModelEntry)
    ensures CapabilitiesFit(ResolveCapabilities(m), m)
  {
    hide Selected;
    var t6 := [("audio_out", Produces(m, "audio"))] + [];
    var t5 := [("image_out", Produces(m, "image"))] + t6;
    var t4 := [("video_in", Accepts(m, "video"))] + t5;
    var t3 := [("image_in", Accepts(m, "image"))] + t4;
    var t2 := [("thinking", m.reasoning == Some(true))] + t3;
    SelectedCons("tool_use", m.toolCall == Some(true), t2);
    SelectedCons("thinking", m.reasoning == Some(true), t3);
    SelectedCons("image_in", Accepts(m, "image"), t4);
    SelectedCons("video_in", Accepts(m, "video"), t5);
    SelectedCons("image_out", Produces(m, "image"), t6);
    SelectedCons("audio_out", Produces(m, "audio"), []);
    NoneSelected();
    JoinSix(if m.toolCall == Some(true) then ["tool_use"] else [], if m.reasoning == Some(true) then ["thinking"] else [],
            if Accepts(m, "image") then ["image_in"] else [], if Accepts(m, "video") then ["video_in"] else [],
            if Produces(m, "image") then ["image_out"] else [], if Produces(m, "audio") then ["audio_out"] else []);
    assert [("tool_use", m.toolCall == Some(true))] + t2
        == [("tool_use", m.toolCall == Some(true)), ("thinking", m.reasoning == Some(true)),
            ("image_in", Accepts(m, "image")), ("video_in", Accepts(m, "video")),
            ("image_out", Produces(m, "image")), ("audio_out", Produces(m, "audio"))];
  }

  lemma NoneSelected()
    ensures Selected([]) == []
  {
  }

  lemma WrittenFits(e: Entry, m: ModelEntry, source: Source)
    ensures AliasFits(ToAlias(e.id, m), e, m) && ProviderFits(ProviderOf(e, source), e, source)
  {
    hide CapabilitiesFit, ResolveCapabilities;
    CapabilitiesAreRight(m);
  }

  lemma ImportedAt(c: Config, es: seq<Entry>, source: Source, i: nat)
    requires Apart(es) && IsLast(es, i)
    ensures var t, e := Import(c, es, source), es[i];
      && At(t.providers, e.id) == Some(ProviderOf(e, source))
      && (forall m | m in e.models :: At(Models(t), AliasKey(e.id, m)) == Some(ToAlias(e.id, e.models[m])))
      && (forall k | Owns(Models(t), k, e.id) :: k in KeysOf(e))
  {
    hide AliasKey, ToAlias, Stale, WithoutStale, Refreshes, Models, FateOf, At, Owns, ProviderOf;
    var t, e := Import(c, es, source), es[i];
    var base := WithoutStale(c, Stale(c, es, source));
    ProviderAfter(base, es, source, e.id);
    forall m | m in e.models ensures At(Models(t), AliasKey(e.id, m)) == Some(ToAlias(e.id, e.models[m])) {
      var k := AliasKey(e.id, m);
      KeyRest(e.id, m);
      LastInstalls(es, i, k);
      ModelAfter(base, es, source, k);
    }
    forall k | Owns(Models(t), k, e.id) ensures k in KeysOf(e) {
      OwnedKeyIsInstalled(base, es, source, i, k);
    }
  }

  /** The last entry of an id gets its provider record and exactly its own models. */
  lemma ImportedExactly(c: Config, es: seq<Entry>, source: Source, i: nat)
    requires Apart(es) && IsLast(es, i)
    ensures var t, e := Import(c, es, source), es[i];
      && e.id in t.providers && ProviderFits(t.providers[e.id], e, source)
      && (forall m | m in e.models ::
            AliasKey(e.id, m) == e.id + "/" + m
            && AliasKey(e.id, m) in Models(t) && AliasFits(Models(t)[AliasKey(e.id, m)], e, e.models[m]))
      && (forall k | Owns(Models(t), k, e.id) :: exists m | m in e.models :: k == AliasKey(e.id, m))
  {
    hide Import, Models, ToAlias, ProviderOf, AliasFits, ProviderFits, Owns;
    var e := es[i];
    ImportedAt(c, es, source, i);
    WrittenFits(e, SomeModel, source);
    forall m | m in e.models ensures AliasFits(ToAlias(e.id, e.models[m]), e, e.models[m]) {
      WrittenFits(e, e.models[m], source);
    }
  }

  const SomeModel := ModelEntry("m", None, None, None, None, None, None)

  lemma OwnedKeyIsInstalled(c: Config, es: seq<Entry>, source: Source, i: nat, k: string)
    requires IsLast(es, i) && Owns(Models(Refreshes(c, es, source)), k, es[i].id)
    ensures k in KeysOf(es[i])
  {
    hide KeysOf, Refreshes, Models, FateOf, AliasAt;
    ModelAfter(c, es, source, k);
    assert es[i].id in Ids(es);
    if FateOf(es, k).InstalledBy? {
      InstallerClaims(es, k);
      var j: nat :| Claims(es, j, k) && IsLast(es, j) && es[j] == FateOf(es, k).entry;
      AliasAtIsOwn(es[j], k);
      assert i == j;
    }
  }

  lemma {:induction false} UnclaimedIsUntouched(es: seq<Entry>, k: string)
    requires forall i: nat :: !Claims(es, i, k)
    ensures FateOf(es, k) == Untouched
  {
    hide KeysOf;
    if es != [] {
      var front := es[..|es| - 1];
      forall i: nat ensures !Claims(front, i, k) {
        if i < |front| {
          assert !Claims(es, i, k);
        }
      }
      UnclaimedIsUntouched(front, k);
      assert !Claims(es, |es| - 1, k);
    }
  }

  /** The provider was put there from this URL, whatever the key was then. */
  predicate PutThere(p: Provider, url: string) {
    p.ApiJsonProvider? && p.source.url == url
  }

  predicate IsGone(c: Config, es: seq<Entry>, source: Source, p: string) {
    p in c.providers && p !in Ids(es) && PutThere(c.providers[p], source.url)
  }

  /** Everything else stays, except the stale providers and the aliases of the providers removed or rewritten. */
  lemma OthersAreKept(c: Config, es: seq<Entry>, source: Source, p: string, k: string)
    requires p !in Ids(es) && forall i: nat :: !Claims(es, i, k)
    ensures var t, was := Import(c, es, source), At(Models(c), k);
      && (p in t.providers <==> p in c.providers && !PutThere(c.providers[p], source.url))
      && (p in t.providers ==> t.providers[p] == c.providers[p])
      && At(Models(t), k) ==
           if was.Some? && was.value.Alias? && (was.value.provider in Ids(es) || IsGone(c, es, source, was.value.provider))
           then None else was
  {
    hide AliasKey, ToAlias, WithoutStale, Refreshes, Models, FateOf, Ids, Claims;
    var stale := Stale(c, es, source);
    var base := WithoutStale(c, stale);
    WithoutStaleAt(c, stale, p);
    WithoutStaleAt(c, stale, k);
    ProviderAfter(base, es, source, p);
    UnclaimedIsUntouched(es, k);
    ModelAfter(base, es, source, k);
  }

  /** Every alias has its provider, and the defaults point at something. */
  ghost predicate RefersWell(c: Config) {
    && (forall k | k in Models(c) && Models(c)[k].Alias? :: Models(c)[k].provider in c.providers)
    && (c.defaultModel.Some? ==> c.defaultModel.value in Models(c))
    && (c.defaultProvider.Some? ==> c.defaultProvider.value in c.providers)
  }

  lemma WithoutRefersWell(c: Config, stale: set<string>)
    requires RefersWell(c)
    ensures RefersWell(WithoutStale(c, stale))
  {
  }

  lemma RefreshedRefersWell(c: Config, e: Entry, source: Source)
    requires RefersWell(c)
    ensures RefersWell(Refreshed(c, e, source))
  {
  }

  lemma AliasAtIsOwn(e: Entry, k: string)
    ensures k in KeysOf(e) ==> AliasAt(e, k).Alias? && AliasAt(e, k).provider == e.id
  {
  }

  lemma {:induction false} RefreshesReferWell(c: Config, es: seq<Entry>, source: Source)
    requires RefersWell(c)
    ensures RefersWell(Refreshes(c, es, source))
  {
    hide Refreshed, RefersWell;
    if es != [] {
      var front := es[..|es| - 1];
      RefreshesReferWell(c, front, source);
      RefreshedRefersWell(Refreshes(c, front, source), es[|es| - 1], source);
    }
  }

  /** An import leaves no alias without its provider and no default pointing nowhere. */
  lemma ImportRefersWell(c: Config, es: seq<Entry>, source: Source)
    requires RefersWell(c)
    ensures RefersWell(Import(c, es, source))
  {
    hide RefersWell, Refreshes, WithoutStale, Stale;
    WithoutRefersWell(c, Stale(c, es, source));
    RefreshesReferWell(WithoutStale(c, Stale(c, es, source)), es, source);
  }

  /** Applying one entry without removing its provider first can leave the default dangling: exactly here. */
  lemma ApplyAloneDanglesIff(c: Config, e: Entry, source: Source)
    requires c.defaultModel.Some? && c.defaultModel.value in Models(c)
    ensures var d, r := c.defaultModel.value, WithEntry(c, e, source);
      r.defaultModel == Some(d) && (d !in Models(r) <==> Owns(Models(c), d, e.id) && d !in KeysOf(e))
  {
  }

  /** Applying an entry without models to a config whose default is the provider's only alias. */
  lemma ApplyAloneDangles(source: Source)
    ensures var c := Config(map[], Some(map["p/m" := Alias("p", "m", 1, [], "m")]), Some("p/m"), None);
      var r := WithEntry(c, Entry("p", "api", "openai", map[]), source);
      r.defaultModel == Some("p/m") && Models(r) == map[]
  {
    var c := Config(map[], Some(map["p/m" := Alias("p", "m", 1, [], "m")]), Some("p/m"), None);
    ApplyAloneDanglesIff(c, Entry("p", "api", "openai", map[]), source);
  }

  lemma FirstHas(es: seq<Entry>, id: string)
    ensures id in Ids(es) <==> exists i: nat | i < |es| :: es[i].id == id
  {
  }

  /** Without slash-free ids an entry can overwrite another's alias. */
  lemma SlashesClash(m: ModelEntry)
    ensures var e, f := Entry("a", "api", "openai", map["b/c" := m]), Entry("a/b", "api", "openai", map["c" := m]);
      !Apart([e, f]) && FateOf([e, f], "a/b/c") == InstalledBy(f)
  {
    var e, f := Entry("a", "api", "openai", map["b/c" := m]), Entry("a/b", "api", "openai", map["c" := m]);
    assert "b/c" in e.models && AliasKey("a", "b/c") == "a/b/c";
    assert "c" in f.models && AliasKey("a/b", "c") == "a/b/c";
    assert "a/b/c" in KeysOf([e, f][0]) && "a/b/c" in KeysOf([e, f][1]);
  }
}
