/** Rewriting the managed config from a custom registry: packages/oauth/src/custom-registry.ts. */
module CustomRegistry {
  import opened Wrappers

  const DEFAULT_MAX_CONTEXT := 131072
  const DEFAULT_CAPABILITIES := ["tool_use"]

  /** Where an imported provider came from; its `kind` is always `apiJson`. */
  datatype Source = Source(url: string, apiKey: string)

  /** `OtherProvider` is any value that is no record or has no `source` record of kind `apiJson`. */
  datatype Provider = ApiJsonProvider(wire: string, baseUrl: string, apiKey: string, source: Source) | OtherProvider(raw: string)

  /** `OtherAlias` is any value that is no record or has no string as its `provider`. */
  datatype Alias =
    | Alias(provider: string, model: string, maxContextSize: int, capabilities: seq<string>, displayName: string)
    | OtherAlias(raw: string)

  datatype Modalities = Modalities(input: Option<seq<string>>, output: Option<seq<string>>)

  /** The limits are `None` when absent or not an integer. */
  datatype ModelEntry = ModelEntry(id: string, name: Option<string>, context: Option<int>, output: Option<int>,
                                   toolCall: Option<bool>, reasoning: Option<bool>, modalities: Option<Modalities>)

  datatype Entry = Entry(id: string, api: string, wire: string, models: map<string, ModelEntry>)

  datatype Config = Config(providers: map<string, Provider>, models: Option<map<string, Alias>>,
                           defaultModel: Option<string>, defaultProvider: Option<string>)

  function ResolveMaxContextSize(m: ModelEntry): int {
    if m.context.Some? && m.context.value > 0 then m.context.value
    else if m.output.Some? && m.output.value > 0 then m.output.value
    else DEFAULT_MAX_CONTEXT
  }

  function CapabilitiesFromEntry(m: ModelEntry): seq<string> {
    var input := if m.modalities.Some? && m.modalities.value.input.Some? then m.modalities.value.input.value else [];
    var output := if m.modalities.Some? && m.modalities.value.output.Some? then m.modalities.value.output.value else [];
    (if m.toolCall == Some(true) then ["tool_use"] else [])
    + (if m.reasoning == Some(true) then ["thinking"] else [])
    + (if "image" in input then ["image_in"] else [])
    + (if "video" in input then ["video_in"] else [])
    + (if "image" in output then ["image_out"] else [])
    + (if "audio" in output then ["audio_out"] else [])
  }

  function ResolveCapabilities(m: ModelEntry): seq<string> {
    if m.toolCall.Some? || m.reasoning.Some? || m.modalities.Some? then CapabilitiesFromEntry(m) else DEFAULT_CAPABILITIES
  }

  function ToAlias(providerKey: string, m: ModelEntry): Alias {
    Alias(providerKey, m.id, ResolveMaxContextSize(m), ResolveCapabilities(m),
          if m.name.Some? && m.name.value != "" then m.name.value else m.id)
  }

  function AliasKey(providerKey: string, modelKey: string): string {
    providerKey + "/" + modelKey
  }

  function KeysOf(e: Entry): set<string> {
    set m | m in e.models :: AliasKey(e.id, m)
  }

  /** The alias an entry installs under one of its keys. */
  function AliasAt(e: Entry, key: string): Alias
    requires key in KeysOf(e)
  {
    ToAlias(e.id, e.models[key[|e.id| + 1..]])
  }

  function AliasesOf(e: Entry): map<string, Alias> {
    map k | k in KeysOf(e) :: AliasAt(e, k)
  }

  function ProviderOf(e: Entry, source: Source): Provider {
    ApiJsonProvider(e.wire, e.api, source.apiKey, source)
  }

  function Models(c: Config): map<string, Alias> {
    if c.models.Some? then c.models.value else map[]
  }

  predicate Owns(models: map<string, Alias>, key: string, id: string) {
    key in models && models[key].Alias? && models[key].provider == id
  }

  /** The aliases of the given providers. */
  function Owned(models: map<string, Alias>, ids: set<string>): set<string> {
    set k | k in models && models[k].Alias? && models[k].provider in ids
  }

  function Without(c: Config, ids: set<string>): Config {
    Config(c.providers - ids, Some(Models(c) - Owned(Models(c), ids)),
           if c.defaultModel.Some? && c.defaultModel.value in Owned(Models(c), ids) then None else c.defaultModel,
           if c.defaultProvider.Some? && c.defaultProvider.value in ids then None else c.defaultProvider)
  }

  function WithEntry(c: Config, e: Entry, source: Source): Config {
    c.(providers := c.providers[e.id := ProviderOf(e, source)],
       models := Some(Models(c) - Owned(Models(c), {e.id}) + AliasesOf(e)))
  }

  function Refreshed(c: Config, e: Entry, source: Source): Config {
    WithEntry(if e.id in c.providers then Without(c, {e.id}) else c, e, source)
  }

  function Refreshes(c: Config, es: seq<Entry>, source: Source): Config {
    if es == [] then c else Refreshed(Refreshes(c, es[..|es| - 1], source), es[|es| - 1], source)
  }

  function Ids(es: seq<Entry>): set<string> {
    set i | 0 <= i < |es| :: es[i].id
  }

  /** The providers this registry put there before and lists no more. */
  function Stale(c: Config, es: seq<Entry>, source: Source): set<string> {
    set p | p in c.providers && p !in Ids(es) && c.providers[p].ApiJsonProvider? && c.providers[p].source.url == source.url
  }

  function WithoutStale(c: Config, stale: set<string>): Config {
    if stale == {} then c else Without(c, stale)
  }

  function Import(c: Config, es: seq<Entry>, source: Source): Config {
    Refreshes(WithoutStale(c, Stale(c, es, source)), es, source)
  }

  lemma KeyRest(id: string, m: string)
    ensures AliasKey(id, m)[|id| + 1..] == m
  {
  }

  lemma WithoutMore(c: Config, ids: set<string>, p: string)
    ensures Without(WithoutStale(c, ids), {p}) == WithoutStale(c, ids + {p})
  {
    hide AliasesOf;
    var once := WithoutStale(c, ids);
    if ids == {} {
      assert {p} == ids + {p};
    } else {
      var m := Models(c);
      assert Models(once) == m - Owned(m, ids);
      assert Owned(Models(once), {p}) == Owned(m, ids + {p}) - Owned(m, ids);
      assert Models(once) - Owned(Models(once), {p}) == m - Owned(m, ids + {p});
      assert c.providers - ids - {p} == c.providers - (ids + {p});
    }
  }

  /** The config object, rewritten in place. */
  class ManagedConfig {
    var providers: map<string, Provider>
    var models: Option<map<string, Alias>>
    var defaultModel: Option<string>
    var defaultProvider: Option<string>

    function State(): Config
      reads this
    {
      Config(providers, models, defaultModel, defaultProvider)
    }

    method DropAliases(existing: map<string, Alias>, id: string) returns (left: map<string, Alias>, removedDefault: bool)
      ensures left == existing - Owned(existing, {id})
      ensures removedDefault <==> defaultModel.Some? && Owns(existing, defaultModel.value, id)
    {
      left, removedDefault := existing, false;
      var unseen := existing.Keys;
      while unseen != {}
        invariant unseen <= existing.Keys
        invariant forall k | k in existing :: k in left <==> k in unseen || !Owns(existing, k, id)
        invariant forall k | k in left :: k in existing && left[k] == existing[k]
        invariant removedDefault <==>
          defaultModel.Some? && defaultModel.value !in unseen && Owns(existing, defaultModel.value, id)
        decreases |unseen|
      {
        var key :| key in unseen;
        unseen := unseen - {key};
        var alias := existing[key];
        if alias.Alias? && alias.provider == id {
          left := left - {key};
          if defaultModel == Some(key) {
            removedDefault := true;
          }
        }
      }
    }

    /** `removeCustomRegistryProvider` */
    method RemoveProvider(id: string)
      modifies this
      ensures State() == Without(old(State()), {id})
    {
      providers := providers - {id};
      var existing := if models.Some? then models.value else map[];
      var left, removedDefault := DropAliases(existing, id);
      models := Some(left);
      if removedDefault {
        defaultModel := None;
      }
      if defaultProvider == Some(id) {
        defaultProvider := None;
      }
    }

    static method InstallAliases(e: Entry, left: map<string, Alias>) returns (written: map<string, Alias>)
      ensures written == left + AliasesOf(e)
    {
      hide AliasesOf, AliasAt, ToAlias, AliasKey;
      var unseen := e.models.Keys;
      written := left;
      while unseen != {}
        invariant unseen <= e.models.Keys
        invariant forall k | k in written :: k in left || k in KeysOf(e)
        invariant forall k | k in left && k !in KeysOf(e) :: k in written && written[k] == left[k]
        invariant forall m | m in e.models && m !in unseen :: Installed(e, m, written)
        decreases |unseen|
      {
        var modelKey :| modelKey in unseen;
        var aliasKey := AliasKey(e.id, modelKey);
        InstalledMore(e, unseen, modelKey, written);
        written := written[aliasKey := ToAlias(e.id, e.models[modelKey])];
        unseen := unseen - {modelKey};
      }
      WrittenAliases(e, left, written);
    }

    /** `applyCustomRegistryProvider` */
    method ApplyProvider(e: Entry, source: Source)
      modifies this
      ensures State() == WithEntry(old(State()), e, source)
    {
      hide AliasesOf, Owned, ProviderOf;
      providers := providers[e.id := ProviderOf(e, source)];
      var existing := if models.Some? then models.value else map[];
      var left, _ := DropAliases(existing, e.id);
      var written := InstallAliases(e, left);
      models := Some(written);
    }

    method DropStale(surviving: set<string>, source: Source, ghost entries: seq<Entry>)
      requires surviving == Ids(entries)
      modifies this
      ensures State() == WithoutStale(old(State()), Stale(old(State()), entries, source))
    {
      hide Owned, Without, Ids, WithoutStale;
      ghost var before := State();
      var snapshot := providers;
      var unseen := snapshot.Keys;
      ghost var gone: set<string> := {};
      WithoutNone(before);
      while unseen != {}
        invariant unseen <= snapshot.Keys && snapshot == before.providers
        invariant gone == Stale(before, entries, source) - unseen
        invariant State() == WithoutStale(before, gone)
        decreases |unseen|
      {
        var id :| id in unseen;
        unseen := unseen - {id};
        var provider := snapshot[id];
        if id !in surviving && provider.ApiJsonProvider? && provider.source.url == source.url {
          WithoutMore(before, gone, id);
          RemoveProvider(id);
          gone := gone + {id};
        }
      }
      assert gone == Stale(before, entries, source);
    }

    /** `applyCustomRegistryEntries`, its first loop being `DropStale` */
    method ApplyEntries(entries: seq<Entry>, source: Source)
      modifies this
      ensures State() == Import(old(State()), entries, source)
    {
      hide Without, WithEntry, Refreshes, Ids, Stale, WithoutStale;
      DropStale(Ids(entries), source, entries);
      ghost var base := State();
      NothingRefreshed(base, entries, source);
      for i := 0 to |entries|
        invariant State() == Refreshes(base, entries[..i], source)
      {
        OneMore(base, entries, i, source);
        if entries[i].id in providers {
          RemoveProvider(entries[i].id);
        }
        ApplyProvider(entries[i], source);
      }
      assert entries[..|entries|] == entries;
    }
  }

  lemma WithoutNone(c: Config)
    ensures WithoutStale(c, {}) == c
  {
  }

  lemma NothingRefreshed(c: Config, es: seq<Entry>, source: Source)
    ensures Refreshes(c, es[..0], source) == c
  {
  }

  lemma OneMore(c: Config, es: seq<Entry>, i: nat, source: Source)
    requires i < |es|
    ensures Refreshes(c, es[..i + 1], source) == Refreshed(Refreshes(c, es[..i], source), es[i], source)
  {
    hide Refreshed;
    assert es[..i + 1][..i] == es[..i];
  }

  predicate Installed(e: Entry, m: string, written: map<string, Alias>)
    requires m in e.models
  {
    var k := AliasKey(e.id, m);
    k in written && written[k] == ToAlias(e.id, e.models[m])
  }

  lemma InstalledMore(e: Entry, unseen: set<string>, modelKey: string, written: map<string, Alias>)
    requires unseen <= e.models.Keys && modelKey in unseen
    requires forall m | m in e.models && m !in unseen :: Installed(e, m, written)
    ensures AliasKey(e.id, modelKey) in KeysOf(e)
    ensures forall m | m in e.models && m !in unseen - {modelKey} ::
      Installed(e, m, written[AliasKey(e.id, modelKey) := ToAlias(e.id, e.models[modelKey])])
  {
    hide AliasKey, ToAlias;
    forall m | m in e.models && m !in unseen - {modelKey}
      ensures Installed(e, m, written[AliasKey(e.id, modelKey) := ToAlias(e.id, e.models[modelKey])])
    {
      KeyRest(e.id, m);
      KeyRest(e.id, modelKey);
    }
  }

  lemma WrittenAliases(e: Entry, left: map<string, Alias>, written: map<string, Alias>)
    requires forall k | k in written :: k in left || k in KeysOf(e)
    requires forall k | k in left && k !in KeysOf(e) :: k in written && written[k] == left[k]
    requires forall m | m in e.models :: Installed(e, m, written)
    ensures written == left + AliasesOf(e)
  {
    hide AliasKey, ToAlias;
    forall k | k in KeysOf(e) ensures k in written && written[k] == AliasAt(e, k) {
      var m :| m in e.models && k == AliasKey(e.id, m);
      KeyRest(e.id, m);
    }
  }
}
