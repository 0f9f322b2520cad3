/** Edits of the configuration: registry imports and removals, and login to and logout from the managed
    provider.  Providers, model aliases and defaults refer to one another by name. */
module ConfigIntegrity {
  import opened Options
  import Slot = CredentialSlot

  const MANAGED_PROVIDER := "managed:kimi-code"
  const MANAGED_PLATFORM := "kimi-code"
  const SEARCH_SERVICE := "moonshotSearch"
  const FETCH_SERVICE := "moonshotFetch"

  // Where a provider was imported from.
  datatype Source = Source(url: string, apiKey: string)

  datatype Provider = Provider(
    kind: string, baseUrl: string, apiKey: string, source: Option<Source>, oauth: Option<Slot.OAuthRef>)

  datatype Service = Service(baseUrl: string, apiKey: string, oauth: Slot.OAuthRef)

  // An entry of the model table: a record, which may lack a provider, or something else.
  datatype Alias =
    | Alias(provider: Option<string>, model: string, contextSize: nat, capabilities: set<string>,
            displayName: Option<string>)
    | Malformed

  datatype Shape = Shape(
    providers: map<string, Provider>,
    models: map<string, Alias>,
    defaultModel: Option<string>,
    defaultProvider: Option<string>,
    defaultThinking: Option<bool>,
    services: map<string, Service>)

  // A model of a registry entry, with its limits already resolved.
  datatype RegistryModel = RegistryModel(id: string, name: string, contextSize: nat, capabilities: set<string>)

  // An entry of a registry: its models by key.
  datatype Entry = Entry(id: string, kind: string, api: string, models: seq<(string, RegistryModel)>)

  datatype Thinking = Only | No | Both | Undeclared

  datatype ManagedModel = ManagedModel(
    id: string, contextLength: int, reasoning: bool, thinking: Thinking, capabilities: set<string>,
    displayName: Option<string>)

  // ---------- Integrity ----------

  predicate Owns(s: Shape, id: string, key: string) {
    key in s.models && s.models[key].Alias? && s.models[key].provider == Some(id)
  }

  predicate Grounded(alias: Alias, providers: map<string, Provider>) {
    alias.Alias? && alias.provider.Some? ==> alias.provider.value in providers
  }

  /** Every alias names a provider that exists, and so do the defaults. */
  ghost predicate Intact(s: Shape) {
    && (forall key :: key in s.models ==> Grounded(s.models[key], s.providers))
    && (s.defaultModel.Some? ==> s.defaultModel.value in s.models)
    && (s.defaultProvider.Some? ==> s.defaultProvider.value in s.providers)
  }

  // ---------- Removal ----------

  predicate OwnedByAny(s: Shape, ids: set<string>, key: string) {
    && key in s.models && s.models[key].Alias?
    && s.models[key].provider.Some? && s.models[key].provider.value in ids
  }

  // The configuration without these providers and whatever names them.
  function Without(s: Shape, ids: set<string>): Shape {
    s.(providers := s.providers - ids,
       models := map key | key in s.models && !OwnedByAny(s, ids, key) :: s.models[key],
       defaultModel := if s.defaultModel.Some? && OwnedByAny(s, ids, s.defaultModel.value) then None else s.defaultModel,
       defaultProvider := if s.defaultProvider.Some? && s.defaultProvider.value in ids then None else s.defaultProvider)
  }

  lemma WithoutStaysIntact(s: Shape, ids: set<string>)
    requires Intact(s)
    ensures Intact(Without(s, ids))
  {
  }

  lemma WithoutMore(s: Shape, ids: set<string>, id: string)
    ensures Without(Without(s, ids), {id}) == Without(s, ids + {id})
  {
    var a, b := Without(Without(s, ids), {id}), Without(s, ids + {id});
    assert a.models == b.models;
    assert a.providers == b.providers;
  }

  // ---------- Registry imports ----------

  function AliasOf(id: string, model: RegistryModel): Alias {
    Alias(Some(id), model.id, model.contextSize, model.capabilities, Some(if model.name != "" then model.name else model.id))
  }

  function AliasKey(id: string, modelKey: string): string {
    id + "/" + modelKey
  }

  function NewAliases(entry: Entry, n: nat): map<string, Alias>
    requires n <= |entry.models|
  {
    if n == 0 then map[]
    else
      var (modelKey, model) := entry.models[n - 1];
      NewAliases(entry, n - 1)[AliasKey(entry.id, modelKey) := AliasOf(entry.id, model)]
  }

  lemma {:induction false} NewAliasesAreOwn(entry: Entry, n: nat, key: string)
    requires n <= |entry.models| && key in NewAliases(entry, n)
    ensures NewAliases(entry, n)[key].Alias? && NewAliases(entry, n)[key].provider == Some(entry.id)
  {
    if key in NewAliases(entry, n - 1) {
      NewAliasesAreOwn(entry, n - 1, key);
    }
  }

  function KeptAliases(s: Shape, id: string): map<string, Alias> {
    map key | key in s.models && !Owns(s, id, key) :: s.models[key]
  }

  // One entry written over whatever was there; the defaults are left alone.
  function Applied(s: Shape, entry: Entry, source: Source): Shape {
    s.(providers := s.providers[entry.id := Provider(entry.kind, entry.api, source.apiKey, Some(source), None)],
       models := KeptAliases(s, entry.id) + NewAliases(entry, |entry.models|))
  }

  // Removed if present, then applied.
  function Imported(s: Shape, entry: Entry, source: Source): Shape {
    Applied(if entry.id in s.providers then Without(s, {entry.id}) else s, entry, source)
  }

  function ImportedAll(s: Shape, entries: seq<Entry>, source: Source, n: nat): Shape
    requires n <= |entries|
  {
    if n == 0 then s else Imported(ImportedAll(s, entries, source, n - 1), entries[n - 1], source)
  }

  function Ids(entries: seq<Entry>): set<string> {
    set e | e in entries :: e.id
  }

  predicate FromUrl(provider: Provider, url: string) {
    provider.source.Some? && provider.source.value.url == url
  }

  // Providers of the same registry that it no longer lists.
  function Orphans(s: Shape, entries: seq<Entry>, url: string): set<string> {
    set id | id in s.providers && id !in Ids(entries) && FromUrl(s.providers[id], url)
  }

  function Import(s: Shape, entries: seq<Entry>, source: Source): Shape {
    ImportedAll(Without(s, Orphans(s, entries, source.url)), entries, source, |entries|)
  }

  lemma ImportedStaysIntact(s: Shape, entry: Entry, source: Source)
    requires Intact(s)
    ensures Intact(Imported(s, entry, source))
  {
    var s' := if entry.id in s.providers then Without(s, {entry.id}) else s;
    WithoutStaysIntact(s, {entry.id});
    var after := Imported(s, entry, source);
    forall key | key in after.models ensures Grounded(after.models[key], after.providers) {
      if key in NewAliases(entry, |entry.models|) {
        NewAliasesAreOwn(entry, |entry.models|, key);
      }
    }
    if s'.defaultModel.Some? {
      assert !Owns(s', entry.id, s'.defaultModel.value);
    }
  }

  lemma {:induction false} ImportedAllStaysIntact(s: Shape, entries: seq<Entry>, source: Source, n: nat)
    requires n <= |entries| && Intact(s)
    ensures Intact(ImportedAll(s, entries, source, n))
  {
    if n > 0 {
      ImportedAllStaysIntact(s, entries, source, n - 1);
      ImportedStaysIntact(ImportedAll(s, entries, source, n - 1), entries[n - 1], source);
    }
  }

  lemma {:induction false} ImportedProviders(s: Shape, entries: seq<Entry>, source: Source, n: nat, id: string)
    requires n <= |entries|
    ensures id !in Ids(entries[..n]) ==>
      (id in ImportedAll(s, entries, source, n).providers <==> id in s.providers)
      && (id in s.providers ==> ImportedAll(s, entries, source, n).providers[id] == s.providers[id])
    ensures id in Ids(entries[..n]) ==>
      id in ImportedAll(s, entries, source, n).providers
      && ImportedAll(s, entries, source, n).providers[id].source == Some(source)
  {
    if n > 0 {
      assert entries[..n] == entries[..n - 1] + [entries[n - 1]];
      assert Ids(entries[..n]) == Ids(entries[..n - 1]) + {entries[n - 1].id};
      ImportedProviders(s, entries, source, n - 1, id);
    }
  }

  /** After an import the registry's providers are just the imported ones, and every other provider is
      as it was. */
  lemma ImportLeavesNoOrphan(s: Shape, entries: seq<Entry>, source: Source, id: string)
    ensures var after := Import(s, entries, source);
      && (id in after.providers && FromUrl(after.providers[id], source.url) <==> id in Ids(entries))
      && (id !in Ids(entries) && !(id in s.providers && FromUrl(s.providers[id], source.url)) ==>
            (id in after.providers <==> id in s.providers)
            && (id in s.providers ==> after.providers[id] == s.providers[id]))
  {
    assert entries[..|entries|] == entries;
    ImportedProviders(Without(s, Orphans(s, entries, source.url)), entries, source, |entries|, id);
  }

  predicate DistinctIds(entries: seq<Entry>) {
    forall i, j :: 0 <= i < j < |entries| ==> entries[i].id != entries[j].id
  }

  /** Each imported provider has no stale aliases. */
  lemma {:induction false} AliasesAreCurrent(s: Shape, entries: seq<Entry>, source: Source, n: nat, j: nat, key: string)
    requires j < n <= |entries| && DistinctIds(entries)
    requires Owns(ImportedAll(s, entries, source, n), entries[j].id, key)
    ensures key in NewAliases(entries[j], |entries[j].models|)
    ensures ImportedAll(s, entries, source, n).models[key] == NewAliases(entries[j], |entries[j].models|)[key]
  {
    var last := entries[n - 1];
    if key in NewAliases(last, |last.models|) {
      NewAliasesAreOwn(last, |last.models|, key);
    } else if j < n - 1 {
      AliasesAreCurrent(s, entries, source, n - 1, j, key);
    }
  }

  lemma AliasStaysOnce(s: Shape, entry: Entry, source: Source, key: string)
    requires key in s.models && !Owns(s, entry.id, key) && !Lists(entry, key)
    ensures key in Imported(s, entry, source).models && Imported(s, entry, source).models[key] == s.models[key]
  {
  }

  /** And it has every alias its entry lists, unless a later entry takes the key. */
  lemma {:induction false} ListedAliasesArePresent(s: Shape, entries: seq<Entry>, source: Source, n: nat, j: nat,
                                                   key: string)
    requires j < n <= |entries| && DistinctIds(entries) && Lists(entries[j], key)
    requires forall i :: j < i < n ==> !Lists(entries[i], key)
    ensures var models := ImportedAll(s, entries, source, n).models;
      key in models && models[key] == NewAliases(entries[j], |entries[j].models|)[key]
  {
    if j < n - 1 {
      ListedAliasesArePresent(s, entries, source, n - 1, j, key);
      NewAliasesAreOwn(entries[j], |entries[j].models|, key);
      AliasStaysOnce(ImportedAll(s, entries, source, n - 1), entries[n - 1], source, key);
    }
  }

  lemma {:induction false} OtherAliasesStay(s: Shape, entries: seq<Entry>, source: Source, n: nat, key: string)
    requires n <= |entries| && key in s.models && !OwnedByAny(s, Ids(entries[..n]), key)
    requires forall j :: 0 <= j < n ==> key !in NewAliases(entries[j], |entries[j].models|)
    ensures key in ImportedAll(s, entries, source, n).models
    ensures ImportedAll(s, entries, source, n).models[key] == s.models[key]
  {
    if n > 0 {
      assert entries[..n] == entries[..n - 1] + [entries[n - 1]];
      assert Ids(entries[..n]) == Ids(entries[..n - 1]) + {entries[n - 1].id};
      OtherAliasesStay(s, entries, source, n - 1, key);
    }
  }

  // ---------- The default model across an import ----------

  // The default model is under this key, and none of these providers owns it.
  predicate DefaultSafe(s: Shape, ids: set<string>, key: string) {
    s.defaultModel == Some(key) && key in s.models && !OwnedByAny(s, ids, key)
  }

  predicate DefaultHeld(s: Shape, id: string, key: string) {
    s.defaultModel == Some(key) && Owns(s, id, key) && id in s.providers
  }

  lemma DefaultStaysOnce(s: Shape, entry: Entry, source: Source, later: set<string>, key: string)
    requires DefaultSafe(s, later + {entry.id}, key) && entry.id !in later
    ensures DefaultSafe(Imported(s, entry, source), later, key)
  {
    if key in NewAliases(entry, |entry.models|) {
      NewAliasesAreOwn(entry, |entry.models|, key);
    }
  }

  lemma {:induction false} DefaultStays(s: Shape, entries: seq<Entry>, source: Source, m: nat, n: nat, key: string)
    requires m <= n <= |entries| && DistinctIds(entries)
    requires DefaultSafe(ImportedAll(s, entries, source, m), Ids(entries[m..]), key)
    ensures DefaultSafe(ImportedAll(s, entries, source, n), Ids(entries[n..]), key)
  {
    if m < n {
      DefaultStays(s, entries, source, m, n - 1, key);
      assert entries[n - 1..] == [entries[n - 1]] + entries[n..];
      assert Ids(entries[n - 1..]) == Ids(entries[n..]) + {entries[n - 1].id};
      DefaultStaysOnce(ImportedAll(s, entries, source, n - 1), entries[n - 1], source, Ids(entries[n..]), key);
    }
  }

  predicate Lists(entry: Entry, key: string) {
    key in NewAliases(entry, |entry.models|)
  }

  lemma DefaultHeldOnce(s: Shape, entry: Entry, source: Source, id: string, key: string)
    requires DefaultHeld(s, id, key) && (entry.id != id ==> !Lists(entry, key))
    ensures if entry.id == id then Imported(s, entry, source).defaultModel == None
      else DefaultHeld(Imported(s, entry, source), id, key)
  {
  }

  // Until entry j is reached, or an earlier entry takes the key, the default j owns is still its own.
  lemma {:induction false} DefaultWaits(s: Shape, entries: seq<Entry>, source: Source, n: nat, j: nat, key: string)
    requires n <= j < |entries| && DistinctIds(entries) && DefaultHeld(s, entries[j].id, key)
    requires forall i :: 0 <= i < n ==> !Lists(entries[i], key)
    ensures DefaultHeld(ImportedAll(s, entries, source, n), entries[j].id, key)
  {
    if n > 0 {
      DefaultWaits(s, entries, source, n - 1, j, key);
      DefaultHeldOnce(ImportedAll(s, entries, source, n - 1), entries[n - 1], source, entries[j].id, key);
    }
  }

  // An earlier entry that takes the key makes the default its own, which no later entry removes.
  lemma DefaultTaken(s: Shape, entry: Entry, source: Source, id: string, later: set<string>, key: string)
    requires DefaultHeld(s, id, key) && Lists(entry, key) && entry.id != id && entry.id !in later
    ensures DefaultSafe(Imported(s, entry, source), later, key)
  {
    NewAliasesAreOwn(entry, |entry.models|, key);
  }

  lemma {:induction false} NoDefaultStaysNone(s: Shape, entries: seq<Entry>, source: Source, m: nat, n: nat)
    requires m <= n <= |entries| && ImportedAll(s, entries, source, m).defaultModel == None
    ensures ImportedAll(s, entries, source, n).defaultModel == None
  {
    if m < n {
      NoDefaultStaysNone(s, entries, source, m, n - 1);
    }
  }

  lemma DefaultGoes(s: Shape, entries: seq<Entry>, source: Source, j: nat, key: string)
    requires j < |entries| && DistinctIds(entries) && DefaultHeld(s, entries[j].id, key)
    requires forall i :: 0 <= i < j ==> !Lists(entries[i], key)
    ensures ImportedAll(s, entries, source, |entries|).defaultModel == None
  {
    DefaultWaits(s, entries, source, j, j, key);
    DefaultHeldOnce(ImportedAll(s, entries, source, j), entries[j], source, entries[j].id, key);
    NoDefaultStaysNone(s, entries, source, j + 1, |entries|);
  }

  lemma DefaultRescued(s: Shape, entries: seq<Entry>, source: Source, i: nat, j: nat, key: string)
    requires i < j < |entries| && DistinctIds(entries) && DefaultHeld(s, entries[j].id, key)
    requires Lists(entries[i], key) && forall k :: 0 <= k < i ==> !Lists(entries[k], key)
    ensures ImportedAll(s, entries, source, |entries|).defaultModel == Some(key)
  {
    DefaultWaits(s, entries, source, i, j, key);
    DefaultTaken(ImportedAll(s, entries, source, i), entries[i], source, entries[j].id, Ids(entries[i + 1..]), key);
    DefaultStays(s, entries, source, i + 1, |entries|, key);
  }

  lemma {:induction false} FirstLister(entries: seq<Entry>, n: nat, key: string) returns (i: nat)
    requires n <= |entries| && exists k :: 0 <= k < n && Lists(entries[k], key)
    ensures i < n && Lists(entries[i], key) && forall k :: 0 <= k < i ==> !Lists(entries[k], key)
  {
    if k :| 0 <= k < n - 1 && Lists(entries[k], key) {
      i := FirstLister(entries, n - 1, key);
    } else {
      i := n - 1;
    }
  }

  // The j-th entry imports the default's provider anew, and none before it lists the default's key.
  predicate Reimports(s: Shape, entries: seq<Entry>, j: nat, key: string) {
    j < |entries| && Owns(s, entries[j].id, key) && forall i :: 0 <= i < j ==> !Lists(entries[i], key)
  }

  predicate Forgets(s: Shape, entries: seq<Entry>, url: string, key: string) {
    OwnedByAny(s, Orphans(s, entries, url), key) || exists j :: 0 <= j < |entries| && Reimports(s, entries, j, key)
  }

  lemma DefaultAfterEntries(s: Shape, entries: seq<Entry>, source: Source, key: string)
    requires DistinctIds(entries) && s.defaultModel == Some(key) && key in s.models
    requires Grounded(s.models[key], s.providers)
    ensures ImportedAll(s, entries, source, |entries|).defaultModel
      == if exists j :: 0 <= j < |entries| && Reimports(s, entries, j, key) then None else Some(key)
  {
    if OwnedByAny(s, Ids(entries), key) {
      var j :| 0 <= j < |entries| && Some(entries[j].id) == s.models[key].provider;
      if i :| 0 <= i < j && Lists(entries[i], key) {
        var first := FirstLister(entries, j, key);
        DefaultRescued(s, entries, source, first, j, key);
      } else {
        assert Reimports(s, entries, j, key);
        DefaultGoes(s, entries, source, j, key);
      }
    } else {
      assert entries[0..] == entries;
      DefaultStays(s, entries, source, 0, |entries|, key);
    }
  }

  /** An import forgets the default model if and only if its provider is dropped, or is imported anew
      before another entry takes its key: even where the same model is listed again. */
  lemma DefaultAfterImport(s: Shape, entries: seq<Entry>, source: Source, key: string)
    requires Intact(s) && DistinctIds(entries) && s.defaultModel == Some(key)
    ensures Import(s, entries, source).defaultModel == if Forgets(s, entries, source.url, key) then None else Some(key)
  {
    var orphans := Orphans(s, entries, source.url);
    var kept := Without(s, orphans);
    if OwnedByAny(s, orphans, key) {
      NoDefaultStaysNone(kept, entries, source, 0, |entries|);
    } else {
      forall j | 0 <= j < |entries| ensures Reimports(kept, entries, j, key) == Reimports(s, entries, j, key) {
      }
      DefaultAfterEntries(kept, entries, source, key);
    }
  }

  // Importing a provider anew forgets its default model even where the entry lists it again.
  lemma ReimportForgetsTheSameModel(s: Shape, entry: Entry, source: Source, key: string)
    requires Intact(s) && s.defaultModel == Some(key) && Owns(s, entry.id, key) && Lists(entry, key)
    ensures var after := Import(s, [entry], source); after.defaultModel == None && key in after.models
  {
    assert Reimports(s, [entry], 0, key);
    DefaultAfterImport(s, [entry], source, key);
    ListedAliasesArePresent(Without(s, Orphans(s, [entry], source.url)), [entry], source, 1, 0, key);
  }

  function OneModel(id: string, modelKey: string): Entry {
    Entry(id, "openai", "https://x", [(modelKey, RegistryModel("m", "", 1, {}))])
  }

  function OwnedDefault(): Shape {
    Shape(map["a" := Provider("openai", "https://x", "", None, None)],
          map["a/b/c" := Alias(Some("a"), "m", 1, {}, None)], Some("a/b/c"), None, None, map[])
  }

  // The model `c` of provider `a/b` and the model `b/c` of provider `a` share a key: where the first is
  // imported before the second, the default stays, although its provider is imported anew.
  lemma TakenDefaultSurvives(source: Source)
    ensures Intact(OwnedDefault())
    ensures Import(OwnedDefault(), [OneModel("a/b", "c"), OneModel("a", "b/c")], source).defaultModel == Some("a/b/c")
    ensures Import(OwnedDefault(), [OneModel("a", "b/c"), OneModel("a/b", "c")], source).defaultModel == None
  {
    var s, key, first, second := OwnedDefault(), "a/b/c", OneModel("a/b", "c"), OneModel("a", "b/c");
    assert AliasKey("a/b", "c") == key && AliasKey("a", "b/c") == key;
    assert NewAliases(first, 0) == map[] && Lists(first, key);
    forall j | 0 <= j < 2 ensures !Reimports(s, [first, second], j, key) {
      assert [first, second][0] == first;
    }
    DefaultAfterImport(s, [first, second], source, key);
    assert Owns(s, second.id, key) && Reimports(s, [second, first], 0, key);
    DefaultAfterImport(s, [second, first], source, key);
  }

  // ---------- The managed provider ----------

  function ManagedKey(id: string): string {
    MANAGED_PLATFORM + "/" + id
  }

  function ManagedAlias(model: ManagedModel): Alias
    requires 0 < model.contextLength
  {
    Alias(Some(MANAGED_PROVIDER), model.id, model.contextLength, model.capabilities, model.displayName)
  }

  predicate Valid(models: seq<ManagedModel>) {
    models != [] && forall k :: 0 <= k < |models| ==> 0 < models[k].contextLength
  }

  function ManagedAliases(models: seq<ManagedModel>, n: nat): map<string, Alias>
    requires n <= |models| && Valid(models)
  {
    if n == 0 then map[]
    else ManagedAliases(models, n - 1)[ManagedKey(models[n - 1].id) := ManagedAlias(models[n - 1])]
  }

  // The last model listed under a key.
  function ModelAt(models: seq<ManagedModel>, key: string): (model: Option<ManagedModel>)
    ensures model.Some? <==> exists k :: 0 <= k < |models| && ManagedKey(models[k].id) == key
    ensures model.Some? ==> model.value in models && ManagedKey(model.value.id) == key
  {
    if models == [] then None
    else
      var last := models[|models| - 1];
      if ManagedKey(last.id) == key then Some(last) else ModelAt(models[..|models| - 1], key)
  }

  function ForcedThinking(model: Option<ManagedModel>, fallback: bool): bool {
    if model.Some? && model.value.thinking == Only then true
    else if model.Some? && model.value.thinking == No then false
    else fallback
  }

  predicate CanPreserve(s: Shape, models: seq<ManagedModel>, key: string) {
    || ModelAt(models, key).Some?
    || (key in s.models && s.models[key].Alias? && s.models[key].provider != Some(MANAGED_PROVIDER))
  }

  predicate Preserves(s: Shape, models: seq<ManagedModel>, preserve: bool) {
    preserve && s.defaultModel.Some? && s.defaultModel.value != "" && CanPreserve(s, models, s.defaultModel.value)
  }

  // The default model after a login, and whether it thinks.
  function Selected(s: Shape, models: seq<ManagedModel>, preserve: bool): (string, bool)
    requires models != []
  {
    if Preserves(s, models, preserve) then
      var kept := ModelAt(models, s.defaultModel.value);
      var fallback := if s.defaultThinking.Some? then s.defaultThinking.value else kept.Some? && kept.value.reasoning;
      (s.defaultModel.value, ForcedThinking(kept, fallback))
    else
      var fallback := if s.defaultThinking.Some? then s.defaultThinking.value else models[0].reasoning;
      (ManagedKey(models[0].id), ForcedThinking(Some(models[0]), fallback))
  }

  function ManagedProvider(auth: Slot.Stored): Provider {
    Provider("kimi", auth.baseUrl, "", None, Some(auth.ref))
  }

  function ManagedServices(auth: Slot.Stored): map<string, Service> {
    map[SEARCH_SERVICE := Service(auth.baseUrl + "/search", "", auth.ref),
        FETCH_SERVICE := Service(auth.baseUrl + "/fetch", "", auth.ref)]
  }

  function WithLogin(s: Shape, models: seq<ManagedModel>, auth: Slot.Stored, model: string, thinks: bool): Shape
    requires Valid(models)
  {
    s.(providers := s.providers[MANAGED_PROVIDER := ManagedProvider(auth)],
       models := KeptAliases(s, MANAGED_PROVIDER) + ManagedAliases(models, |models|),
       defaultModel := Some(model),
       defaultThinking := Some(thinks),
       services := ManagedServices(auth))
  }

  function LoggedIn(s: Shape, models: seq<ManagedModel>, auth: Slot.Stored, preserve: bool): Shape
    requires Valid(models)
  {
    var selected := Selected(s, models, preserve);
    WithLogin(s, models, auth, selected.0, selected.1)
  }

  function LoggedOut(s: Shape): Shape {
    Without(s, {MANAGED_PROVIDER}).(services := s.services - {SEARCH_SERVICE, FETCH_SERVICE})
  }

  lemma {:induction false} ManagedAliasesAt(models: seq<ManagedModel>, n: nat, key: string)
    requires n <= |models| && Valid(models)
    ensures key in ManagedAliases(models, n) <==> exists k :: 0 <= k < n && ManagedKey(models[k].id) == key
    ensures key in ManagedAliases(models, n) ==>
      ManagedAliases(models, n)[key].Alias? && ManagedAliases(models, n)[key].provider == Some(MANAGED_PROVIDER)
  {
    if n > 0 {
      ManagedAliasesAt(models, n - 1, key);
    }
  }

  lemma LoginStaysIntact(s: Shape, models: seq<ManagedModel>, auth: Slot.Stored, preserve: bool)
    requires Intact(s) && Valid(models)
    ensures Intact(LoggedIn(s, models, auth, preserve))
  {
    var after := LoggedIn(s, models, auth, preserve);
    forall key | key in after.models ensures Grounded(after.models[key], after.providers) {
      ManagedAliasesAt(models, |models|, key);
    }
    ManagedAliasesAt(models, |models|, after.defaultModel.value);
    assert ManagedKey(models[0].id) == Selected(s, models, false).0;
  }

  // The declaration of the default model, if it is a managed one, is respected.
  predicate ThinkingFits(s: Shape, models: seq<ManagedModel>) {
    s.defaultModel.Some? && ModelAt(models, s.defaultModel.value).Some? ==>
      var declared := ModelAt(models, s.defaultModel.value).value.thinking;
      (declared == Only ==> s.defaultThinking == Some(true)) && (declared == No ==> s.defaultThinking == Some(false))
  }

  // The first model is not listed again with a demand of its own.
  predicate FirstIsConsistent(models: seq<ManagedModel>)
    requires models != []
  {
    var last := ModelAt(models, ManagedKey(models[0].id));
    last.Some? && (last.value.thinking == models[0].thinking || last.value.thinking.Both? || last.value.thinking.Undeclared?)
  }

  lemma FirstIsListed(models: seq<ManagedModel>)
    requires models != []
    ensures ModelAt(models, ManagedKey(models[0].id)).Some?
  {
    assert ManagedKey(models[0].id) == ManagedKey(models[0].id);
  }

  lemma DistinctIsConsistent(models: seq<ManagedModel>)
    requires models != [] && forall i, j :: 0 <= i < j < |models| ==> models[i].id != models[j].id
    ensures FirstIsConsistent(models)
  {
    FirstIsListed(models);
    SameKeySameId(models[0].id, ModelAt(models, ManagedKey(models[0].id)).value.id);
  }

  // A configuration that wants the default model to think, or not to.
  function Wanting(thinks: bool): Shape {
    Shape(map[], map[], None, None, Some(thinks), map[])
  }

  /** Whatever was configured before, the default model thinks after a login whenever its declaration
      demands it and never when it forbids it, if and only if the offer does not contradict itself about
      its first model. */
  lemma ThinkingFitsTheDefault(models: seq<ManagedModel>, auth: Slot.Stored)
    requires Valid(models)
    ensures FirstIsConsistent(models)
      <==> forall s, preserve :: ThinkingFits(LoggedIn(s, models, auth, preserve), models)
  {
    FirstIsListed(models);
    var demand := ModelAt(models, ManagedKey(models[0].id)).value.thinking;
    if !FirstIsConsistent(models) {
      assert !ThinkingFits(LoggedIn(Wanting(demand == No), models, auth, false), models);
    }
  }

  lemma SameKeySameId(id: string, id': string)
    ensures ManagedKey(id) == ManagedKey(id') ==> id == id'
  {
    assert ManagedKey(id)[|MANAGED_PLATFORM| + 1..] == id && ManagedKey(id')[|MANAGED_PLATFORM| + 1..] == id';
  }

  // ---------- The credential of a login ----------

  function LoginAuth(digest: Slot.Digest, env: Slot.Env, baseUrl: Option<string>, key: Option<string>,
                     host: Option<string>): Slot.Stored {
    var base := Slot.DefaultBaseUrl(env, baseUrl);
    Slot.Stored(base, if key.Some? then Slot.ManagedRef(None, key.value, host)
                      else Slot.ResolveRef(digest, env, host, Some(base)))
  }

  /** After a login without an explicit key, the runtime resolves from the provider record exactly the
      reference the login stored with the provider and both services, if and only if the host is settled. */
  lemma RuntimeReadsTheLoginsSlot(s: Shape, models: seq<ManagedModel>, digest: Slot.Digest, baseUrl: Option<string>,
                                  host: Option<string>, preserve: bool)
    requires Valid(models)
    ensures var after := LoggedIn(s, models, LoginAuth(digest, Slot.NO_ENV, baseUrl, None, host), preserve);
      var provider := after.providers[MANAGED_PROVIDER];
      && provider.oauth.Some?
      && (forall name :: name in after.services ==> Some(after.services[name].oauth) == provider.oauth)
      && (Slot.RuntimeAuth(digest, Slot.NO_ENV, Some(provider.baseUrl), Some(Slot.AsInput(provider.oauth.value)))
            == Slot.Auth(Some(provider.baseUrl), provider.oauth.value)
          <==> Slot.Settled(host))
  {
    Slot.SlotReadIsSlotWritten(digest, baseUrl, host);
  }

  // Under which keys, and with what, a login followed by a logout leaves aliases.
  lemma BackAndForthAt(s: Shape, models: seq<ManagedModel>, auth: Slot.Stored, preserve: bool, key: string)
    requires Valid(models)
    ensures var back, before := LoggedOut(LoggedIn(s, models, auth, preserve)).models, LoggedOut(s).models;
      && (key in back <==> key in before && forall k :: 0 <= k < |models| ==> ManagedKey(models[k].id) != key)
      && (key in back ==> back[key] == before[key])
  {
    ManagedAliasesAt(models, |models|, key);
  }

  /** Logging in and out is logging out, as far as providers go, and as far as aliases go just when no
      other alias sat under a managed key. */
  lemma LogoutUndoesLogin(s: Shape, models: seq<ManagedModel>, auth: Slot.Stored, preserve: bool)
    requires Valid(models)
    ensures var back, before := LoggedOut(LoggedIn(s, models, auth, preserve)), LoggedOut(s);
      && back.providers == before.providers && back.defaultProvider == before.defaultProvider
      && (back.models == before.models <==> forall k :: 0 <= k < |models| ==> ManagedKey(models[k].id) !in before.models)
  {
    var back, before := LoggedOut(LoggedIn(s, models, auth, preserve)).models, LoggedOut(s).models;
    forall key
      ensures key in back <==> key in before && forall k :: 0 <= k < |models| ==> ManagedKey(models[k].id) != key
      ensures key in back ==> back[key] == before[key]
    {
      BackAndForthAt(s, models, auth, preserve, key);
    }
    if k :| 0 <= k < |models| && ManagedKey(models[k].id) in before {
      assert ManagedKey(models[k].id) !in back;
    } else {
      assert back == before;
    }
    assert s.providers[MANAGED_PROVIDER := ManagedProvider(auth)] - {MANAGED_PROVIDER} == s.providers - {MANAGED_PROVIDER};
  }

  /** Where there was no managed provider, logging out changes no provider, alias or default. */
  lemma LogoutOfNobody(s: Shape)
    requires Intact(s) && MANAGED_PROVIDER !in s.providers
    ensures LoggedOut(s) == s.(services := LoggedOut(s).services)
  {
    assert LoggedOut(s).models == s.models;
    assert LoggedOut(s).providers == s.providers;
  }

  // ---------- Runs ----------

  datatype Edit =
    | ImportEntries(entries: seq<Entry>, source: Source)
    | RemoveProvider(id: string)
    | Login(models: seq<ManagedModel>, auth: Slot.Stored, preserve: bool)
    | Logout

  function Edited(s: Shape, edit: Edit): Shape {
    match edit
    case ImportEntries(entries, source) => Import(s, entries, source)
    case RemoveProvider(id) => Without(s, {id})
    case Login(models, auth, preserve) => if Valid(models) then LoggedIn(s, models, auth, preserve) else s
    case Logout => LoggedOut(s)
  }

  function EditedAll(s: Shape, edits: seq<Edit>): Shape {
    if edits == [] then s else Edited(EditedAll(s, edits[..|edits| - 1]), edits[|edits| - 1])
  }

  /** No sequence of edits leaves a dangling name. */
  lemma {:induction false} EditsStayIntact(s: Shape, edits: seq<Edit>)
    requires Intact(s)
    ensures Intact(EditedAll(s, edits))
  {
    if edits != [] {
      EditsStayIntact(s, edits[..|edits| - 1]);
      var before := EditedAll(s, edits[..|edits| - 1]);
      match edits[|edits| - 1]
      case ImportEntries(entries, source) =>
        WithoutStaysIntact(before, Orphans(before, entries, source.url));
        ImportedAllStaysIntact(Without(before, Orphans(before, entries, source.url)), entries, source, |entries|);
      case RemoveProvider(id) => WithoutStaysIntact(before, {id});
      case Login(models, auth, preserve) =>
        if Valid(models) {
          LoginStaysIntact(before, models, auth, preserve);
        }
      case Logout => WithoutStaysIntact(before, {MANAGED_PROVIDER});
    }
  }

  // ---------- The edits, in place ----------

  // Of the aliases still to look at, none has been dropped yet; of the others, those the provider owns.
  ghost predicate Dropping(before: map<string, Alias>, now: map<string, Alias>, id: string, todo: set<string>) {
    && todo <= before.Keys
    && (forall key :: key in now <==>
          key in before && (key in todo || before[key].Malformed? || before[key].provider != Some(id)))
    && (forall key :: key in now ==> now[key] == before[key])
  }

  lemma MapPlus(m: map<string, Alias>, n: map<string, Alias>, key: string, value: Alias)
    ensures (m + n)[key := value] == m + n[key := value]
  {
  }

  lemma WithoutNone(s: Shape)
    ensures Without(s, {}) == s
  {
    assert Without(s, {}).models == s.models;
    assert Without(s, {}).providers == s.providers;
  }

  class Config {
    var providers: map<string, Provider>
    var models: map<string, Alias>
    var defaultModel: Option<string>
    var defaultProvider: Option<string>
    var defaultThinking: Option<bool>
    var services: map<string, Service>

    ghost function Value(): Shape
      reads this
    {
      Shape(providers, models, defaultModel, defaultProvider, defaultThinking, services)
    }

    // Deletes a provider's aliases, and says whether the default model was among them.
    method DropAliases(id: string) returns (droppedDefault: bool)
      modifies `models
      ensures models == KeptAliases(old(Value()), id)
      ensures droppedDefault == (defaultModel.Some? && Owns(old(Value()), id, defaultModel.value))
    {
      droppedDefault := false;
      var todo := models.Keys;
      while todo != {}
        invariant Dropping(old(models), models, id, todo)
        invariant droppedDefault ==> defaultModel.Some? && Owns(old(Value()), id, defaultModel.value)
        invariant defaultModel.Some? && Owns(old(Value()), id, defaultModel.value) ==>
          droppedDefault || defaultModel.value in todo
        decreases |todo|
      {
        var key :| key in todo;
        todo := todo - {key};
        if models[key].Alias? && models[key].provider == Some(id) {
          models := models - {key};
          if defaultModel == Some(key) {
            droppedDefault := true;
          }
        }
      }
    }

    method RemoveCustomRegistryProvider(id: string)
      modifies this
      ensures Value() == Without(old(Value()), {id})
    {
      providers := providers - {id};
      var removedDefault := DropAliases(id);
      if removedDefault {
        defaultModel := None;
      }
      if defaultProvider == Some(id) {
        defaultProvider := None;
      }
      assert models == Without(old(Value()), {id}).models;
    }

    method AddAliases(entry: Entry)
      modifies `models
      ensures models == old(models) + NewAliases(entry, |entry.models|)
    {
      for i := 0 to |entry.models|
        invariant models == old(models) + NewAliases(entry, i)
      {
        var (modelKey, model) := entry.models[i];
        MapPlus(old(models), NewAliases(entry, i), AliasKey(entry.id, modelKey), AliasOf(entry.id, model));
        models := models[AliasKey(entry.id, modelKey) := AliasOf(entry.id, model)];
      }
    }

    method ApplyCustomRegistryProvider(entry: Entry, source: Source)
      modifies this
      ensures Value() == Applied(old(Value()), entry, source)
    {
      providers := providers[entry.id := Provider(entry.kind, entry.api, source.apiKey, Some(source), None)];
      assert KeptAliases(Value(), entry.id) == KeptAliases(old(Value()), entry.id);
      var _ := DropAliases(entry.id);
      AddAliases(entry);
    }

    method RemoveOrphans(entries: seq<Entry>, source: Source)
      modifies this
      ensures Value() == Without(old(Value()), Orphans(old(Value()), entries, source.url))
    {
      ghost var before := Value();
      var surviving := Ids(entries);
      var todo := providers.Keys;
      ghost var removed := {};
      WithoutNone(before);
      while todo != {}
        invariant todo <= before.providers.Keys && removed == Orphans(before, entries, source.url) - todo
        invariant Value() == Without(before, removed)
        decreases |todo|
      {
        var id :| id in todo;
        todo := todo - {id};
        assert id !in removed && providers[id] == before.providers[id];
        if id !in surviving && FromUrl(providers[id], source.url) {
          RemoveCustomRegistryProvider(id);
          WithoutMore(before, removed, id);
          removed := removed + {id};
        }
      }
      assert removed == Orphans(before, entries, source.url);
    }

    method ApplyCustomRegistryEntries(entries: seq<Entry>, source: Source)
      modifies this
      ensures Value() == Import(old(Value()), entries, source)
    {
      RemoveOrphans(entries, source);
      ghost var kept := Value();
      for i := 0 to |entries|
        invariant Value() == ImportedAll(kept, entries, source, i)
      {
        if entries[i].id in providers {
          RemoveCustomRegistryProvider(entries[i].id);
        }
        ApplyCustomRegistryProvider(entries[i], source);
      }
    }

    method AddManagedAliases(offered: seq<ManagedModel>)
      requires Valid(offered)
      modifies `models
      ensures models == old(models) + ManagedAliases(offered, |offered|)
    {
      for i := 0 to |offered|
        invariant models == old(models) + ManagedAliases(offered, i)
      {
        MapPlus(old(models), ManagedAliases(offered, i), ManagedKey(offered[i].id), ManagedAlias(offered[i]));
        models := models[ManagedKey(offered[i].id) := ManagedAlias(offered[i])];
      }
    }

    method StoreLogin(offered: seq<ManagedModel>, base: string, oauth: Slot.OAuthRef, model: string, thinks: bool)
      requires Valid(offered)
      modifies this
      ensures Value() == WithLogin(old(Value()), offered, Slot.Stored(base, oauth), model, thinks)
    {
      providers := providers[MANAGED_PROVIDER := Provider("kimi", base, "", None, Some(oauth))];
      assert KeptAliases(Value(), MANAGED_PROVIDER) == KeptAliases(old(Value()), MANAGED_PROVIDER);
      var _ := DropAliases(MANAGED_PROVIDER);
      AddManagedAliases(offered);
      defaultModel, defaultThinking := Some(model), Some(thinks);
      services := map[SEARCH_SERVICE := Service(base + "/search", "", oauth),
                      FETCH_SERVICE := Service(base + "/fetch", "", oauth)];
    }

    // Refused, with nothing changed, where there is no model or one without a positive context length.
    method ApplyManagedKimiCodeConfig(digest: Slot.Digest, env: Slot.Env, offered: seq<ManagedModel>,
                                      baseUrl: Option<string>, oauthKey: Option<string>, oauthHost: Option<string>,
                                      preserve: bool)
      returns (ok: bool)
      modifies this
      ensures ok == Valid(offered)
      ensures Value() == Edited(old(Value()), Login(offered, LoginAuth(digest, env, baseUrl, oauthKey, oauthHost), preserve))
    {
      if |offered| == 0 {
        return false;
      }
      for i := 0 to |offered|
        invariant forall k :: 0 <= k < i ==> 0 < offered[k].contextLength
        invariant Value() == old(Value())
      {
        if offered[i].contextLength <= 0 {
          return false;
        }
      }
      var base := Slot.DefaultBaseUrl(env, baseUrl);
      var oauth := if oauthKey.Some? then Slot.ManagedRef(None, oauthKey.value, oauthHost)
                   else Slot.ResolveRef(digest, env, oauthHost, Some(base));
      var current := Shape(providers, models, defaultModel, defaultProvider, defaultThinking, services);
      var selected := Selected(current, offered, preserve);
      StoreLogin(offered, base, oauth, selected.0, selected.1);
      ok := true;
    }

    method ApplyManagedKimiCodeLogoutConfig()
      modifies this
      ensures Value() == LoggedOut(old(Value()))
    {
      RemoveCustomRegistryProvider(MANAGED_PROVIDER);
      services := services - {SEARCH_SERVICE, FETCH_SERVICE};
    }
  }
}
