/** What the edits of the configuration leave behind, told from the records of an import or a login alone. */
module ConfigRecords {
  import opened Options
  import opened ConfigIntegrity
  import Slot = CredentialSlot

  // ---------- What an import writes ----------

  predicate ListedAt(entry: Entry, k: nat, key: string)
    requires k < |entry.models|
  {
    key == entry.id + "/" + entry.models[k].0
  }

  predicate Listed(entry: Entry, key: string) {
    exists k :: 0 <= k < |entry.models| && ListedAt(entry, k, key)
  }

  predicate ListedLater(entry: Entry, k: nat, key: string) {
    exists k' :: k < k' < |entry.models| && ListedAt(entry, k', key)
  }

  // The alias of a registry model: its provider, its fields, and its name or, without one, its id.
  predicate IsAliasOf(alias: Alias, id: string, model: RegistryModel) {
    && alias.Alias? && alias.provider == Some(id) && alias.model == model.id
    && alias.contextSize == model.contextSize && alias.capabilities == model.capabilities
    && alias.displayName == Some(if model.name == "" then model.id else model.name)
  }

  // The same, of the first n models of an entry.
  predicate ListedBefore(entry: Entry, n: nat, key: string)
    requires n <= |entry.models|
  {
    exists k :: 0 <= k < n && ListedAt(entry, k, key)
  }

  lemma {:induction false} WrittenWhenListed(entry: Entry, n: nat, key: string)
    requires n <= |entry.models|
    ensures key in NewAliases(entry, n) <==> ListedBefore(entry, n, key)
  {
    if 0 < n {
      WrittenWhenListed(entry, n - 1, key);
      assert ListedBefore(entry, n, key) <==> ListedBefore(entry, n - 1, key) || ListedAt(entry, n - 1, key);
    }
  }

  lemma {:induction false} LastListedIsWritten(entry: Entry, n: nat, k: nat, key: string)
    requires k < n <= |entry.models| && ListedAt(entry, k, key)
    requires forall k' :: k < k' < n ==> !ListedAt(entry, k', key)
    ensures key in NewAliases(entry, n) && IsAliasOf(NewAliases(entry, n)[key], entry.id, entry.models[k].1)
  {
    if k < n - 1 {
      LastListedIsWritten(entry, n - 1, k, key);
      assert !ListedAt(entry, n - 1, key);
    }
  }

  lemma ListsWhatIsListed(entry: Entry, key: string)
    ensures Lists(entry, key) <==> Listed(entry, key)
  {
    WrittenWhenListed(entry, |entry.models|, key);
  }

  lemma AliasStaysThrough(s: Shape, entry: Entry, source: Source, key: string, id: string, model: RegistryModel)
    requires key in s.models && IsAliasOf(s.models[key], id, model) && entry.id != id && !Listed(entry, key)
    ensures key in Imported(s, entry, source).models && IsAliasOf(Imported(s, entry, source).models[key], id, model)
  {
    ListsWhatIsListed(entry, key);
    AliasStaysOnce(s, entry, source, key);
  }

  // No later entry has the id of the j-th or lists its key.
  predicate Undisturbed(entries: seq<Entry>, j: nat, n: nat, key: string)
    requires j < n <= |entries|
  {
    forall i :: j < i < n ==> entries[i].id != entries[j].id && !Listed(entries[i], key)
  }

  lemma {:induction false} AliasAfterEntries(s: Shape, entries: seq<Entry>, source: Source, n: nat, j: nat, k: nat,
                                             key: string)
    requires j < n <= |entries| && k < |entries[j].models| && ListedAt(entries[j], k, key)
    requires !ListedLater(entries[j], k, key) && Undisturbed(entries, j, n, key)
    ensures var models := ImportedAll(s, entries, source, n).models;
      key in models && IsAliasOf(models[key], entries[j].id, entries[j].models[k].1)
  {
    if j < n - 1 {
      AliasAfterEntries(s, entries, source, n - 1, j, k, key);
      AliasStaysThrough(ImportedAll(s, entries, source, n - 1), entries[n - 1], source, key, entries[j].id,
                        entries[j].models[k].1);
    } else {
      LastListedIsWritten(entries[j], |entries[j].models|, k, key);
    }
  }

  /** Every model listed is there after an import, under its entry's id and its own key, with its own
      fields, unless that key is listed again or its provider imported again. */
  lemma ImportedModelIsThere(s: Shape, entries: seq<Entry>, source: Source, j: nat, k: nat, key: string)
    requires j < |entries| && k < |entries[j].models| && ListedAt(entries[j], k, key)
    requires !ListedLater(entries[j], k, key) && Undisturbed(entries, j, |entries|, key)
    ensures var models := Import(s, entries, source).models;
      key in models && IsAliasOf(models[key], entries[j].id, entries[j].models[k].1)
  {
    AliasAfterEntries(Without(s, Orphans(s, entries, source.url)), entries, source, |entries|, j, k, key);
  }

  // A provider of the same registry that none of the entries is for.
  predicate Orphaned(s: Shape, entries: seq<Entry>, url: string, id: string) {
    && id in s.providers && s.providers[id].source.Some? && s.providers[id].source.value.url == url
    && forall j :: 0 <= j < |entries| ==> entries[j].id != id
  }

  predicate ImportedBefore(entries: seq<Entry>, n: nat, id: string)
    requires n <= |entries|
  {
    exists j :: 0 <= j < n && entries[j].id == id
  }

  // The alias names a provider that is dropped or imported.
  predicate Displaced(s: Shape, entries: seq<Entry>, url: string, alias: Alias) {
    && alias.Alias? && alias.provider.Some?
    && (Orphaned(s, entries, url, alias.provider.value) || ImportedBefore(entries, |entries|, alias.provider.value))
  }

  predicate NamesImported(entries: seq<Entry>, n: nat, alias: Alias)
    requires n <= |entries|
  {
    alias.Alias? && alias.provider.Some? && ImportedBefore(entries, n, alias.provider.value)
  }

  lemma UnlistedOnce(s: Shape, entry: Entry, source: Source, key: string)
    requires !Listed(entry, key)
    ensures var after := Imported(s, entry, source).models;
      && (key in after <==> key in s.models && !(s.models[key].Alias? && s.models[key].provider == Some(entry.id)))
      && (key in after ==> after[key] == s.models[key])
  {
    ListsWhatIsListed(entry, key);
  }

  lemma {:induction false} UnlistedAfterEntries(s: Shape, entries: seq<Entry>, source: Source, n: nat, key: string)
    requires n <= |entries| && forall j :: 0 <= j < n ==> !Listed(entries[j], key)
    ensures var after := ImportedAll(s, entries, source, n).models;
      && (key in after <==> key in s.models && !NamesImported(entries, n, s.models[key]))
      && (key in after ==> after[key] == s.models[key])
  {
    if 0 < n {
      UnlistedAfterEntries(s, entries, source, n - 1, key);
      UnlistedOnce(ImportedAll(s, entries, source, n - 1), entries[n - 1], source, key);
      ImportedOneMore(entries, n);
    }
  }

  lemma ImportedOneMore(entries: seq<Entry>, n: nat)
    requires 0 < n <= |entries|
    ensures forall id :: ImportedBefore(entries, n, id) <==> ImportedBefore(entries, n - 1, id) || entries[n - 1].id == id
  {
    forall id
      ensures ImportedBefore(entries, n, id) <==> ImportedBefore(entries, n - 1, id) || entries[n - 1].id == id
    {
    }
  }

  lemma OrphansAreOrphaned(s: Shape, entries: seq<Entry>, url: string, id: string)
    ensures id in Orphans(s, entries, url) <==> Orphaned(s, entries, url, id)
  {
    assert id in Ids(entries) <==> exists e :: e in entries && e.id == id;
    if j :| 0 <= j < |entries| && entries[j].id == id {
      assert entries[j] in entries;
    }
  }

  /** A key that no entry lists keeps what it had, except where that names a provider that is dropped or
      imported. */
  lemma UnlistedKeyIsKept(s: Shape, entries: seq<Entry>, source: Source, key: string)
    requires forall j :: 0 <= j < |entries| ==> !Listed(entries[j], key)
    ensures var after := Import(s, entries, source).models;
      && (key in after <==> key in s.models && !Displaced(s, entries, source.url, s.models[key]))
      && (key in after ==> after[key] == s.models[key])
  {
    var orphans := Orphans(s, entries, source.url);
    UnlistedAfterEntries(Without(s, orphans), entries, source, |entries|, key);
    if key in s.models && s.models[key].Alias? && s.models[key].provider.Some? {
      OrphansAreOrphaned(s, entries, source.url, s.models[key].provider.value);
    }
  }

  // ---------- Providers ----------

  predicate IsProviderOf(provider: Provider, entry: Entry, source: Source) {
    && provider.kind == entry.kind && provider.baseUrl == entry.api && provider.apiKey == source.apiKey
    && provider.source == Some(source) && provider.oauth == None
  }

  lemma {:induction false} ProviderAfterEntries(s: Shape, entries: seq<Entry>, source: Source, n: nat, id: string)
    requires n <= |entries|
    ensures var after := ImportedAll(s, entries, source, n).providers;
      if ImportedBefore(entries, n, id) then id in after
      else (id in after <==> id in s.providers) && (id in after ==> after[id] == s.providers[id])
  {
    if 0 < n {
      ProviderAfterEntries(s, entries, source, n - 1, id);
      ImportedOneMore(entries, n);
    }
  }

  lemma {:induction false} RecordAfterEntries(s: Shape, entries: seq<Entry>, source: Source, n: nat, j: nat)
    requires j < n <= |entries| && forall i :: j < i < n ==> entries[i].id != entries[j].id
    ensures var after := ImportedAll(s, entries, source, n).providers;
      entries[j].id in after && IsProviderOf(after[entries[j].id], entries[j], source)
  {
    if j < n - 1 {
      RecordAfterEntries(s, entries, source, n - 1, j);
    }
  }

  /** The record of an imported provider holds its entry's kind and address and the source's key. */
  lemma ImportedProviderIsThere(s: Shape, entries: seq<Entry>, source: Source, j: nat)
    requires j < |entries| && forall i :: j < i < |entries| ==> entries[i].id != entries[j].id
    ensures var after := Import(s, entries, source).providers;
      entries[j].id in after && IsProviderOf(after[entries[j].id], entries[j], source)
  {
    RecordAfterEntries(Without(s, Orphans(s, entries, source.url)), entries, source, |entries|, j);
  }

  /** Of the others, just those of the same registry go; the rest are as they were. */
  lemma OtherProvidersStay(s: Shape, entries: seq<Entry>, source: Source, id: string)
    requires forall j :: 0 <= j < |entries| ==> entries[j].id != id
    ensures var after := Import(s, entries, source).providers;
      && (id in after <==> id in s.providers && !Orphaned(s, entries, source.url, id))
      && (id in after ==> after[id] == s.providers[id])
  {
    ProviderAfterEntries(Without(s, Orphans(s, entries, source.url)), entries, source, |entries|, id);
    OrphansAreOrphaned(s, entries, source.url, id);
  }

  // ---------- The default provider, and what an import never touches ----------

  lemma {:induction false} RestAfterEntries(s: Shape, entries: seq<Entry>, source: Source, n: nat)
    requires n <= |entries| && (s.defaultProvider.Some? ==> s.defaultProvider.value in s.providers)
    ensures var after := ImportedAll(s, entries, source, n);
      && after.defaultThinking == s.defaultThinking && after.services == s.services
      && after.defaultProvider ==
           if s.defaultProvider.Some? && ImportedBefore(entries, n, s.defaultProvider.value) then None
           else s.defaultProvider
  {
    if 0 < n {
      RestAfterEntries(s, entries, source, n - 1);
      ImportedOneMore(entries, n);
      if s.defaultProvider.Some? {
        ProviderAfterEntries(s, entries, source, n - 1, s.defaultProvider.value);
      }
    }
  }

  /** An import forgets the default provider just when it drops or imports it. */
  lemma DefaultProviderAfterImport(s: Shape, entries: seq<Entry>, source: Source)
    requires Intact(s)
    ensures var after := Import(s, entries, source);
      && after.defaultThinking == s.defaultThinking && after.services == s.services
      && after.defaultProvider ==
           if s.defaultProvider.Some?
              && (Orphaned(s, entries, source.url, s.defaultProvider.value)
                  || ImportedBefore(entries, |entries|, s.defaultProvider.value)) then None
           else s.defaultProvider
  {
    var kept := Without(s, Orphans(s, entries, source.url));
    RestAfterEntries(kept, entries, source, |entries|);
    if s.defaultProvider.Some? {
      OrphansAreOrphaned(s, entries, source.url, s.defaultProvider.value);
    }
  }

  // ---------- Removal ----------

  /** A removal takes the provider and what names it, and leaves the rest. */
  lemma RemovalTakesWhatNamesIt(s: Shape, id: string, other: string, key: string)
    requires other != id
    ensures var after := Without(s, {id});
      && id !in after.providers
      && (other in after.providers <==> other in s.providers)
      && (other in s.providers ==> after.providers[other] == s.providers[other])
      && (key in after.models <==> key in s.models && !(s.models[key].Alias? && s.models[key].provider == Some(id)))
      && (key in after.models ==> after.models[key] == s.models[key])
      && (s.defaultModel == Some(key) ==>
            after.defaultModel == if key in s.models && s.models[key].Alias? && s.models[key].provider == Some(id) then None
                                  else Some(key))
      && after.defaultProvider == (if s.defaultProvider == Some(id) then None else s.defaultProvider)
      && after.defaultThinking == s.defaultThinking && after.services == s.services
  {
  }

  // ---------- What a login writes ----------

  predicate OfferedAt(models: seq<ManagedModel>, k: nat, key: string)
    requires k < |models|
  {
    key == "kimi-code/" + models[k].id
  }

  predicate Offered(models: seq<ManagedModel>, key: string) {
    exists k :: 0 <= k < |models| && OfferedAt(models, k, key)
  }

  // The k-th model is the last one offered under this key.
  predicate LastOffered(models: seq<ManagedModel>, k: nat, key: string) {
    k < |models| && OfferedAt(models, k, key) && forall k' :: k < k' < |models| ==> !OfferedAt(models, k', key)
  }

  lemma KeyByName(id: string)
    ensures ManagedKey(id) == "kimi-code/" + id
  {
    assert MANAGED_PLATFORM + "/" == "kimi-code/";
  }

  lemma OfferedByKey(models: seq<ManagedModel>, key: string)
    ensures forall k :: 0 <= k < |models| ==> (OfferedAt(models, k, key) <==> ManagedKey(models[k].id) == key)
    ensures Offered(models, key) <==> exists k :: 0 <= k < |models| && ManagedKey(models[k].id) == key
  {
    forall k | 0 <= k < |models| ensures OfferedAt(models, k, key) <==> ManagedKey(models[k].id) == key {
      KeyByName(models[k].id);
    }
  }

  predicate IsManagedAlias(alias: Alias, model: ManagedModel) {
    && alias.Alias? && alias.provider == Some("managed:kimi-code") && alias.model == model.id
    && alias.contextSize == model.contextLength && alias.capabilities == model.capabilities
    && alias.displayName == model.displayName
  }

  predicate IsService(service: Service, auth: Slot.Stored, path: string) {
    service.baseUrl == auth.baseUrl + path && service.apiKey == "" && service.oauth == auth.ref
  }

  lemma {:induction false} ManagedWritten(models: seq<ManagedModel>, n: nat, k: nat, key: string)
    requires k < n <= |models| && Valid(models) && OfferedAt(models, k, key)
    requires forall k' :: k < k' < n ==> !OfferedAt(models, k', key)
    ensures key in ManagedAliases(models, n) && IsManagedAlias(ManagedAliases(models, n)[key], models[k])
  {
    KeyByName(models[n - 1].id);
    if k < n - 1 {
      ManagedWritten(models, n - 1, k, key);
      assert !OfferedAt(models, n - 1, key);
    }
  }

  /** A login leaves the last model offered under each key, and elsewhere what other providers had. */
  lemma LoginWritesTheModels(s: Shape, models: seq<ManagedModel>, auth: Slot.Stored, preserve: bool, key: string)
    requires Valid(models)
    ensures var after := LoggedIn(s, models, auth, preserve).models;
      && (forall k :: 0 <= k < |models| && LastOffered(models, k, key) ==>
            key in after && IsManagedAlias(after[key], models[k]))
      && (!Offered(models, key) ==>
            && (key in after <==>
                  key in s.models && !(s.models[key].Alias? && s.models[key].provider == Some("managed:kimi-code")))
            && (key in after ==> after[key] == s.models[key]))
  {
    ManagedAliasesAt(models, |models|, key);
    OfferedByKey(models, key);
    forall k | 0 <= k < |models| && LastOffered(models, k, key)
      ensures key in LoggedIn(s, models, auth, preserve).models
      ensures IsManagedAlias(LoggedIn(s, models, auth, preserve).models[key], models[k])
    {
      ManagedWritten(models, |models|, k, key);
    }
  }

  /** The managed provider's record and both services carry the login's address and credential. */
  lemma LoginWritesTheProvider(s: Shape, models: seq<ManagedModel>, auth: Slot.Stored, preserve: bool, other: string)
    requires Valid(models) && other != "managed:kimi-code"
    ensures var after := LoggedIn(s, models, auth, preserve);
      && after.providers.Keys == s.providers.Keys + {"managed:kimi-code"}
      && (other in s.providers ==> after.providers[other] == s.providers[other])
      && var provider := after.providers["managed:kimi-code"];
      && provider.kind == "kimi" && provider.baseUrl == auth.baseUrl && provider.apiKey == ""
      && provider.source == None && provider.oauth == Some(auth.ref)
      && after.services.Keys == {"moonshotSearch", "moonshotFetch"}
      && IsService(after.services["moonshotSearch"], auth, "/search")
      && IsService(after.services["moonshotFetch"], auth, "/fetch")
      && after.defaultProvider == s.defaultProvider
  {
  }

  // The default the caller asks to keep is still there to keep: it is offered, or is another provider's.
  predicate CanKeep(s: Shape, models: seq<ManagedModel>, key: string) {
    || Offered(models, key)
    || (key in s.models && s.models[key].Alias? && s.models[key].provider != Some("managed:kimi-code"))
  }

  predicate Keeps(s: Shape, models: seq<ManagedModel>, preserve: bool) {
    preserve && s.defaultModel.Some? && s.defaultModel.value != "" && CanKeep(s, models, s.defaultModel.value)
  }

  lemma PreservesWhatIsKept(s: Shape, models: seq<ManagedModel>, preserve: bool)
    ensures Preserves(s, models, preserve) <==> Keeps(s, models, preserve)
  {
    if s.defaultModel.Some? {
      OfferedByKey(models, s.defaultModel.value);
    }
  }

  /** A login keeps the default model if and only if it is asked to and the default is still there; it
      takes the first model offered otherwise. */
  lemma LoginKeepsTheDefault(s: Shape, models: seq<ManagedModel>, auth: Slot.Stored, preserve: bool)
    requires Valid(models)
    ensures LoggedIn(s, models, auth, preserve).defaultModel ==
            if Keeps(s, models, preserve) then s.defaultModel else Some("kimi-code/" + models[0].id)
  {
    KeyByName(models[0].id);
    PreservesWhatIsKept(s, models, preserve);
  }

  lemma {:induction false} ModelAtIsLast(models: seq<ManagedModel>, k: nat, key: string)
    requires LastOffered(models, k, key)
    ensures ModelAt(models, key) == Some(models[k])
  {
    KeyByName(models[|models| - 1].id);
    if k < |models| - 1 {
      assert !OfferedAt(models, |models| - 1, key);
      var front := models[..|models| - 1];
      forall k' | k < k' < |front| ensures !OfferedAt(front, k', key) {
        assert !OfferedAt(models, k', key);
      }
      ModelAtIsLast(front, k, key);
    }
  }

  /** Whether the default model thinks: as the model demands, else as it was set, else as the model can. */
  lemma LoginSetsTheThinking(s: Shape, models: seq<ManagedModel>, auth: Slot.Stored, preserve: bool, k: nat)
    requires Valid(models)
    requires Keeps(s, models, preserve) ==> LastOffered(models, k, s.defaultModel.value)
    requires !Keeps(s, models, preserve) ==> k == 0
    ensures LoggedIn(s, models, auth, preserve).defaultThinking == Some(
              match models[k].thinking
              case Only => true
              case No => false
              case _ => if s.defaultThinking.Some? then s.defaultThinking.value else models[k].reasoning)
  {
    PreservesWhatIsKept(s, models, preserve);
    if Keeps(s, models, preserve) {
      ModelAtIsLast(models, k, s.defaultModel.value);
    }
  }

  /** A kept default that is not offered keeps its thinking too, off where none was set. */
  lemma KeptDefaultThinksAsBefore(s: Shape, models: seq<ManagedModel>, auth: Slot.Stored, preserve: bool)
    requires Valid(models) && Keeps(s, models, preserve) && !Offered(models, s.defaultModel.value)
    ensures LoggedIn(s, models, auth, preserve).defaultThinking == Some(s.defaultThinking == Some(true))
  {
    PreservesWhatIsKept(s, models, preserve);
    OfferedByKey(models, s.defaultModel.value);
  }

  /** A logout takes the managed provider, what names it, and the two services, and nothing else. */
  lemma LogoutTakesTheManagedProvider(s: Shape, other: string, key: string, service: string)
    requires other != "managed:kimi-code"
    ensures var after := LoggedOut(s);
      && "managed:kimi-code" !in after.providers
      && (other in after.providers <==> other in s.providers)
      && (other in s.providers ==> after.providers[other] == s.providers[other])
      && (key in after.models <==>
            key in s.models && !(s.models[key].Alias? && s.models[key].provider == Some("managed:kimi-code")))
      && (key in after.models ==> after.models[key] == s.models[key])
      && (s.defaultModel == Some(key) ==>
            after.defaultModel == if key in s.models && s.models[key].Alias?
                                     && s.models[key].provider == Some("managed:kimi-code") then None
                                  else Some(key))
      && after.defaultProvider == (if s.defaultProvider == Some("managed:kimi-code") then None else s.defaultProvider)
      && (service in after.services <==> service in s.services && service !in {"moonshotSearch", "moonshotFetch"})
      && (service in after.services ==> after.services[service] == s.services[service])
  {
    RemovalTakesWhatNamesIt(s, "managed:kimi-code", other, key);
  }
}
