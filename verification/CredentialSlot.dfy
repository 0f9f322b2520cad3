/** Which credential slot a managed login writes to, and which one the runtime reads from. */
module CredentialSlot {
  import opened Options
  import opened WhiteSpace

  const DEFAULT_OAUTH_HOST := "https://auth.kimi.com"
  const DEFAULT_BASE_URL := "https://api.kimi.com/coding/v1"
  const OAUTH_KEY := "oauth/kimi-code"
  const SCOPED_KEY_PREFIX := "oauth/kimi-code-env-"

  datatype Storage = File | Keyring

  datatype OAuthRef = OAuthRef(storage: Storage, key: string, host: Option<string>)

  // A reference as a configuration file may hold it.
  datatype RefInput = RefInput(storage: Option<Storage>, key: Option<string>, host: Option<string>)

  datatype Env = Env(baseUrl: Option<string>, codeHost: Option<string>, host: Option<string>)

  // The digest of a host and a base URL that are not the default ones.
  type Digest = (string, string) -> string

  // ---------- Normal forms ----------

  function StripSlashes(s: string): (r: string)
    ensures r <= s && (r == "" || r[|r| - 1] != '/')
    ensures forall k :: |r| <= k < |s| ==> s[k] == '/'
  {
    if s != "" && s[|s| - 1] == '/' then StripSlashes(s[..|s| - 1]) else s
  }

  function TrimStart(s: string): (r: string)
    ensures |r| <= |s| && (r == "" || !IsWhiteSpace(r[0]))
    ensures s != "" && !IsWhiteSpace(s[0]) ==> r == s
  {
    if s != "" && IsWhiteSpace(s[0]) then TrimStart(s[1..]) else s
  }

  function TrimEnd(s: string): (r: string)
    ensures r <= s && (r == "" || !IsWhiteSpace(r[|r| - 1]))
    ensures s != "" && !IsWhiteSpace(s[|s| - 1]) ==> r == s
  {
    if s != "" && IsWhiteSpace(s[|s| - 1]) then TrimEnd(s[..|s| - 1]) else s
  }

  function NormalizeEndpoint(value: string): string {
    StripSlashes(TrimEnd(TrimStart(value)))
  }

  function Or(value: Option<string>, default_: string): string {
    if value.Some? then value.value else default_
  }

  function DefaultBaseUrl(env: Env, baseUrl: Option<string>): string {
    StripSlashes(Or(baseUrl, Or(env.baseUrl, DEFAULT_BASE_URL)))
  }

  // ---------- References ----------

  function PersistedHost(key: string, host: Option<string>): Option<string> {
    var normalized := NormalizeEndpoint(Or(host, DEFAULT_OAUTH_HOST));
    if key == OAUTH_KEY && normalized == NormalizeEndpoint(DEFAULT_OAUTH_HOST) then None else Some(normalized)
  }

  function ManagedRef(storage: Option<Storage>, key: string, host: Option<string>): OAuthRef {
    OAuthRef(if storage.Some? then storage.value else File, key, PersistedHost(key, host))
  }

  function ConfiguredRef(ref: Option<RefInput>): Option<OAuthRef> {
    if ref.None? || ref.value.key.None? then None
    else Some(ManagedRef(ref.value.storage, ref.value.key.value, ref.value.host))
  }

  // The slot of a host and a base URL in normal form.
  function KeyOf(digest: Digest, host: string, baseUrl: string): string {
    if host == NormalizeEndpoint(DEFAULT_OAUTH_HOST) && baseUrl == NormalizeEndpoint(DEFAULT_BASE_URL) then OAUTH_KEY
    else SCOPED_KEY_PREFIX + digest(host, baseUrl)
  }

  function ResolveKey(digest: Digest, env: Env, host: Option<string>, baseUrl: Option<string>): string {
    KeyOf(digest, NormalizeEndpoint(Or(host, DEFAULT_OAUTH_HOST)), DefaultBaseUrl(env, baseUrl))
  }

  function ResolveRef(digest: Digest, env: Env, host: Option<string>, baseUrl: Option<string>): OAuthRef {
    ManagedRef(None, ResolveKey(digest, env, host, baseUrl), host)
  }

  function EnvHost(env: Env): Option<string> {
    if env.codeHost.Some? then env.codeHost else env.host
  }

  predicate Overrides(env: Env) {
    env.baseUrl.Some? || EnvHost(env).Some?
  }

  function EffectiveBaseUrl(env: Env, configured: Option<string>): Option<string> {
    if env.baseUrl.Some? then Some(StripSlashes(env.baseUrl.value)) else configured
  }

  datatype Auth = Auth(baseUrl: Option<string>, ref: OAuthRef)

  function RuntimeAuth(digest: Digest, env: Env, baseUrl: Option<string>, ref: Option<RefInput>): Auth {
    var base := EffectiveBaseUrl(env, baseUrl);
    var host := if Overrides(env) then EnvHost(env) else if ref.Some? then ref.value.host else None;
    var expected := ResolveRef(digest, env, host, base);
    var configured := ConfiguredRef(ref);
    if configured.None? || Overrides(env) || configured.value.key != expected.key then Auth(base, expected)
    else Auth(base, configured.value)
  }

  datatype LoginAuth = LoginAuth(baseUrl: Option<string>, host: Option<string>, ref: Option<OAuthRef>)

  // A login that asks for no base URL and no host of its own.
  function ResolveLoginAuth(digest: Digest, env: Env, baseUrl: Option<string>, ref: Option<RefInput>): LoginAuth {
    var base, host := EffectiveBaseUrl(env, baseUrl), EnvHost(env);
    var configured := ConfiguredRef(ref);
    if Overrides(env) || configured.None?
      || configured.value.key != ResolveKey(digest, env, configured.value.host, base) then LoginAuth(base, host, None)
    else LoginAuth(base, host, configured)
  }

  // What the provider record holds once the managed configuration is applied without an explicit key.
  datatype Stored = Stored(baseUrl: string, ref: OAuthRef)

  function Applied(digest: Digest, env: Env, baseUrl: Option<string>, host: Option<string>): Stored {
    var base := DefaultBaseUrl(env, baseUrl);
    Stored(base, ResolveRef(digest, env, host, Some(base)))
  }

  function AsInput(ref: OAuthRef): RefInput {
    RefInput(Some(ref.storage), Some(ref.key), ref.host)
  }

  function ReadBack(digest: Digest, env: Env, stored: Stored): Auth {
    RuntimeAuth(digest, env, Some(stored.baseUrl), Some(AsInput(stored.ref)))
  }

  // ---------- When normalizing once is enough ----------

  /** What is left of the host after one pass does not end in white space. */
  predicate Settled(host: Option<string>) {
    EndsClean(NormalizeEndpoint(Or(host, DEFAULT_OAUTH_HOST)))
  }

  predicate EndsClean(s: string) {
    s == "" || !IsWhiteSpace(s[|s| - 1])
  }

  lemma StrippedIsFixed(s: string)
    ensures StripSlashes(StripSlashes(s)) == StripSlashes(s)
  {
  }

  lemma NormalIsFixed(s: string)
    requires s == "" || (!IsWhiteSpace(s[0]) && !IsWhiteSpace(s[|s| - 1]) && s[|s| - 1] != '/')
    ensures NormalizeEndpoint(s) == s
  {
  }

  lemma DefaultsAreNormal()
    ensures NormalizeEndpoint(DEFAULT_OAUTH_HOST) == DEFAULT_OAUTH_HOST
    ensures NormalizeEndpoint(DEFAULT_BASE_URL) == DEFAULT_BASE_URL
    ensures StripSlashes(DEFAULT_BASE_URL) == DEFAULT_BASE_URL
  {
    NormalIsFixed(DEFAULT_OAUTH_HOST);
    NormalIsFixed(DEFAULT_BASE_URL);
  }

  lemma SpaceAtEndGoes(s: string)
    requires s != "" && IsWhiteSpace(s[|s| - 1])
    ensures |NormalizeEndpoint(s)| < |s|
  {
  }

  lemma NormalStart(s: string)
    ensures NormalizeEndpoint(s) == "" || (!IsWhiteSpace(NormalizeEndpoint(s)[0])
      && NormalizeEndpoint(s)[|NormalizeEndpoint(s)| - 1] != '/')
  {
    var started := TrimStart(s);
    var trimmed := TrimEnd(started);
    assert trimmed != "" ==> trimmed[0] == started[0];
  }

  lemma TwiceIsOnce(value: string)
    ensures var h := NormalizeEndpoint(value); NormalizeEndpoint(h) == h <==> EndsClean(h)
  {
    var h := NormalizeEndpoint(value);
    NormalStart(value);
    if EndsClean(h) {
      NormalIsFixed(h);
    } else {
      SpaceAtEndGoes(h);
    }
  }

  lemma ScopedKeyIsNotDefault(d: string)
    ensures SCOPED_KEY_PREFIX + d != OAUTH_KEY
  {
    assert |SCOPED_KEY_PREFIX + d| > |OAUTH_KEY|;
  }

  // ---------- The slot written is the slot read ----------

  const NO_ENV := Env(None, None, None)

  lemma KeyOfDefault(digest: Digest, host: string, baseUrl: string)
    requires KeyOf(digest, host, baseUrl) == OAUTH_KEY
    ensures host == DEFAULT_OAUTH_HOST
  {
    DefaultsAreNormal();
    ScopedKeyIsNotDefault(digest(host, baseUrl));
  }

  // The host a reference stands for once it is stored.
  lemma PersistedHostStandsFor(key: string, host: Option<string>)
    ensures NormalizeEndpoint(Or(PersistedHost(key, host), DEFAULT_OAUTH_HOST))
      == NormalizeEndpoint(NormalizeEndpoint(Or(host, DEFAULT_OAUTH_HOST)))
  {
    DefaultsAreNormal();
  }

  // Without an override the stored key is kept if it is the one the stored host calls for.
  lemma ReadBackUnfolds(digest: Digest, stored: Stored)
    ensures var key := ResolveKey(digest, NO_ENV, stored.ref.host, Some(stored.baseUrl));
      ReadBack(digest, NO_ENV, stored) == Auth(Some(stored.baseUrl),
        ManagedRef(if key == stored.ref.key then Some(stored.ref.storage) else None, key, stored.ref.host))
  {
  }

  // The runtime reads from the slot of the host normalized twice.
  lemma ReadBackKey(digest: Digest, baseUrl: Option<string>, host: Option<string>)
    ensures var stored, h := Applied(digest, NO_ENV, baseUrl, host), NormalizeEndpoint(Or(host, DEFAULT_OAUTH_HOST));
      var read := ReadBack(digest, NO_ENV, stored);
      && stored.ref.key == KeyOf(digest, h, stored.baseUrl)
      && read.baseUrl == Some(stored.baseUrl) && read.ref.key == KeyOf(digest, NormalizeEndpoint(h), stored.baseUrl)
      && read.ref == OAuthRef(File, read.ref.key, PersistedHost(read.ref.key, stored.ref.host))
  {
    var stored := Applied(digest, NO_ENV, baseUrl, host);
    ReadBackUnfolds(digest, stored);
    StrippedIsFixed(Or(baseUrl, DEFAULT_BASE_URL));
    PersistedHostStandsFor(stored.ref.key, host);
  }

  lemma ReadsItsSlotIfFixed(digest: Digest, baseUrl: Option<string>, host: Option<string>)
    ensures var stored, h := Applied(digest, NO_ENV, baseUrl, host), NormalizeEndpoint(Or(host, DEFAULT_OAUTH_HOST));
      ReadBack(digest, NO_ENV, stored) == Auth(Some(stored.baseUrl), stored.ref) <==> NormalizeEndpoint(h) == h
  {
    var stored := Applied(digest, NO_ENV, baseUrl, host);
    ReadBackKey(digest, baseUrl, host);
    DefaultsAreNormal();
    if stored.ref.key == OAUTH_KEY {
      KeyOfDefault(digest, NormalizeEndpoint(Or(host, DEFAULT_OAUTH_HOST)), stored.baseUrl);
    }
  }

  /** For every digest, what the runtime resolves from the stored provider is the stored reference and
      base URL, exactly when one normalization of the host is enough. */
  lemma SlotReadIsSlotWritten(digest: Digest, baseUrl: Option<string>, host: Option<string>)
    ensures var stored := Applied(digest, NO_ENV, baseUrl, host);
      ReadBack(digest, NO_ENV, stored) == Auth(Some(stored.baseUrl), stored.ref) <==> Settled(host)
  {
    ReadsItsSlotIfFixed(digest, baseUrl, host);
    TwiceIsOnce(Or(host, DEFAULT_OAUTH_HOST));
  }

  lemma DigestOfKey(d: string, d': string)
    requires SCOPED_KEY_PREFIX + d == SCOPED_KEY_PREFIX + d'
    ensures d == d'
  {
    assert (SCOPED_KEY_PREFIX + d)[|SCOPED_KEY_PREFIX|..] == d;
    assert (SCOPED_KEY_PREFIX + d')[|SCOPED_KEY_PREFIX|..] == d';
  }

  // An unsettled host and what becomes of it are in different slots.
  lemma KeysDiffer(digest: Digest, host: string, baseUrl: string)
    requires NormalizeEndpoint(host) != host && digest(host, baseUrl) != digest(NormalizeEndpoint(host), baseUrl)
    ensures KeyOf(digest, host, baseUrl) != KeyOf(digest, NormalizeEndpoint(host), baseUrl)
  {
    DefaultsAreNormal();
    ScopedKeyIsNotDefault(digest(host, baseUrl));
    ScopedKeyIsNotDefault(digest(NormalizeEndpoint(host), baseUrl));
    if SCOPED_KEY_PREFIX + digest(host, baseUrl) == SCOPED_KEY_PREFIX + digest(NormalizeEndpoint(host), baseUrl) {
      DigestOfKey(digest(host, baseUrl), digest(NormalizeEndpoint(host), baseUrl));
    }
  }

  /** Otherwise the credential is looked up in another slot than it was written to, unless the two
      hosts share a digest. */
  lemma UnsettledHostMissesItsSlot(digest: Digest, baseUrl: Option<string>, host: Option<string>)
    requires !Settled(host)
    requires var h := NormalizeEndpoint(Or(host, DEFAULT_OAUTH_HOST));
      var b := DefaultBaseUrl(NO_ENV, baseUrl); digest(h, b) != digest(NormalizeEndpoint(h), b)
    ensures var stored := Applied(digest, NO_ENV, baseUrl, host);
      ReadBack(digest, NO_ENV, stored).ref.key != stored.ref.key
  {
    var h, b := NormalizeEndpoint(Or(host, DEFAULT_OAUTH_HOST)), DefaultBaseUrl(NO_ENV, baseUrl);
    ReadBackKey(digest, baseUrl, host);
    TwiceIsOnce(Or(host, DEFAULT_OAUTH_HOST));
    KeysDiffer(digest, h, b);
  }

  // A blank before the final slash is such a host.
  lemma BlankBeforeSlash()
    ensures NormalizeEndpoint("h /") == "h " && !Settled(Some("h /"))
  {
    assert TrimEnd(TrimStart("h /")) == "h /";
    assert "h /"[..2] == "h ";
    assert StripSlashes("h /") == StripSlashes("h ") == "h ";
  }

  /** Under an environment override, what a login stores is what the runtime resolves as long as the
      environment stays: for every host, every digest, and whatever was configured before. */
  lemma EnvironmentKeepsItsSlot(digest: Digest, env: Env, baseUrl: Option<string>, ref: Option<RefInput>)
    requires Overrides(env)
    ensures var login := ResolveLoginAuth(digest, env, baseUrl, ref);
      var stored := Applied(digest, env, login.baseUrl, login.host);
      login.ref == None && ReadBack(digest, env, stored) == Auth(Some(stored.baseUrl), stored.ref)
  {
    var login := ResolveLoginAuth(digest, env, baseUrl, ref);
    StrippedIsFixed(Or(login.baseUrl, Or(env.baseUrl, DEFAULT_BASE_URL)));
  }

  // The slots a login and the runtime take a configured reference to call for.
  lemma LoginAndRuntimeKeys(digest: Digest, baseUrl: Option<string>, ref: RefInput)
    requires ref.key.Some?
    ensures var login := ResolveLoginAuth(digest, NO_ENV, baseUrl, Some(ref));
      var runtime := RuntimeAuth(digest, NO_ENV, baseUrl, Some(ref));
      var h, b := NormalizeEndpoint(Or(ref.host, DEFAULT_OAUTH_HOST)), DefaultBaseUrl(NO_ENV, baseUrl);
      && login.baseUrl == runtime.baseUrl
      && runtime.ref.key == KeyOf(digest, h, b)
      && (runtime.ref.key == ref.key.value ==> Some(runtime.ref) == ConfiguredRef(Some(ref)))
      && login.ref == if KeyOf(digest, NormalizeEndpoint(h), b) == ref.key.value then ConfiguredRef(Some(ref)) else None
  {
    PersistedHostStandsFor(ref.key.value, ref.host);
  }

  /** A later login reuses the configured slot exactly when the runtime reads from it, if the host is
      settled.  Otherwise the login forgets a slot the runtime reads from, unless the digests collide. */
  lemma LoginAgreesWithRuntime(digest: Digest, baseUrl: Option<string>, ref: RefInput)
    requires ref.key.Some?
    ensures var login := ResolveLoginAuth(digest, NO_ENV, baseUrl, Some(ref));
      var runtime := RuntimeAuth(digest, NO_ENV, baseUrl, Some(ref));
      var h, b := NormalizeEndpoint(Or(ref.host, DEFAULT_OAUTH_HOST)), DefaultBaseUrl(NO_ENV, baseUrl);
      && login.baseUrl == runtime.baseUrl
      && (Settled(ref.host) ==>
            if runtime.ref.key == ref.key.value then login.ref == Some(runtime.ref) else login.ref == None)
      && (!Settled(ref.host) && runtime.ref.key == ref.key.value && digest(h, b) != digest(NormalizeEndpoint(h), b) ==>
            login.ref == None)
  {
    var h, b := NormalizeEndpoint(Or(ref.host, DEFAULT_OAUTH_HOST)), DefaultBaseUrl(NO_ENV, baseUrl);
    LoginAndRuntimeKeys(digest, baseUrl, ref);
    TwiceIsOnce(Or(ref.host, DEFAULT_OAUTH_HOST));
    if !Settled(ref.host) && digest(h, b) != digest(NormalizeEndpoint(h), b) {
      KeysDiffer(digest, h, b);
    }
  }
}
