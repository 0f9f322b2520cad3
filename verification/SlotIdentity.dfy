/** Which environments share a credential slot. */
module SlotIdentity {
  import opened Options
  import opened WhiteSpace
  import opened CredentialSlot

  predicate White(s: string) {
    forall c <- s :: IsWhiteSpace(c)
  }

  predicate Slashes(s: string) {
    forall c <- s :: c == '/'
  }

  lemma {:induction false} TrimStartByParts(s: string) returns (lead: string)
    ensures s == lead + TrimStart(s) && White(lead)
  {
    if s != "" && IsWhiteSpace(s[0]) {
      lead := TrimStartByParts(s[1..]);
      lead := [s[0]] + lead;
      assert s == [s[0]] + s[1..];
    } else {
      lead := "";
    }
  }

  lemma {:induction false} TrimEndByParts(s: string) returns (tail: string)
    ensures s == TrimEnd(s) + tail && White(tail)
  {
    if s != "" && IsWhiteSpace(s[|s| - 1]) {
      tail := TrimEndByParts(s[..|s| - 1]);
      tail := tail + [s[|s| - 1]];
      assert s == s[..|s| - 1] + [s[|s| - 1]];
    } else {
      tail := "";
    }
  }

  lemma {:induction false} StripByParts(s: string) returns (slashes: string)
    ensures s == StripSlashes(s) + slashes && Slashes(slashes)
  {
    slashes := s[|StripSlashes(s)|..];
  }

  lemma StartOfTrimmed(s: string)
    ensures TrimEnd(TrimStart(s)) != "" ==> !IsWhiteSpace(TrimEnd(TrimStart(s))[0])
  {
    var started := TrimStart(s);
    assert TrimEnd(started) != "" ==> TrimEnd(started)[0] == started[0];
  }

  /** An endpoint is its normal form between white space, and slashes before the white space at its end;
      the normal form does not end in a slash, and white space touches neither it nor the slashes. */
  lemma NormalFormByParts(value: string) returns (lead: string, slashes: string, tail: string)
    ensures value == lead + NormalizeEndpoint(value) + slashes + tail
    ensures White(lead) && White(tail) && Slashes(slashes)
    ensures NormalizeEndpoint(value) != "" ==> NormalizeEndpoint(value)[|NormalizeEndpoint(value)| - 1] != '/'
    ensures var body := NormalizeEndpoint(value) + slashes;
      body != "" ==> !IsWhiteSpace(body[0]) && !IsWhiteSpace(body[|body| - 1])
  {
    lead := TrimStartByParts(value);
    tail := TrimEndByParts(TrimStart(value));
    slashes := StripByParts(TrimEnd(TrimStart(value)));
    StartOfTrimmed(value);
    Reassociate(lead, NormalizeEndpoint(value), slashes, tail);
  }

  lemma Reassociate(a: string, b: string, c: string, d: string)
    ensures a + ((b + c) + d) == a + b + c + d
  {
  }

  predicate InNormalForm(s: string) {
    s == "" || (!IsWhiteSpace(s[0]) && !IsWhiteSpace(s[|s| - 1]) && s[|s| - 1] != '/')
  }

  predicate IsDefault(host: string, baseUrl: string) {
    host == "https://auth.kimi.com" && baseUrl == "https://api.kimi.com/coding/v1"
  }

  lemma KeyByEnvironment(digest: Digest, host: string, baseUrl: string)
    ensures KeyOf(digest, host, baseUrl) ==
            if IsDefault(host, baseUrl) then "oauth/kimi-code" else "oauth/kimi-code-env-" + digest(host, baseUrl)
  {
    DefaultsAreNormal();
  }

  /** Two pairs of a host and a base URL share a slot only if they are the same pair, or neither is the
      default one and their digests collide. */
  lemma SlotsAreShared(digest: Digest, host: string, baseUrl: string, host': string, baseUrl': string)
    requires InNormalForm(host) && InNormalForm(host')
    requires (baseUrl == "" || baseUrl[|baseUrl| - 1] != '/') && (baseUrl' == "" || baseUrl'[|baseUrl'| - 1] != '/')
    ensures ResolveKey(digest, NO_ENV, Some(host), Some(baseUrl)) == ResolveKey(digest, NO_ENV, Some(host'), Some(baseUrl'))
      <==> (host == host' && baseUrl == baseUrl')
           || (&& !IsDefault(host, baseUrl) && !IsDefault(host', baseUrl')
               && digest(host, baseUrl) == digest(host', baseUrl'))
  {
    NormalIsFixed(host);
    NormalIsFixed(host');
    var d, d' := digest(host, baseUrl), digest(host', baseUrl');
    KeyByEnvironment(digest, host, baseUrl);
    KeyByEnvironment(digest, host', baseUrl');
    ScopedKeys(d, d');
  }

  lemma ScopedKeys(d: string, d': string)
    ensures "oauth/kimi-code-env-" + d != "oauth/kimi-code" && "oauth/kimi-code-env-" + d' != "oauth/kimi-code"
    ensures "oauth/kimi-code-env-" + d == "oauth/kimi-code-env-" + d' <==> d == d'
  {
    ScopedKeyIsNotDefault(d);
    ScopedKeyIsNotDefault(d');
    if SCOPED_KEY_PREFIX + d == SCOPED_KEY_PREFIX + d' {
      DigestOfKey(d, d');
    }
  }

  /** A reference leaves its host out just when it names the default slot; the host it keeps is the one
      asked for, in normal form. */
  lemma HostIsKept(digest: Digest, host: Option<string>, baseUrl: string)
    ensures var ref := ResolveRef(digest, NO_ENV, host, Some(baseUrl));
      var normal := NormalizeEndpoint(if host.Some? then host.value else "https://auth.kimi.com");
      && ref.storage == File
      && ref.host == if IsDefault(normal, StripSlashes(baseUrl)) then None else Some(normal)
  {
    var normal := NormalizeEndpoint(Or(host, DEFAULT_OAUTH_HOST));
    KeyByEnvironment(digest, normal, StripSlashes(baseUrl));
    ScopedKeyIsNotDefault(digest(normal, StripSlashes(baseUrl)));
    DefaultsAreNormal();
  }

  /** An override decides the slot alone: the host is the one for this program, else the one for all, else
      the default; and the base URL is the environment's, else the configured one, else the default. */
  lemma OverrideDecides(digest: Digest, env: Env, baseUrl: Option<string>, ref: Option<RefInput>)
    requires env.baseUrl.Some? || env.codeHost.Some? || env.host.Some?
    ensures RuntimeAuth(digest, env, baseUrl, ref).ref.key ==
      KeyOf(digest,
        NormalizeEndpoint(if env.codeHost.Some? then env.codeHost.value
                          else if env.host.Some? then env.host.value else "https://auth.kimi.com"),
        StripSlashes(if env.baseUrl.Some? then env.baseUrl.value
                     else if baseUrl.Some? then baseUrl.value else "https://api.kimi.com/coding/v1"))
  {
    if env.baseUrl.Some? {
      StrippedIsFixed(env.baseUrl.value);
    }
  }
}
