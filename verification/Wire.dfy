/** The API client: its two caches, and the requests it sends. Every reply is
    whatever the other side pleases; the ghost trace records the conversation. */
module Wire {
  import opened Text
  import opened Platform

  datatype CachedToken = CachedToken(value: string, expiresAt: int)

  /** An Argon2id key, ideally: a function of version, secret and salt, and of nothing else. */
  datatype UnwrapKey = Derived(version: int, secret: string, salt: string)

  // ---- the unwrap key ----

  predicate SaltChar(c: char) {
    'a' <= c <= 'z' || 'A' <= c <= 'Z' || '0' <= c <= '9' || c == '-' || c == '_'
  }

  /** Go's decoder skips line breaks. */
  function SkipBreaks(s: string): string {
    if s == "" then "" else (if s[0] == '\r' || s[0] == '\n' then "" else [s[0]]) + SkipBreaks(s[1..])
  }

  /** `base64.RawURLEncoding.DecodeString`, ideally: the text without line breaks. */
  function DecodeSalt(s: string): Option<string> {
    var t := SkipBreaks(s);
    if (forall c :: c in t ==> SaltChar(c)) && |t| % 4 != 1 then Some(t) else None
  }

  datatype Derivation = Derivation(secret: string, salt: string, version: int)

  /** What is hashed into the cache key; the digest itself is ideal. */
  function CacheKey(d: Derivation): string { d.secret + ":" + d.salt }

  /** A derivation that does not use the cache. `versions` are the KDF versions known. */
  function Fresh(d: Derivation, versions: set<int>): Result<UnwrapKey> {
    match DecodeSalt(d.salt)
    case None => Err(Wrapped("invalid KDF salt encoding", Other("illegal base64 data")))
    case Some(salt) =>
      if d.version in versions then Ok(Derived(d.version, d.secret, salt)) else Err(Other("unknown KDF version"))
  }

  /** The answer given with a cache. */
  function Cached(d: Derivation, cache: map<string, UnwrapKey>, versions: set<int>): Result<UnwrapKey> {
    if CacheKey(d) in cache then Ok(cache[CacheKey(d)]) else Fresh(d, versions)
  }

  /** The cache afterwards. */
  function Remember(d: Derivation, cache: map<string, UnwrapKey>, versions: set<int>): map<string, UnwrapKey> {
    if CacheKey(d) !in cache && Fresh(d, versions).Ok? then cache[CacheKey(d) := Fresh(d, versions).value] else cache
  }

  class Client {
    var tokens: map<string, CachedToken>
    var unwrapKey: map<string, UnwrapKey>
    const versions: set<int>
    ghost var trace: seq<Event>

    constructor (versions: set<int>)
      ensures tokens == map[] && unwrapKey == map[] && trace == [] && this.versions == versions
    {
      tokens, unwrapKey, trace := map[], map[], [];
      this.versions := versions;
    }

    /** The network: any reply at all. */
    method Send(request: Request) returns (reply: Reply)
      modifies this`trace
      ensures trace == old(trace) + [Http(request, reply)]
    {
      reply := *;
      trace := trace + [Http(request, reply)];
    }

    /** A provider: it may refuse, or do what it is asked. */
    method CallProvider(provider: int, action: int, work: WorkContext) returns (outcome: ProviderReply)
      modifies this`trace
      ensures trace == old(trace) + [Provider(provider, action, work, outcome)]
    {
      outcome := *;
      trace := trace + [Provider(provider, action, work, outcome)];
    }

    /** Deriving what is sent in place of the client secret may fail. */
    method AuthSecret() returns (error: Option<Error>)
      modifies this`trace
      ensures error == None ==> trace == old(trace)
      ensures error.Some? ==> trace == old(trace) + [AuthFailed(error.value)]
    {
      error := *;
      if error.Some? {
        trace := trace + [AuthFailed(error.value)];
      }
    }

    /** Sealing may fail, but never makes anything else than the sealed text. */
    method Seal(orgKey: Key, orgKeyId: string, plain: Plaintext, context: Context) returns (r: Result<Envelope>)
      modifies this`trace
      ensures r.Ok? ==> r.value == Sealed(orgKey, orgKeyId, plain, context) && trace == old(trace)
      ensures r.Err? ==> trace == old(trace) + [SealFailed(r.error)]
    {
      var fault: Option<Error> := *;
      if fault.Some? {
        trace := trace + [SealFailed(fault.value)];
        return Err(fault.value);
      }
      return Ok(Sealed(orgKey, orgKeyId, plain, context));
    }

    /** Cached while it has more than a minute left, else exchanged and stored. `now` and
        `later` are what the clock says before and after. */
    method Token(creds: Credentials) returns (r: Result<string>, ghost t: seq<Event>, ghost now: int, ghost later: int)
      modifies this`tokens, this`trace
      ensures trace == old(trace) + t
      ensures t == [] <==> creds.clientId in old(tokens) && old(tokens)[creds.clientId].expiresAt - now > 60
      ensures t == [] ==> tokens == old(tokens) && r == Ok(tokens[creds.clientId].value)
      ensures t != [] ==> |t| == 1 && (t[0].AuthFailed? || (t[0].Http? && t[0].request == PostToken(creds.clientId)))
      ensures r.Err? <==> t != [] && Complaint(t[0]).Some?
      ensures r.Err? ==> Complaint(t[0]) == Some(r.error) && tokens == old(tokens)
      ensures t != [] && r.Ok? ==>
                t[0].Http? && r.value == t[0].reply.payload.token
                && tokens == old(tokens)[creds.clientId := CachedToken(r.value,
                                                                       later + t[0].reply.payload.expiresInSeconds)]
    {
      var clock: int := *;
      now, later, t := clock, clock, [];
      if creds.clientId in tokens && tokens[creds.clientId].expiresAt - clock > 60 {
        return Ok(tokens[creds.clientId].value), [], now, later;
      }
      var auth := AuthSecret();
      if auth.Some? {
        return Err(auth.value), [AuthFailed(auth.value)], now, later;
      }
      var reply := Send(PostToken(creds.clientId));
      t := [Http(PostToken(creds.clientId), reply)];
      match reply {
        case Failure(e) => r := Err(e);
        case Success(TokenBody(token, seconds)) =>
          clock := *;
          later := clock;
          tokens := tokens[creds.clientId := CachedToken(token, clock + seconds)];
          r := Ok(token);
        case Success(_) => r := Err(Wrapped("decoding token", DecodingError()));
      }
    }

    method Invalidate(clientId: string)
      modifies this`tokens
      ensures tokens == old(tokens) - {clientId}
    {
      tokens := tokens - {clientId};
    }

    /** One authenticated request. A 401 drops the cached token, so that the next
        pass has to authenticate again. */
    method Do(creds: Credentials, request: Request) returns (reply: Reply)
      modifies this`tokens, this`trace
      ensures trace == old(trace) + [Http(request, reply)]
      ensures reply == Failure(ApiError(STATUS_UNAUTHORIZED)) ==> tokens == old(tokens) - {creds.clientId}
      ensures reply != Failure(ApiError(STATUS_UNAUTHORIZED)) ==> tokens == old(tokens)
    {
      reply := Send(request);
      if reply == Failure(ApiError(STATUS_UNAUTHORIZED)) {
        Invalidate(creds.clientId);
      }
    }

    /** Looks up, else derives and stores; the mutex is released in between. */
    method DeriveUnwrapKey(creds: Credentials, keys: MachineKeys) returns (r: Result<UnwrapKey>)
      modifies this`unwrapKey
      ensures var d := Derivation(creds.clientSecret, keys.kdfSalt, keys.kdfVersion);
              r == Cached(d, old(unwrapKey), versions) && unwrapKey == Remember(d, old(unwrapKey), versions)
    {
      var cacheKey := creds.clientSecret + ":" + keys.kdfSalt;
      if cacheKey in unwrapKey {
        return Ok(unwrapKey[cacheKey]);
      }
      var salt := DecodeSalt(keys.kdfSalt);
      if salt == None {
        return Err(Wrapped("invalid KDF salt encoding", Other("illegal base64 data")));
      }
      if keys.kdfVersion !in versions {
        return Err(Other("unknown KDF version"));
      }
      var derived := Derived(keys.kdfVersion, creds.clientSecret, salt.value);
      unwrapKey := unwrapKey[cacheKey := derived];
      return Ok(derived);
    }

    /** The rest of the chain is the sealed-box library: any key, or a failure. */
    method OpenOrgKey(creds: Credentials, keys: MachineKeys, wrapped: string) returns (r: Result<Key>)
      modifies this`unwrapKey, this`trace
      ensures trace == old(trace) + [Unsealing(wrapped, r)]
      ensures var unwrap := Cached(Derivation(creds.clientSecret, keys.kdfSalt, keys.kdfVersion), old(unwrapKey),
                                   versions);
              unwrap.Err? ==> r == Err(unwrap.error)
    {
      var unwrap := DeriveUnwrapKey(creds, keys);
      if unwrap.Err? {
        r := Err(unwrap.error);
      } else {
        r := *;
      }
      trace := trace + [Unsealing(wrapped, r)];
    }

    method MachineKeys(creds: Credentials) returns (r: Result<MachineKeys>, ghost t: seq<Event>)
      modifies this`tokens, this`trace
      ensures trace == old(trace) + t && |t| == 1 && t[0].Http? && t[0].request == GetKeys
      ensures match r
              case Ok(keys) => t[0].reply == Success(KeysBody(keys))
              case Err(error) => Complaint(t[0]) == Some(error)
    {
      var reply := Do(creds, GetKeys);
      t := [Http(GetKeys, reply)];
      match reply {
        case Failure(e) => r := Err(Wrapped("fetching machine keys", e));
        case Success(KeysBody(keys)) => r := Ok(keys);
        case Success(_) => r := Err(Wrapped("fetching machine keys", DecodingError()));
      }
    }
  }

  // ---- the bundle ----

  /** One entry's value. */
  function EntryValue(orgKey: Key, e: BundleEntry): Option<string> {
    match Open(orgKey, e.envelope, SecretContext(e.definitionId, e.environmentId))
    case None => None
    case Some(p) => Some(p.text)
  }

  /** The pairs of the entries, a later entry winning over an earlier one with its key. */
  function Pairs(orgKey: Key, entries: seq<BundleEntry>): Bundle
    requires AllOpen(orgKey, entries)
  {
    if entries == [] then map[]
    else
      var last := entries[|entries| - 1];
      Pairs(orgKey, entries[..|entries| - 1])[last.key := EntryValue(orgKey, last).value]
  }

  /** The first entry that does not open. */
  ghost predicate ShutFirst(orgKey: Key, entries: seq<BundleEntry>, i: int) {
    0 <= i < |entries| && EntryValue(orgKey, entries[i]) == None
    && forall j :: 0 <= j < i ==> EntryValue(orgKey, entries[j]).Some?
  }

  function DecryptError(e: BundleEntry): Error { Wrapped("decrypt", Other(e.key)) }

  /** All or nothing: one envelope that does not open fails the whole bundle. */
  method Decrypt(orgKey: Key, entries: seq<BundleEntry>) returns (r: Result<Bundle>)
    ensures r.Ok? <==> forall i :: 0 <= i < |entries| ==> EntryValue(orgKey, entries[i]).Some?
    ensures r.Ok? ==> r.value == Pairs(orgKey, entries)
    ensures r.Err? ==>
              exists i :: 0 <= i < |entries| && ShutFirst(orgKey, entries, i) && r.error == DecryptError(entries[i])
  {
    var pairs: Bundle := map[];
    for i := 0 to |entries|
      invariant forall j :: 0 <= j < i ==> EntryValue(orgKey, entries[j]).Some?
      invariant pairs == Pairs(orgKey, entries[..i])
    {
      var entry := entries[i];
      assert entries[..i + 1][..i] == entries[..i];
      var plaintext := Open(orgKey, entry.envelope, SecretContext(entry.definitionId, entry.environmentId));
      if plaintext == None {
        assert ShutFirst(orgKey, entries, i);
        return Err(DecryptError(entry));
      }
      pairs := pairs[entry.key := plaintext.value.text];
    }
    assert entries[..|entries|] == entries;
    return Ok(pairs);
  }

  /** Each key of the bundle has the value of its last entry. */
  lemma {:induction false} PairsAreLast(orgKey: Key, entries: seq<BundleEntry>, i: nat)
    requires forall j :: 0 <= j < |entries| ==> EntryValue(orgKey, entries[j]).Some?
    requires i < |entries| && forall j :: i < j < |entries| ==> entries[j].key != entries[i].key
    ensures entries[i].key in Pairs(orgKey, entries)
    ensures Pairs(orgKey, entries)[entries[i].key] == EntryValue(orgKey, entries[i]).value
  {
    if i < |entries| - 1 {
      PairsAreLast(orgKey, entries[..|entries| - 1], i);
    }
  }

  lemma {:induction false} PairsKeys(orgKey: Key, entries: seq<BundleEntry>, k: string)
    requires forall j :: 0 <= j < |entries| ==> EntryValue(orgKey, entries[j]).Some?
    ensures k in Pairs(orgKey, entries) <==> exists i :: 0 <= i < |entries| && entries[i].key == k
  {
    if entries != [] {
      PairsKeys(orgKey, entries[..|entries| - 1], k);
      if k in Pairs(orgKey, entries[..|entries| - 1]) {
        var i :| 0 <= i < |entries| - 1 && entries[..|entries| - 1][i].key == k;
        assert entries[i].key == k;
      }
      assert forall i :: 0 <= i < |entries| - 1 ==> entries[i] == entries[..|entries| - 1][i];
    }
  }

  /** Nothing but what a fetch asks for. */
  ghost predicate OnlyFetching(t: seq<Event>) {
    forall e :: e in t ==> IsFetching(e)
  }

  predicate IsFetching(e: Event) {
    match e
    case Http(request, _) => request.PostToken? || request.GetKeys? || request.GetBundle?
    case Provider(_, _, _, _) => false
    case Unsealing(_, _) => true
    case SealFailed(_) => false
    case AuthFailed(_) => true
  }

  /** The conversation ends with the bundle, and the key to it. */
  ghost predicate BundleServed(t: seq<Event>, project: string, environment: string, bundle: CipherBundle, orgKey: Key) {
    |t| >= 2
    && t[|t| - 2] == Http(GetBundle(project, environment), Success(BundleBody(bundle)))
    && t[|t| - 1] == Unsealing(bundle.wrappedOrgKey, Ok(orgKey))
  }

  /** What a fetch comes to: the pairs of every entry of the bundle that was served; or the
      error of the last thing that was asked for; or that of the first entry that does not open. */
  ghost predicate FetchEnds(t: seq<Event>, project: string, environment: string, orgKey: Key, r: Result<Bundle>) {
    match r
    case Ok(pairs) =>
      exists bundle :: BundleServed(t, project, environment, bundle, orgKey)
                       && AllOpen(orgKey, bundle.secrets) && pairs == Pairs(orgKey, bundle.secrets)
    case Err(error) => FetchBroke(t, project, environment, error)
  }

  ghost predicate FetchBroke(t: seq<Event>, project: string, environment: string, error: Error) {
    t != []
    && (Complaint(t[|t| - 1]) == Some(error)
        || exists bundle, orgKey, i ::
             BundleServed(t, project, environment, bundle, orgKey)
             && ShutFirst(orgKey, bundle.secrets, i) && error == DecryptError(bundle.secrets[i]))
  }

  ghost predicate AllOpen(orgKey: Key, entries: seq<BundleEntry>) {
    forall i :: 0 <= i < |entries| ==> EntryValue(orgKey, entries[i]).Some?
  }

  /** `Fetch`: token, keys, bundle, and the whole bundle decrypted. */
  method Fetch(c: Client, creds: Credentials, project: string, environment: string)
    returns (r: Result<Bundle>, ghost t: seq<Event>, ghost orgKey: Key)
    modifies c
    ensures c.trace == old(c.trace) + t && OnlyFetching(t)
    ensures FetchEnds(t, project, environment, orgKey, r)
  {
    hide Complaint, EntryValue, DecryptError;
    orgKey := 0;
    ghost var now, later;
    var token: Result<string>;
    token, t, now, later := c.Token(creds);
    if token.Err? {
      return Err(token.error), t, orgKey;
    }
    ghost var tKeys;
    var keys: Result<MachineKeys>;
    keys, tKeys := c.MachineKeys(creds);
    t := t + tKeys;
    if keys.Err? {
      return Err(keys.error), t, orgKey;
    }
    var reply := c.Do(creds, GetBundle(project, environment));
    ghost var asked := Http(GetBundle(project, environment), reply);
    t := t + [asked];
    BundleComplaint(project, environment, reply);
    match reply {
      case Failure(e) => r := Err(e);
      case Success(BundleBody(bundle)) =>
        var unsealed := c.OpenOrgKey(creds, keys.value, bundle.wrappedOrgKey);
        t := t + [Unsealing(bundle.wrappedOrgKey, unsealed)];
        UnsealingComplaint(bundle.wrappedOrgKey, unsealed);
        match unsealed {
          case Err(e) => r := Err(e);
          case Ok(key) =>
            orgKey := key;
            assert BundleServed(t, project, environment, bundle, orgKey);
            r := Decrypt(key, bundle.secrets);
        }
      case Success(_) => r := Err(DecodingError());
    }
  }

  lemma {:induction false} BundleComplaint(project: string, environment: string, reply: Reply)
    ensures Complaint(Http(GetBundle(project, environment), reply))
         == match reply
            case Failure(error) => Some(error)
            case Success(payload) => if payload.BundleBody? then None else Some(DecodingError())
  {
  }

  lemma {:induction false} UnsealingComplaint(wrapped: string, r: Result<Key>)
    ensures Complaint(Unsealing(wrapped, r)) == match r case Ok(_) => None case Err(error) => Some(error)
  {
  }

  /** A fetch succeeds exactly when nothing stands against it. */
  lemma {:induction false} FetchEndsOneWay(t: seq<Event>, project: string, environment: string, orgKey: Key,
                                           pairs: Bundle, error: Error)
    requires FetchEnds(t, project, environment, orgKey, Ok(pairs))
    ensures !FetchBroke(t, project, environment, error)
  {
    hide EntryValue, DecryptError;
    var bundle :| BundleServed(t, project, environment, bundle, orgKey) && AllOpen(orgKey, bundle.secrets);
    UnsealingComplaint(bundle.wrappedOrgKey, Ok(orgKey));
    forall bundle', key, i | BundleServed(t, project, environment, bundle', key)
      ensures !ShutFirst(key, bundle'.secrets, i) {
      assert bundle' == bundle && key == orgKey;
    }
  }

  lemma {:induction false} FetchCause(t: seq<Event>, project: string, environment: string, error: Error)
    requires FetchBroke(t, project, environment, error)
    ensures CausedIn(t, error)
    ensures RootStatus(error) == StatusOf(t[|t| - 1])
  {
    hide EntryValue;
    assert t[|t| - 1] in t;
    if Complaint(t[|t| - 1]) != Some(error) {
      var bundle, key, i :| BundleServed(t, project, environment, bundle, key) && ShutFirst(key, bundle.secrets, i)
                            && error == DecryptError(bundle.secrets[i]);
      UnsealingComplaint(bundle.wrappedOrgKey, Ok(key));
      assert RootStatus(Other(bundle.secrets[i].key)) == None;
    } else {
      assert t[|t| - 1] in t && Complaint(t[|t| - 1]) == Some(error);
    }
  }
}
