/** What travels between the operator, the platform and the credential providers,
    with ideal encryption and an ideal JSON codec. */
module Platform {
  import opened Text

  // ---- errors ----

  /** `Wrapped` is Go's `fmt.Errorf("...: %w", err)`. */
  datatype Error = ApiError(status: int) | Wrapped(note: string, inner: Error) | Other(note: string)

  /** `asAPIError`: a type assertion on the error itself. */
  function DirectStatus(e: Error): Option<int> {
    if e.ApiError? then Some(e.status) else None
  }

  /** `errors.As`: the API error at the root of the wrapping. */
  function RootStatus(e: Error): Option<int> {
    match e
    case ApiError(status) => Some(status)
    case Wrapped(_, inner) => RootStatus(inner)
    case Other(_) => None
  }

  function Message(e: Error): string {
    match e
    case ApiError(status) =>
      if status == 401 || status == 403
      then "kryptic api: authentication failed (HTTP " + IntText(status) + ")"
      else "kryptic api: request failed (HTTP " + IntText(status) + ")"
    case Wrapped(note, inner) => note + ": " + Message(inner)
    case Other(note) => note
  }

  /** An error in so many wrappings. */
  function InWrappings(notes: seq<string>, error: Error): Error {
    if notes == [] then error else Wrapped(notes[0], InWrappings(notes[1..], error))
  }

  /** However often it is wrapped, an API error keeps its status; what has no API error at
      its root has none; and only an unwrapped one is an API error itself. */
  lemma {:induction false} RootIs(notes: seq<string>, status: int, note: string)
    ensures RootStatus(InWrappings(notes, ApiError(status))) == Some(status)
    ensures RootStatus(InWrappings(notes, Other(note))) == None
    ensures DirectStatus(InWrappings(notes, ApiError(status))) == if notes == [] then Some(status) else None
  {
    if notes != [] {
      RootIs(notes[1..], status, note);
    }
  }

  /** So every error has exactly the status of what it wraps. */
  lemma {:induction false} IsNested(e: Error) returns (notes: seq<string>, root: Error)
    ensures e == InWrappings(notes, root) && !root.Wrapped?
    decreases e
  {
    match e
    case Wrapped(note, inner) =>
      notes, root := IsNested(inner);
      notes := [note] + notes;
      assert notes[1..] == notes[1..];
    case _ =>
      notes, root := [], e;
  }

  /** The text of an error: the notes, outermost first, each set off by a colon. */
  lemma {:induction false} MessageIs(notes: seq<string>, root: Error)
    requires !root.Wrapped?
    ensures Message(InWrappings(notes, root)) == Prefix(notes) + Message(root)
    ensures root.Other? ==> Message(root) == root.note
  {
    if notes == [] {
      assert Prefix(notes) + Message(root) == Message(root);
    } else {
      MessageIs(notes[1..], root);
      assert notes[0] + ": " + (Prefix(notes[1..]) + Message(root)) == Prefix(notes) + Message(root);
    }
  }

  lemma {:induction false} ApiMessages()
    ensures Message(ApiError(401)) == "kryptic api: authentication failed (HTTP 401)"
    ensures Message(ApiError(403)) == "kryptic api: authentication failed (HTTP 403)"
    ensures Message(ApiError(404)) == "kryptic api: request failed (HTTP 404)"
  {
    ThreeDigits(4, 0, 1);
    ThreeDigits(4, 0, 3);
    ThreeDigits(4, 0, 4);
  }

  lemma {:induction false} ThreeDigits(a: nat, b: nat, c: nat)
    requires 0 < a < 10 && b < 10 && c < 10
    ensures IntText(100 * a + 10 * b + c) == ['0' + a as char, '0' + b as char, '0' + c as char]
  {
    var n := 100 * a + 10 * b + c;
    assert NatText(a) == ['0' + a as char];
    assert n / 10 / 10 == a && n / 10 % 10 == b && n % 10 == c;
    assert NatText(n / 10) == NatText(a) + ['0' + b as char];
  }

  function Prefix(notes: seq<string>): string {
    if notes == [] then "" else notes[0] + ": " + Prefix(notes[1..])
  }

  datatype Result<+T> = Ok(value: T) | Err(error: Error)

  // ---- values ----

  datatype Minted = Minted(username: string, password: string, sessionToken: string, accessKeyId: string, url: string)

  datatype ProviderConfig = ProviderConfig(host: string, port: int, hosts: string, database: string, keyspace: string)

  /** A decrypted text, as what each of the two JSON decoders makes of it. */
  datatype Plaintext = Plaintext(text: string, asMinted: Option<Minted>, asConfig: Option<ProviderConfig>)

  /** JSON text of minted credentials: decoding it gives them back. */
  function EncodeMinted(m: Minted): Plaintext {
    Plaintext("", Some(m), Some(ProviderConfig("", 0, "", "", "")))
  }

  type Key = nat

  datatype Context = SecretContext(definitionId: string, environmentId: string)

  /** An envelope is either what sealing made, or any other text. */
  datatype Envelope = Sealed(key: Key, keyId: string, plain: Plaintext, context: Context) | Garbage(text: string)

  /** Opens exactly what was sealed under the same key for the same context. */
  function Open(key: Key, e: Envelope, context: Context): Option<Plaintext> {
    if e.Sealed? && e.key == key && e.context == context then Some(e.plain) else None
  }

  /** A time, by its RFC 3339 text. */
  type Time = string

  datatype WorkItem = WorkItem(
    leaseId: string, definitionId: string, environmentId: string, key: string,
    provider: int, action: int, usernameTemplate: string, creationStatement: string,
    revocationStatement: string, renewStatement: string, urlTemplate: string,
    providerEnvelope: Envelope, identityName: string, dynamicSecretName: string,
    expiresAt: Option<Time>, entityId: string)

  datatype WorkBatch = WorkBatch(orgKeyId: string, wrappedOrgKey: string, items: seq<WorkItem>)

  datatype CompleteLease = CompleteLease(
    leaseId: string, ok: bool, error: string, entityId: string,
    mintedEnvelope: Option<Envelope>, expiresAt: Option<Time>)

  datatype SecretEnvelope = SecretEnvelope(key: string, definitionId: string, environmentId: string, envelope: Envelope)

  datatype MachineKeys = MachineKeys(publicKey: string, wrappedPrivateKey: string, kdfSalt: string, kdfVersion: int)

  datatype BundleEntry = BundleEntry(key: string, envelope: Envelope, definitionId: string, environmentId: string)

  datatype DynamicHint = DynamicHint(key: string)

  datatype CipherBundle = CipherBundle(wrappedOrgKey: string, secrets: seq<BundleEntry>,
                                       dynamicSecrets: seq<DynamicHint>)

  type Bundle = map<string, string>

  datatype Credentials = Credentials(baseUrl: string, clientId: string, clientSecret: string)

  // ---- the conversation ----

  datatype Request =
    | PostToken(clientId: string)
    | GetKeys
    | GetBundle(project: string, environment: string)
    | GetWork
    | PostLease(project: string, environment: string, key: string)
    | GetLeaseWork(leaseId: string)
    | GetEnvelope(leaseId: string)
    | PostRevoke(leaseId: string)
    | PostComplete(body: CompleteLease)

  /** A 200 response by the type it decodes as. */
  datatype Payload =
    | TokenBody(token: string, expiresInSeconds: int)
    | KeysBody(keys: MachineKeys)
    | BundleBody(bundle: CipherBundle)
    | WorkBody(batch: WorkBatch)
    | LeaseBody(id: string)
    | EnvelopeBody(envelope: SecretEnvelope)
    | NoBody

  datatype Reply = Success(payload: Payload) | Failure(error: Error)

  datatype WorkContext = WorkContext(
    config: ProviderConfig, username: string, password: string, creationStatement: string,
    revocationStatement: string, renewStatement: string, urlTemplate: string, expiresAt: Time, entityId: string)

  datatype ProviderReply = Minting(minted: Minted) | Done | Refused(error: Error)

  /** What the operator asked of others and what came of it: the platform, a provider, and
      the libraries for keys and sealing. */
  datatype Event =
    | Http(request: Request, reply: Reply)
    | Provider(provider: int, action: int, work: WorkContext, outcome: ProviderReply)
    | Unsealing(wrapped: string, result: Result<Key>)
    | SealFailed(error: Error)
    | AuthFailed(error: Error)

  /** The payload is what the request decodes it as; two requests ignore it. */
  predicate Fits(request: Request, payload: Payload) {
    match request
    case PostToken(_) => payload.TokenBody?
    case GetKeys => payload.KeysBody?
    case GetBundle(_, _) => payload.BundleBody?
    case GetWork => payload.WorkBody?
    case PostLease(_, _, _) => payload.LeaseBody?
    case GetLeaseWork(_) => payload.WorkBody?
    case GetEnvelope(_) => payload.EnvelopeBody?
    case PostRevoke(_) => true
    case PostComplete(_) => true
  }

  /** What is wrong with an event, in the words of the error it leads to. */
  function Complaint(e: Event): Option<Error> {
    match e
    case Http(PostToken(_), Success(payload)) =>
      if payload.TokenBody? then None else Some(Wrapped("decoding token", DecodingError()))
    case Http(GetKeys, Failure(error)) => Some(Wrapped("fetching machine keys", error))
    case Http(GetKeys, Success(payload)) =>
      if payload.KeysBody? then None else Some(Wrapped("fetching machine keys", DecodingError()))
    case Http(_, Failure(error)) => Some(error)
    case Http(request, Success(payload)) => if Fits(request, payload) then None else Some(DecodingError())
    case Provider(_, _, _, Refused(error)) => Some(error)
    case Provider(_, _, _, _) => None
    case Unsealing(_, Err(error)) => Some(error)
    case Unsealing(_, Ok(_)) => None
    case SealFailed(error) => Some(error)
    case AuthFailed(error) => Some(error)
  }

  /** The HTTP status at the root of what went wrong, if any. */
  function StatusOf(e: Event): Option<int> {
    match Complaint(e)
    case None => None
    case Some(error) => RootStatus(error)
  }

  /** The HTTP status at the root of an error, if there is one, is that of something that
      went wrong in this conversation. */
  ghost predicate CausedIn(t: seq<Event>, error: Error) {
    RootStatus(error).Some? ==>
      exists e :: e in t && StatusOf(e) == RootStatus(error)
  }

  lemma {:induction false} CausedLater(a: seq<Event>, t: seq<Event>, b: seq<Event>, error: Error)
    requires CausedIn(t, error)
    ensures CausedIn(a + t + b, error)
  {
    hide Complaint;
    if RootStatus(error).Some? {
      var e :| e in t && StatusOf(e) == RootStatus(error);
      assert e in a + t + b;
    }
  }

  const STATUS_UNAUTHORIZED := 401
  const STATUS_FORBIDDEN := 403
  const STATUS_NOT_FOUND := 404

  predicate Permanent(status: int) {
    status == STATUS_UNAUTHORIZED || status == STATUS_FORBIDDEN || status == STATUS_NOT_FOUND
  }

  function DecodingError(): Error { Other("decoding response") }
}
