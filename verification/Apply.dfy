/** Minting, renewing and revoking one lease, and telling the platform how it went. */
module Apply {
  import opened Text
  import opened Platform
  import opened Wire
  import opened Statements
  import opened Passes
  import Entropy
  import Username

  const CREATE := 0
  const RENEW := 1
  const REVOKE := 2

  /** `Lookup`: Postgres, MySQL, Oracle, Cassandra, Redis and AWS IAM. */
  predicate KnownProvider(provider: int) { 0 <= provider <= 5 }

  // ---- the URL ----

  function FirstNonEmpty(a: string, b: string): string {
    if TrimSpace(a) != "" then a else if TrimSpace(b) != "" then b else ""
  }

  function FirstHost(hosts: string): string {
    var comma := Index(hosts, ",");
    TrimSpace(if comma < 0 then hosts else hosts[..comma])
  }

  function UrlVars(minted: Minted, cfg: ProviderConfig, expires: Time): map<string, string> {
    map[
      "username" := minted.username,
      "password" := minted.password,
      "host" := FirstNonEmpty(cfg.host, FirstHost(cfg.hosts)),
      "port" := IntText(cfg.port),
      "database" := FirstNonEmpty(cfg.database, cfg.keyspace),
      "accessKeyId" := minted.accessKeyId,
      "sessionToken" := minted.sessionToken,
      "expiration" := expires
    ]
  }

  ghost predicate RenderedUrl(template: string, minted: Minted, cfg: ProviderConfig, expires: Time, url: string) {
    if TrimSpace(template) == "" then url == ""
    else exists order :: IsOrder(order, UrlVars(minted, cfg, expires))
                         && url == Fold(template, order, UrlVars(minted, cfg, expires))
  }

  method RenderUrl(template: string, minted: Minted, cfg: ProviderConfig, expires: Time) returns (url: string)
    ensures RenderedUrl(template, minted, cfg, expires, url)
  {
    if TrimSpace(template) == "" {
      return "";
    }
    url := RenderStatements(template, UrlVars(minted, cfg, expires));
  }

  // ---- what a run of Apply may look like ----

  function ItemContext(item: WorkItem): Context { SecretContext(item.definitionId, item.environmentId) }

  function Config(orgKey: Key, item: WorkItem): Option<ProviderConfig> {
    match Open(orgKey, item.providerEnvelope, ItemContext(item))
    case None => None
    case Some(plain) => plain.asConfig
  }

  /** What keeps an item from getting as far as its provider. */
  function ItemError(orgKey: Key, item: WorkItem): Option<Error> {
    match Open(orgKey, item.providerEnvelope, ItemContext(item))
    case None => Some(Wrapped("decrypt provider config", Other("authentication failed")))
    case Some(plain) =>
      if plain.asConfig == None then Some(Wrapped("provider config is not JSON", Other("unexpected input")))
      else if !KnownProvider(item.provider) then Some(Other("unknown dynamic secret provider"))
      else if !(CREATE <= item.action <= REVOKE) then Some(Other("unknown lease action"))
      else None
  }

  /** The item gets as far as its provider. */
  predicate Runnable(orgKey: Key, item: WorkItem) {
    Config(orgKey, item).Some? && KnownProvider(item.provider) && CREATE <= item.action <= REVOKE
  }

  lemma {:induction false} ItemErrorExact(orgKey: Key, item: WorkItem)
    ensures ItemError(orgKey, item) == None <==> Runnable(orgKey, item)
  {
    hide Open, KnownProvider;
  }

  function FailureBody(item: WorkItem, err: Error): CompleteLease {
    CompleteLease(item.leaseId, false, Message(err), "", None, None)
  }

  function ProviderName(provider: int): string {
    match provider
    case 0 => "postgres"
    case 1 => "mysql"
    case 2 => "oracle"
    case 3 => "cassandra"
    case 4 => "redis"
    case 5 => "aws-iam"
    case _ => "dynamic"
  }

  /** The item's username template may render to this name, which is not empty. */
  ghost predicate IsUsername(item: WorkItem, name: string) {
    name != ""
    && exists unix, blocks, rest ::
         Username.Rendering(item.usernameTemplate, item.identityName, item.dynamicSecretName,
                            ProviderName(item.provider), unix, blocks, Some(Entropy.Drawn(name, rest)))
  }

  /** A password as `RandomString(32)` draws it. */
  ghost predicate IsPassword(s: string) {
    |s| == 32 && forall c :: c in s ==> c in Entropy.Alphabet()
  }

  /** What the provider of this item is to work with. */
  ghost predicate WorkFor(orgKey: Key, item: WorkItem, work: WorkContext) {
    Runnable(orgKey, item)
    && work == WorkContext(
         Config(orgKey, item).value, work.username, work.password, item.creationStatement,
         item.revocationStatement, item.renewStatement, item.urlTemplate, work.expiresAt, item.entityId)
    && IsPassword(work.password)
    && (if item.entityId != "" then work.username == item.entityId else IsUsername(item, work.username))
    && (item.expiresAt.Some? ==> work.expiresAt == item.expiresAt.value)
  }

  /** The provider call this item asks for. */
  ghost predicate CallFor(orgKey: Key, item: WorkItem, e: Event) {
    e.Provider? && e.provider == item.provider && e.action == item.action && WorkFor(orgKey, item, e.work)
  }

  /** What a provider's answer to a mint request holds. */
  function MintedOf(reply: ProviderReply): Minted {
    if reply.Minting? then reply.minted else Minted("", "", "", "", "")
  }

  /** The credentials that are sealed: the minted ones, with the requested username
      where the provider names none, and the rendered URL. */
  ghost predicate Finished(item: WorkItem, work: WorkContext, minted: Minted, m: Minted) {
    var named := if minted.username == "" then minted.(username := work.username) else minted;
    m == named.(url := m.url) && RenderedUrl(item.urlTemplate, named, work.config, work.expiresAt, m.url)
  }

  /** A success report says what the provider did, and nothing else. */
  ghost predicate SuccessBody(orgKey: Key, orgKeyId: string, item: WorkItem, call: Event, body: CompleteLease)
    requires call.Provider?
  {
    if item.action == CREATE then
      exists m :: Finished(item, call.work, MintedOf(call.outcome), m)
                  && body == CompleteLease(item.leaseId, true, "", m.username,
                       Some(Sealed(orgKey, orgKeyId, EncodeMinted(m), ItemContext(item))), Some(call.work.expiresAt))
    else
      body == CompleteLease(item.leaseId, true, "", call.work.username, None,
                            if item.action == RENEW then Some(call.work.expiresAt) else None)
  }

  /** The provider did its part and the platform was sent the success report. */
  ghost predicate Reported(orgKey: Key, orgKeyId: string, item: WorkItem, t: seq<Event>) {
    |t| == 2 && CallFor(orgKey, item, t[0]) && !t[0].outcome.Refused?
    && t[1].Http? && t[1].request.PostComplete?
    && SuccessBody(orgKey, orgKeyId, item, t[0], t[1].request.body)
  }

  ghost predicate Succeeded(orgKey: Key, orgKeyId: string, item: WorkItem, t: seq<Event>) {
    Reported(orgKey, orgKeyId, item, t) && t[1].reply.Success?
  }

  /** How far a run got that ended with `err`: no provider call; a call that was refused, or
      whose result could not be sealed; or a success report that was turned down. */
  ghost predicate Broke(orgKey: Key, orgKeyId: string, item: WorkItem, t: seq<Event>, err: Error) {
    if t == [] then ItemError(orgKey, item) == Some(err)
    else if |t| == 1 then CallFor(orgKey, item, t[0]) && t[0].outcome == Refused(err)
    else if t[1].SealFailed? then
      |t| == 2 && CallFor(orgKey, item, t[0]) && item.action == CREATE && !t[0].outcome.Refused? && t[1].error == err
    else Reported(orgKey, orgKeyId, item, t) && t[1].reply == Failure(err)
  }

  ghost predicate Failed(orgKey: Key, orgKeyId: string, item: WorkItem, t: seq<Event>, err: Error) {
    t != []
    && Broke(orgKey, orgKeyId, item, t[..|t| - 1], err)
    && t[|t| - 1].Http? && t[|t| - 1].request == PostComplete(FailureBody(item, err))
  }

  ghost predicate Applied(orgKey: Key, orgKeyId: string, item: WorkItem, t: seq<Event>, err: Option<Error>) {
    match err
    case None => Succeeded(orgKey, orgKeyId, item, t)
    case Some(e) => Failed(orgKey, orgKeyId, item, t, e)
  }

  // ---- the shape of a run ----

  predicate IsCompletion(e: Event) { e.Http? && e.request.PostComplete? }

  predicate ReportsOk(e: Event) { IsCompletion(e) && e.request.body.ok }

  predicate Reports(e: Event, item: WorkItem, ok: bool) {
    IsCompletion(e) && e.request.body.ok == ok && e.request.body.leaseId == item.leaseId
  }

  /** The shape of a run, event by event. */
  lemma {:induction false} Shape(orgKey: Key, orgKeyId: string, item: WorkItem, t: seq<Event>, err: Option<Error>)
    requires Applied(orgKey, orgKeyId, item, t, err)
    ensures 1 <= |t| <= 3
    ensures |t| == 1 ==> err.Some? && !Runnable(orgKey, item)
    ensures |t| >= 2 ==> CallFor(orgKey, item, t[0]) && t[0].Provider? && Runnable(orgKey, item)
    ensures |t| == 3 ==> err.Some? && !t[0].outcome.Refused?
    ensures |t| == 3 ==>
              t[1] == SealFailed(err.value) || (Reports(t[1], item, true) && t[1].reply == Failure(err.value))
    ensures err == None ==> |t| == 2 && Reports(t[1], item, true) && !t[0].outcome.Refused? && t[1].reply.Success?
    ensures err.Some? ==> Reports(t[|t| - 1], item, false)
  {
    hide Finished, IsPassword, IsUsername, ItemError, Config, Message, EncodeMinted;
    ItemErrorExact(orgKey, item);
    if err.Some? {
      var before := t[..|t| - 1];
      assert t == before + [t[|t| - 1]];
    }
  }

  /** The steps of a run: the provider call, a sealing that fails, the reports. */
  predicate OnlyWork(e: Event) { e.Provider? || e.SealFailed? || IsCompletion(e) }

  /** A run talks to the provider and reports; it sends nothing else. */
  lemma {:induction false} OnlyReports(orgKey: Key, orgKeyId: string, item: WorkItem, t: seq<Event>, err: Option<Error>)
    requires Applied(orgKey, orgKeyId, item, t, err)
    ensures forall e :: e in t ==> OnlyWork(e)
  {
    hide Applied, CallFor, Runnable;
    Shape(orgKey, orgKeyId, item, t, err);
    assert |t| == 3 ==> t == [t[0], t[1], t[2]];
    assert |t| == 2 ==> t == [t[0], t[1]];
    assert |t| == 1 ==> t == [t[0]];
  }

  // ---- the code ----

  /** The operating system's entropy: any stream that lasts for so many draws. (A read that
      fails is a panic, which ends the program.) */
  method OpenEntropy(draws: nat) returns (source: Entropy.Source)
    ensures fresh(source) && Entropy.Ample(source.blocks, draws)
  {
    var blocks: seq<Entropy.Block> := *;
    var zeros: Entropy.Block := seq(Entropy.BLOCK, _ => 0);
    var reserve: seq<Entropy.Block> := seq(draws, _ => zeros);
    source := new Entropy.Source(blocks + reserve);
  }

  /** The username of a new lease. */
  method NewUsername(item: WorkItem) returns (username: string)
    ensures IsUsername(item, username)
  {
    hide Username.Rendering, Entropy.Ample, Spaces;
    var unix: int := *;
    var source := OpenEntropy(Spaces(Username.Source(item.usernameTemplate)) + 1);
    ghost var blocks := source.blocks;
    Username.RenderingLasts(item.usernameTemplate, item.identityName, item.dynamicSecretName,
                            ProviderName(item.provider), unix, blocks);
    var rendered := Username.RenderUsername(item.usernameTemplate, item.identityName, item.dynamicSecretName,
                                            ProviderName(item.provider), unix, source);
    username := rendered.value;
    assert Username.Rendering(item.usernameTemplate, item.identityName, item.dynamicSecretName,
                              ProviderName(item.provider), unix, blocks, Some(Entropy.Drawn(username, source.blocks)));
  }

  method NewPassword() returns (password: string)
    ensures IsPassword(password)
  {
    hide Entropy.Draw, Entropy.Ample, Entropy.Alphabet;
    var source := OpenEntropy(1);
    ghost var blocks := source.blocks;
    Entropy.AmpleDraw(blocks, 1, 32);
    var drawn := source.RandomString(32);
    Entropy.DrawInAlphabet(blocks, 32);
    password := drawn.value;
  }

  /** The `complete` callback. */
  method Complete(c: Client, creds: Credentials, body: CompleteLease) returns (err: Option<Error>, ghost e: Event)
    modifies c`tokens, c`trace
    ensures c.trace == old(c.trace) + [e] && e.Http? && e.request == PostComplete(body)
    ensures match err case None => e.reply.Success? case Some(error) => e.reply == Failure(error)
  {
    var reply := c.Do(creds, PostComplete(body));
    e := Http(PostComplete(body), reply);
    err := if reply.Failure? then Some(reply.error) else None;
  }

  /** Has the provider mint, and reports what it minted, sealed. */
  method MintLease(c: Client, creds: Credentials, orgKey: Key, orgKeyId: string, item: WorkItem, work: WorkContext)
    returns (err: Option<Error>, ghost t: seq<Event>)
    requires item.action == CREATE && WorkFor(orgKey, item, work)
    modifies c`tokens, c`trace
    ensures c.trace == old(c.trace) + t
    ensures err == None ==> Succeeded(orgKey, orgKeyId, item, t)
    ensures err.Some? ==> t != [] && Broke(orgKey, orgKeyId, item, t, err.value)
  {
    hide RenderedUrl, WorkFor, EncodeMinted;
    var outcome := c.CallProvider(item.provider, item.action, work);
    t := [Provider(item.provider, item.action, work, outcome)];
    if outcome.Refused? {
      return Some(outcome.error), t;
    }
    var minted := MintedOf(outcome);
    if minted.username == "" {
      minted := minted.(username := work.username);
    }
    var url := RenderUrl(item.urlTemplate, minted, work.config, work.expiresAt);
    minted := minted.(url := url);
    assert Finished(item, work, MintedOf(outcome), minted);
    var sealed_ := c.Seal(orgKey, orgKeyId, EncodeMinted(minted), ItemContext(item));
    if sealed_.Err? {
      t := t + [SealFailed(sealed_.error)];
      return Some(sealed_.error), t;
    }
    var body := CompleteLease(item.leaseId, true, "", minted.username, Some(sealed_.value), Some(work.expiresAt));
    ghost var answered: Event;
    err, answered := Complete(c, creds, body);
    t := t + [answered];
    assert Reported(orgKey, orgKeyId, item, t);
  }

  /** `apply`: everything but the failure report. */
  method ApplyInner(c: Client, creds: Credentials, orgKey: Key, orgKeyId: string, item: WorkItem)
    returns (err: Option<Error>, ghost t: seq<Event>)
    modifies c`tokens, c`trace
    ensures c.trace == old(c.trace) + t
    ensures err == None ==> Succeeded(orgKey, orgKeyId, item, t)
    ensures err.Some? ==> Broke(orgKey, orgKeyId, item, t, err.value)
  {
    hide RenderedUrl, Open, Message, IsPassword, IsUsername, EncodeMinted;
    t := [];
    var plaintext := Open(orgKey, item.providerEnvelope, ItemContext(item));
    if plaintext == None {
      return Some(Wrapped("decrypt provider config", Other("authentication failed"))), t;
    }
    if plaintext.value.asConfig == None {
      return Some(Wrapped("provider config is not JSON", Other("unexpected input"))), t;
    }
    var cfg := plaintext.value.asConfig.value;
    if !KnownProvider(item.provider) {
      return Some(Other("unknown dynamic secret provider")), t;
    }
    var username := item.entityId;
    if username == "" {
      username := NewUsername(item);
    }
    var password := NewPassword();
    var expiresAt: Time := *;
    if item.expiresAt.Some? {
      expiresAt := item.expiresAt.value;
    }
    var work := WorkContext(cfg, username, password, item.creationStatement, item.revocationStatement,
                            item.renewStatement, item.urlTemplate, expiresAt, item.entityId);
    ghost var answered: Event;
    hide WorkFor;
    if item.action == CREATE {
      err, t := MintLease(c, creds, orgKey, orgKeyId, item, work);
      return;
    } else if item.action == RENEW {
      var outcome := c.CallProvider(item.provider, item.action, work);
      t := [Provider(item.provider, item.action, work, outcome)];
      if outcome.Refused? {
        return Some(outcome.error), t;
      }
      err, answered := Complete(c, creds, CompleteLease(item.leaseId, true, "", username, None, Some(expiresAt)));
      t := t + [answered];
    } else if item.action == REVOKE {
      var outcome := c.CallProvider(item.provider, item.action, work);
      t := [Provider(item.provider, item.action, work, outcome)];
      if outcome.Refused? {
        return Some(outcome.error), t;
      }
      err, answered := Complete(c, creds, CompleteLease(item.leaseId, true, "", username, None, None));
      t := t + [answered];
    } else {
      return Some(Other("unknown lease action")), t;
    }
    assert Reported(orgKey, orgKeyId, item, t);
  }

  method Apply(c: Client, creds: Credentials, orgKey: Key, orgKeyId: string, item: WorkItem)
    returns (err: Option<Error>, ghost t: seq<Event>)
    modifies c`tokens, c`trace
    ensures c.trace == old(c.trace) + t
    ensures Applied(orgKey, orgKeyId, item, t, err)
    ensures forall e :: e in t ==> OnlyWork(e)
  {
    hide Broke, Succeeded, Message;
    err, t := ApplyInner(c, creds, orgKey, orgKeyId, item);
    if err.Some? {
      ghost var e: Event;
      var ignored: Option<Error>;
      ignored, e := Complete(c, creds, FailureBody(item, err.value));
      assert (t + [e])[..|t|] == t;
      t := t + [e];
    }
    OnlyReports(orgKey, orgKeyId, item, t, err);
  }

  // ---- what follows ----

  /** The completion discipline. The error is nil exactly when a success report was
      accepted; there is at most one such report, sent right after the item's provider
      call went through; otherwise the last word is a failure report; and every
      report concerns this lease. */
  lemma {:induction false} CompletionDiscipline(orgKey: Key, orgKeyId: string, item: WorkItem, t: seq<Event>,
                                                err: Option<Error>)
    requires Applied(orgKey, orgKeyId, item, t, err)
    ensures err == None <==> exists i :: 0 <= i < |t| && ReportsOk(t[i]) && t[i].reply.Success?
    ensures forall i, j :: 0 <= i < |t| && 0 <= j < |t| && ReportsOk(t[i]) && ReportsOk(t[j]) ==> i == j
    ensures forall i :: 0 <= i < |t| && ReportsOk(t[i]) ==>
              i == 1 && CallFor(orgKey, item, t[0]) && t[0].Provider? && !t[0].outcome.Refused?
    ensures forall i :: 0 <= i < |t| && IsCompletion(t[i]) ==> t[i].request.body.leaseId == item.leaseId
    ensures t != [] && IsCompletion(t[|t| - 1]) && (err.Some? ==> !ReportsOk(t[|t| - 1]))
  {
    hide Applied, CallFor, Runnable;
    Shape(orgKey, orgKeyId, item, t, err);
    if err == None {
      assert ReportsOk(t[1]);
    }
  }

  /** A status at the root of the error is that of the provider's refusal, or of the reply
      to the report. */
  lemma {:induction false} ApplyCause(orgKey: Key, orgKeyId: string, item: WorkItem, t: seq<Event>, err: Error)
    requires Failed(orgKey, orgKeyId, item, t, err)
    ensures CausedIn(t, err)
  {
    hide Open, SuccessBody, KnownProvider, Runnable, IsPassword, IsUsername;
    var before := t[..|t| - 1];
    if before == [] {
      assert RootStatus(Other("authentication failed")) == None && RootStatus(Other("unexpected input")) == None;
    } else {
      var e := before[|before| - 1];
      assert e == t[|before| - 1] && e in t;
      if |before| == 1 {
        assert e.Provider?;
      } else {
        assert before[1] == e && |before| == 2;
      }
      assert Complaint(e) == Some(err);
    }
  }

  /** The provider is called at most once, and exactly for an item that can be run. */
  lemma {:induction false} ProviderCalledOnce(orgKey: Key, orgKeyId: string, item: WorkItem, t: seq<Event>,
                                              err: Option<Error>)
    requires Applied(orgKey, orgKeyId, item, t, err)
    ensures forall i :: 0 <= i < |t| && t[i].Provider? ==> i == 0 && CallFor(orgKey, item, t[0])
    ensures (exists i :: 0 <= i < |t| && t[i].Provider?) <==> Runnable(orgKey, item)
  {
    hide Applied, CallFor, Runnable;
    Shape(orgKey, orgKeyId, item, t, err);
    if |t| >= 2 {
      assert t[0].Provider?;
    }
  }
}
