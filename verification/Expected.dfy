/** What the operator's decisions come to, said of the values themselves: the Secret that is
    written, the outcome of a pass, the reports on leases. */
module Expected {
  import opened Text
  import opened Platform
  import opened Wire
  import opened Entropy
  import opened Segments
  import opened Statements
  import opened Meanings
  import opened Apply
  import opened Leases
  import opened Sync
  import opened Secrets
  import opened Reconcile

  // ---- the Secret ----

  /** Whatever a pass writes is the Secret the spec names, or else the resource's namesake;
      it holds the data of the pass, belongs to the resource, and is of the type asked for. */
  lemma {:induction false} WrittenSecret(cr: Resource, w: Write, data: map<string, string>, ids: LeaseIds)
    requires PassWrite(cr, w, data, ids)
    ensures cr.spec.secretName != "" ==> w.name == cr.spec.secretName
    ensures cr.spec.secretName == "" ==> w.name == cr.name
    ensures w.after.data == data
    ensures w.after.kind == if cr.spec.template.kind == "" then "Opaque" else cr.spec.template.kind
    ensures |w.after.owners| == 1 && w.after.owners[0].kind == "KrypticSecret"
            && w.after.owners[0].name == cr.name && w.after.owners[0].uid == cr.uid
    ensures w.before.Some? ==>
              exists o :: o in w.before.value.owners && o.kind == "KrypticSecret" && o.name == cr.name
  {
    hide WithLeaseIds;
  }

  /** Its labels are those of the template, the mark of the operator unless the template
      says otherwise, and what other labels were there before. */
  lemma {:induction false} WrittenLabels(cr: Resource, w: Write, data: map<string, string>, ids: LeaseIds, k: string)
    requires PassWrite(cr, w, data, ids)
    ensures k in cr.spec.template.labels ==> k in w.after.labels && w.after.labels[k] == cr.spec.template.labels[k]
    ensures k == "app.kubernetes.io/managed-by" && k !in cr.spec.template.labels ==>
              k in w.after.labels && w.after.labels[k] == "kryptic-operator"
    ensures k != "app.kubernetes.io/managed-by" && k !in cr.spec.template.labels ==>
              (k in w.after.labels <==> w.before.Some? && k in w.before.value.labels)
              && (k in w.after.labels ==> w.after.labels[k] == w.before.value.labels[k])
  {
    hide WithLeaseIds, OwnedBy;
  }

  /** Its annotations are those of the template and what others were there before; only the
      one for the lease ids is the operator's own, and the template has no say in it. */
  lemma {:induction false} WrittenAnnotations(cr: Resource, w: Write, data: map<string, string>, ids: LeaseIds,
                                              k: string)
    requires PassWrite(cr, w, data, ids)
    ensures k != "kryptic.dev/dynamic-lease-ids" && k in cr.spec.template.annotations ==>
              k in w.after.annotations && w.after.annotations[k] == cr.spec.template.annotations[k]
    ensures k == "kryptic.dev/dynamic-lease-ids" && ids != map[] ==>
              k in w.after.annotations && w.after.annotations[k] == Json(ids)
    ensures (k == "kryptic.dev/dynamic-lease-ids" && ids == map[])
            || (k != "kryptic.dev/dynamic-lease-ids" && k !in cr.spec.template.annotations) ==>
              (k in w.after.annotations <==> w.before.Some? && k in w.before.value.annotations)
              && (k in w.after.annotations ==> w.after.annotations[k] == w.before.value.annotations[k])
  {
    hide OwnedBy;
    assert ids != map[] ==> |ids| > 0;
  }

  /** What is recorded is what stands under that annotation. */
  lemma {:induction false} RecordedUnder(secret: Secret, secrets: map<string, Secret>, target: string, ids: LeaseIds)
    requires "kryptic.dev/dynamic-lease-ids" in secret.annotations
    requires secret.annotations["kryptic.dev/dynamic-lease-ids"] == Json(ids)
    ensures DecodeIds(secret.annotations) == ids
    ensures target in secrets && secrets[target] == secret ==> RecordedIds(secrets, target) == ids
  {
  }

  /** The data: everything, or what is listed and exists. */
  lemma {:induction false} SelectedData(bundle: Bundle, keys: seq<string>, k: string)
    ensures k in Selected(bundle, keys) <==> k in bundle && (keys == [] || exists i :: 0 <= i < |keys| && keys[i] == k)
    ensures k in Selected(bundle, keys) ==> Selected(bundle, keys)[k] == bundle[k]
  {
  }

  // ---- the outcome of a pass ----

  /** The refresh interval is what the spec says, in seconds, unless that is missing or below
      half a minute; then it is five minutes. */
  lemma {:induction false} RefreshInterval(spec: Spec, n: int)
    ensures spec.refreshInterval == None ==> Interval(spec) == 300
    ensures spec.refreshInterval == Some(n) ==> Interval(spec) == if n >= 30 then n else 300
  {
  }

  /** What a pass reports and when the next is due, stage by stage. */
  lemma {:induction false} Outcomes(a: Attempt, outcome: Outcome, interval: int)
    requires Reached(a, outcome)
    requires match a.cr.spec.refreshInterval case None => interval == 300 case Some(n) => interval == if n >= 30 then n
             else 300
    ensures outcome.ready ==>
              outcome.reason == "Synced" && outcome.requeueAfter == interval && outcome.syncedKeys == |a.p.data|
              && outcome.message == "Synced " + IntText(|a.p.data|) + " key(s) into secret \""
                                    + (if a.cr.spec.secretName != "" then a.cr.spec.secretName else a.cr.name) + "\""
    ensures !outcome.ready ==> outcome.syncedKeys == a.cr.syncedKeyCount
    ensures a.p.failure == None <==> outcome.ready
    ensures a.p.failure.Some? && a.p.failure.value.BadCredentials? ==>
              outcome.reason == "AuthSecretInvalid" && outcome.requeueAfter == interval
              && outcome.message == Message(a.p.failure.value.error)
    ensures a.p.failure.Some? && a.p.failure.value.NotWritten? ==>
              outcome.reason == "SecretWriteFailed" && outcome.requeueAfter == Max(interval / 4, 30)
              && outcome.message == a.p.failure.value.message
    ensures outcome.reason == "FetchFailed" ==>
              outcome.requeueAfter == Max(interval / 4, 30) && outcome.message == Message(a.p.failure.value.error)
    ensures outcome.reason == "ConfigurationError" ==> outcome.requeueAfter == Max(interval, 600)
  {
    hide BrokeOff, LeasesBy, Message, RootMessage, IntText;
    Reasons();
  }

  function Max(a: int, b: int): int { if a < b then b else a }

  /** The message of a configuration error: of the API error alone when fetching failed, with
      its wrappings when synchronising did. */
  lemma {:induction false} ConfigurationMessage(a: Attempt, outcome: Outcome, notes: seq<string>, status: int)
    requires Reached(a, outcome) && outcome.reason == "ConfigurationError"
    requires a.p.failure.Some? && (a.p.failure.value.NotFetched? || a.p.failure.value.NotSynced?)
    requires a.p.failure.value.error == InWrappings(notes, ApiError(status))
    ensures a.p.failure.value.NotFetched? ==> outcome.message == Message(ApiError(status))
    ensures a.p.failure.value.NotSynced? ==> outcome.message == Prefix(notes) + Message(ApiError(status))
  {
    hide BrokeOff, LeasesBy, Message, Interval, LongBackoff, ShortBackoff, Prefix;
    Reasons();
    RootIs(notes, status, "");
    MessageIs(notes, ApiError(status));
  }

  // ---- keys ----

  /** A key is derived from version, secret and decoded salt: exactly for a known version and
      a salt of base64url characters, of a length that base64 can have, line breaks aside. */
  lemma {:induction false} DerivedKey(d: Derivation, versions: set<int>)
    requires '\r' !in d.salt && '\n' !in d.salt
    ensures Fresh(d, versions).Ok? <==>
              d.version in versions && |d.salt| % 4 != 1
              && forall i :: 0 <= i < |d.salt| ==> d.salt[i] in Alphabet() || d.salt[i] == '-' || d.salt[i] == '_'
    ensures Fresh(d, versions).Ok? ==> Fresh(d, versions).value == Derived(d.version, d.secret, d.salt)
  {
    hide Alphabet, SaltChar;
    NoBreaks(d.salt);
    forall c ensures SaltChar(c) <==> c in Alphabet() || c == '-' || c == '_' {
      SaltChars(c);
    }
  }

  lemma {:induction false} NoBreaks(s: string)
    requires '\r' !in s && '\n' !in s
    ensures SkipBreaks(s) == s
  {
    if s != "" {
      NoBreaks(s[1..]);
    }
  }

  lemma {:induction false} SaltChars(c: char)
    ensures SaltChar(c) <==> c in Alphabet() || c == '-' || c == '_'
  {
    hide Lower, Upper, Digits;
    WordChars(c);
    assert c in Alphabet() <==> c in Lower() || c in Upper() || c in Digits();
  }

  // ---- the reports on leases ----

  /** The provider is asked for what the item says, with the config that was sealed for it. */
  lemma {:induction false} CallTells(orgKey: Key, item: WorkItem, e: Event)
    requires CallFor(orgKey, item, e)
    ensures e.provider == item.provider && e.action == item.action
    ensures exists keyId, plain ::
              item.providerEnvelope == Sealed(orgKey, keyId, plain,
                                              SecretContext(item.definitionId, item.environmentId))
              && plain.asConfig == Some(e.work.config)
    ensures e.work.creationStatement == item.creationStatement
            && e.work.revocationStatement == item.revocationStatement && e.work.renewStatement == item.renewStatement
            && e.work.urlTemplate == item.urlTemplate && e.work.entityId == item.entityId
    ensures item.entityId != "" ==> e.work.username == item.entityId
    ensures item.expiresAt.Some? ==> e.work.expiresAt == item.expiresAt.value
  {
    hide IsPassword, IsUsername;
    var plain := Open(orgKey, item.providerEnvelope, ItemContext(item)).value;
    assert item.providerEnvelope == Sealed(orgKey, item.providerEnvelope.keyId, plain, ItemContext(item));
  }

  /** An item gets to its provider exactly when its config is sealed under the key for its own
      definition and environment, and provider and action are known. */
  lemma {:induction false} RunnableExactly(orgKey: Key, item: WorkItem)
    ensures Runnable(orgKey, item) <==>
              0 <= item.provider <= 5 && (item.action == 0 || item.action == 1 || item.action == 2)
              && exists keyId, plain ::
                   item.providerEnvelope == Sealed(orgKey, keyId, plain,
                                                   SecretContext(item.definitionId, item.environmentId))
                   && plain.asConfig.Some?
  {
    if item.providerEnvelope.Sealed? {
      var e := item.providerEnvelope;
      assert e == Sealed(e.key, e.keyId, e.plain, e.context);
    }
  }

  /** A success report names the lease, tells of no error, and names as the user the one the
      provider named, or the one that was asked for; what was minted is sealed for the item,
      password and all; only minting and renewing tell of an expiry. */
  lemma {:induction false} SuccessTells(orgKey: Key, orgKeyId: string, item: WorkItem, call: Event, body: CompleteLease)
    requires call.Provider? && SuccessBody(orgKey, orgKeyId, item, call, body)
    requires item.action == 0 || item.action == 1 || item.action == 2
    ensures body.leaseId == item.leaseId && body.ok && body.error == ""
    ensures item.action != 0 ==> body.entityId == call.work.username && body.mintedEnvelope == None
    ensures body.expiresAt == if item.action == 2 then None else Some(call.work.expiresAt)
    ensures item.action == 0 && call.outcome.Minting? ==>
              var given := call.outcome.minted;
              body.entityId == (if given.username != "" then given.username else call.work.username)
              && body.mintedEnvelope.Some?
              && var plain := Open(orgKey, body.mintedEnvelope.value,
                                   SecretContext(item.definitionId, item.environmentId));
                 plain.Some? && plain.value.asMinted.Some?
                 && var m := plain.value.asMinted.value;
                    m.username == body.entityId && m.password == given.password
                    && m.sessionToken == given.sessionToken && m.accessKeyId == given.accessKeyId
  {
    hide RenderedUrl;
  }

  /** A failure report names the lease, and the error by its text. */
  lemma {:induction false} FailureTells(item: WorkItem, err: Error)
    ensures var body := FailureBody(item, err);
            body.leaseId == item.leaseId && !body.ok && body.error == Message(err) && body.entityId == ""
            && body.mintedEnvelope == None && body.expiresAt == None
  {
  }

  // ---- the URL ----

  /** The host is the one that is configured, unless that is blank; then it is the first of
      the hosts, up to the first comma and without outer spaces. */
  lemma {:induction false} HostIs(cfg: ProviderConfig, first: string, rest: string)
    requires cfg.hosts == first + rest && ',' !in first && (rest != "" ==> rest[0] == ',')
    ensures FirstNonEmpty(cfg.host, FirstHost(cfg.hosts))
         == if exists c :: c in cfg.host && !IsSpace(c) then cfg.host else TrimSpace(first)
  {
    hide TrimSpace;
    BlankExactly(cfg.host);
    CommaAt(first, rest);
    TrimTwice(first);
    assert first + "" == first;
  }

  lemma {:induction false} CommaAt(first: string, rest: string)
    requires ',' !in first && (rest != "" ==> rest[0] == ',')
    ensures Index(first + rest, ",") == if rest == "" then -1 else |first|
  {
    forall k | 0 <= k < |first| ensures !OccursAt(first + rest, ",", k) {
      assert (first + rest)[k] == first[k];
      NotAt(first + rest, ",", k, 0);
    }
    IndexSkip(first, rest, ",");
  }

  lemma {:induction false} TrimTwice(s: string)
    ensures TrimSpace(TrimSpace(s)) == TrimSpace(s)
  {
    hide TrimSpace;
    var a, b := TrimSpaceSplits(s);
    TrimSpaceIs("", TrimSpace(s), "");
    assert "" + TrimSpace(s) + "" == TrimSpace(s);
  }

  /** The database is the one that is configured, unless that is blank; then it is the
      keyspace, unless that is blank, too. */
  lemma {:induction false} DatabaseIs(cfg: ProviderConfig)
    ensures FirstNonEmpty(cfg.database, cfg.keyspace)
         == if exists c :: c in cfg.database && !IsSpace(c) then cfg.database
            else if exists c :: c in cfg.keyspace && !IsSpace(c) then cfg.keyspace else ""
  {
    hide TrimSpace;
    BlankExactly(cfg.database);
    BlankExactly(cfg.keyspace);
  }

  /** What stands for each name in a URL. */
  function UrlValue(name: string, minted: Minted, host: string, port: int, database: string,
                    expires: Time): Option<string> {
    if name == "username" then Some(minted.username)
    else if name == "password" then Some(minted.password)
    else if name == "host" then Some(host)
    else if name == "port" then Some(IntText(port))
    else if name == "database" then Some(database)
    else if name == "accessKeyId" then Some(minted.accessKeyId)
    else if name == "sessionToken" then Some(minted.sessionToken)
    else if name == "expiration" then Some(expires)
    else None
  }

  /** A URL template is rendered placeholder by placeholder: each name, in either spelling,
      becomes the field of the credentials or of the config that it names, whatever the
      iteration order, and everything else stays as it is written. */
  lemma {:induction false} UrlIs(segs: seq<Segment>, minted: Minted, cfg: ProviderConfig, expires: Time, url: string,
                                 first: string, rest: string) returns (parts: seq<Segment>)
    requires Segmented(segs) && RenderedUrl(Flat(segs), minted, cfg, expires, url)
    requires exists c :: c in Flat(segs) && !IsSpace(c)
    requires cfg.hosts == first + rest && ',' !in first && (rest != "" ==> rest[0] == ',')
    requires NoBraces(minted, cfg, expires, first)
    ensures url == Flat(parts) && |parts| == |segs|
    ensures var host := if exists c :: c in cfg.host && !IsSpace(c) then cfg.host else TrimSpace(first);
            var database := if exists c :: c in cfg.database && !IsSpace(c) then cfg.database
                            else if exists c :: c in cfg.keyspace && !IsSpace(c) then cfg.keyspace else "";
            forall i, name :: 0 <= i < |segs| ==>
              UrlPart(segs[i], parts[i], name, UrlValue(name, minted, host, cfg.port, database, expires))
    ensures forall i :: 0 <= i < |segs| && segs[i].Lit? ==> parts[i] == segs[i]
    ensures forall i :: 0 <= i < |segs| && segs[i].Hole? && !NamesField(segs[i].body) ==> parts[i] == segs[i]
  {
    hide TrimSpace, UrlVars, Fold, Flat, UrlValue, Simultaneous, CleanVars, NoClash, NamesField;
    var vars := UrlVars(minted, cfg, expires);
    BlankExactly(Flat(segs));
    HostIs(cfg, first, rest);
    DatabaseIs(cfg);
    UrlVarsAre(minted, cfg, expires);
    UrlVarsClean(minted, cfg, expires, first, rest);
    var order :| IsOrder(order, vars) && url == Fold(Flat(segs), order, vars);
    OrderInvisible(segs, vars, order);
    parts := Fill(segs, Simultaneous(vars));
    forall i, name | 0 <= i < |segs|
      ensures UrlPart(segs[i], parts[i], name,
                      UrlValue(name, minted, FirstNonEmpty(cfg.host, FirstHost(cfg.hosts)), cfg.port,
                               FirstNonEmpty(cfg.database, cfg.keyspace), expires))
    {
      if segs[i].Hole? {
        SimultaneousIs(vars, segs[i].body);
      }
    }
    forall i | 0 <= i < |segs| && segs[i].Hole? && !NamesField(segs[i].body) ensures parts[i] == segs[i] {
      SimultaneousIs(vars, segs[i].body);
      FieldNames(minted, cfg, expires, segs[i].body);
    }
  }

  /** A hole that names this becomes this value. */
  predicate UrlPart(g: Segment, part: Segment, name: string, value: Option<string>) {
    g.Hole? && (g.body == name || g.body == " " + name + " ") && value.Some? ==> part == Lit(value.value)
  }

  /** The body names one of the eight fields, in either spelling. */
  predicate NamesField(body: string) {
    exists name :: name in FieldList() && (body == name || body == " " + name + " ")
  }

  function FieldList(): seq<string> {
    ["username", "password", "host", "port", "database", "accessKeyId", "sessionToken", "expiration"]
  }

  lemma {:induction false} FieldNames(minted: Minted, cfg: ProviderConfig, expires: Time, body: string)
    requires !NamesField(body)
    ensures body !in UrlVars(minted, cfg, expires)
            && forall n :: n in UrlVars(minted, cfg, expires) ==> body != Spelled(n)
  {
    hide FirstNonEmpty, FirstHost, IntText;
    forall n | n in UrlVars(minted, cfg, expires) ensures body != n && body != Spelled(n) {
      assert n in FieldList();
    }
  }

  lemma {:induction false} UrlVarsAre(minted: Minted, cfg: ProviderConfig, expires: Time)
    ensures forall name ::
              match UrlValue(name, minted, FirstNonEmpty(cfg.host, FirstHost(cfg.hosts)), cfg.port,
                             FirstNonEmpty(cfg.database, cfg.keyspace), expires)
              case None => name !in UrlVars(minted, cfg, expires)
              case Some(v) => name in UrlVars(minted, cfg, expires) && UrlVars(minted, cfg, expires)[name] == v
  {
    hide FirstNonEmpty, FirstHost, IntText;
  }

  lemma {:induction false} UrlVarsClean(minted: Minted, cfg: ProviderConfig, expires: Time, first: string, rest: string)
    requires cfg.hosts == first + rest && ',' !in first && (rest != "" ==> rest[0] == ',')
    requires NoBraces(minted, cfg, expires, first)
    ensures CleanVars(UrlVars(minted, cfg, expires)) && NoClash(UrlVars(minted, cfg, expires))
  {
    hide UrlVars, UrlValue, FirstNonEmpty, FirstHost, TrimSpace, Spelled;
    var host, database := FirstNonEmpty(cfg.host, FirstHost(cfg.hosts)), FirstNonEmpty(cfg.database, cfg.keyspace);
    HostIs(cfg, first, rest);
    DatabaseIs(cfg);
    TrimSpaceCount(first, '{');
    TrimSpaceCount(first, '}');
    UrlVarsAre(minted, cfg, expires);
    var vars := UrlVars(minted, cfg, expires);
    forall n | n in vars ensures BraceFree(n) && BraceFree(vars[n]) && n != "" && n[0] != ' ' {
      ValueIsClean(n, minted, host, cfg.port, database, expires);
    }
    forall m ensures Spelled(m) !in vars {
      SpelledStarts(m);
    }
  }

  lemma {:induction false} SpelledStarts(m: string)
    ensures Spelled(m) != "" && Spelled(m)[0] == ' '
  {
  }

  lemma {:induction false} ValueIsClean(name: string, minted: Minted, host: string, port: int, database: string,
                                        expires: Time)
    requires UrlValue(name, minted, host, port, database, expires).Some?
    requires BraceFree(minted.username) && BraceFree(minted.password) && BraceFree(minted.accessKeyId)
    requires BraceFree(minted.sessionToken) && BraceFree(host) && BraceFree(database) && BraceFree(expires)
    ensures BraceFree(name) && BraceFree(UrlValue(name, minted, host, port, database, expires).value)
    ensures name != "" && name[0] != ' '
  {
    hide IntText;
    PortIsClean(port);
  }

  predicate NoBraces(minted: Minted, cfg: ProviderConfig, expires: Time, first: string) {
    BraceFree(minted.username) && BraceFree(minted.password) && BraceFree(minted.accessKeyId)
    && BraceFree(minted.sessionToken) && BraceFree(cfg.host) && BraceFree(first) && BraceFree(cfg.database)
    && BraceFree(cfg.keyspace) && BraceFree(expires)
  }

  lemma {:induction false} PortIsClean(n: int)
    ensures BraceFree(IntText(n))
  {
    var digits := NatText(if n < 0 then -n else n);
    assert forall c :: c in digits ==> IsDigit(c);
  }

  // ---- what is opened ----

  /** An entry opens to what was sealed under the key for its own definition and environment,
      and to nothing otherwise. */
  lemma {:induction false} EntryOpens(orgKey: Key, e: BundleEntry, text: string)
    ensures EntryValue(orgKey, e) == Some(text) <==>
              exists keyId, plain ::
                e.envelope == Sealed(orgKey, keyId, plain, SecretContext(e.definitionId, e.environmentId))
                && plain.text == text
  {
    if e.envelope.Sealed? {
      assert e.envelope == Sealed(e.envelope.key, e.envelope.keyId, e.envelope.plain, e.envelope.context);
    }
  }

  /** What is recorded and more than white space is revoked, or still recorded. */
  lemma {:induction false} AccountedMeans(ids: LeaseIds, next: LeaseIds, t: seq<Event>, k: string, c: char)
    requires k in ids && c in ids[k] && !IsSpace(c)
    ensures Accounted(ids, next, t) ==> (k in next && next[k] == ids[k]) || RevokedIn(t, ids[k])
    ensures AllRevoked(ids, t) ==> RevokedIn(t, ids[k])
  {
    hide RevokedIn;
  }

  /** What counts as a revocation: the platform takes it, and then knows of no work for the
      lease, has none, or is told that it is done. */
  lemma {:induction false} Revocations(id: string, batch: WorkBatch, payload: Payload, key: Key, t: seq<Event>)
    ensures RevokeEpisode(id, [Http(PostRevoke(id), Success(payload)), Http(GetLeaseWork(id), Failure(ApiError(404)))])
    ensures batch.items == [] ==>
              RevokeEpisode(id, [Http(PostRevoke(id), Success(payload)),
                                 Http(GetLeaseWork(id), Success(WorkBody(batch)))])
    ensures batch.items != [] && Succeeded(key, batch.orgKeyId, batch.items[0], t) ==>
              RevokeEpisode(id, [Http(PostRevoke(id), Success(payload)),
                                 Http(GetLeaseWork(id), Success(WorkBody(batch))),
                                 Unsealing(batch.wrappedOrgKey, Ok(key))] + t)
    ensures !RevokeEpisode(id, []) && !RevokeEpisode(id, [Http(PostRevoke(id), Success(payload))])
  {
    hide Succeeded;
    var first := [Http(PostRevoke(id), Success(payload)), Http(GetLeaseWork(id), Success(WorkBody(batch))),
                  Unsealing(batch.wrappedOrgKey, Ok(key))];
    assert (first + t)[3..] == t;
  }

  /** Of the pairs of several leases the last under a key counts. */
  lemma {:induction false} MergedPairs(steps: seq<Ensured>, i: nat, k: string)
    requires i < |steps| && k in steps[i].pairs
    requires forall j :: i < j < |steps| ==> k !in steps[j].pairs
    ensures k in MergeAll(steps) && MergeAll(steps)[k] == steps[i].pairs[k]
  {
    var n := |steps| - 1;
    if i < n {
      MergedPairs(steps[..n], i, k);
    }
  }
}
