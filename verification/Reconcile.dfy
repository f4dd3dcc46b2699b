/** One pass over one custom resource: fetch, synchronise, write the Secret. */
module Reconcile {
  import opened Text
  import opened Platform
  import opened Wire
  import opened Leases
  import opened Sync
  import opened Secrets

  function Kind(): string { "KrypticSecret" }

  function ManagedByLabel(): string { "app.kubernetes.io/managed-by" }

  function ManagedByValue(): string { "kryptic-operator" }

  const DEFAULT_REFRESH := 300
  const MIN_REFRESH := 30
  const LONG_BACKOFF := 600

  const REASON_SYNCED := "Synced"
  const REASON_AUTH := "AuthSecretInvalid"
  const REASON_FETCH := "FetchFailed"
  const REASON_PERMANENT := "ConfigurationError"
  const REASON_WRITE := "SecretWriteFailed"

  datatype Template = Template(kind: string, labels: map<string, string>, annotations: map<string, Annotation>)

  /** `refreshInterval` is the parsed duration in seconds, if it parses. */
  datatype Spec = Spec(
    projectId: string, environment: string, secretName: string, refreshInterval: Option<int>,
    keys: seq<string>, template: Template)

  /** What a pass looks at of the resource. */
  datatype Resource = Resource(name: string, uid: nat, spec: Spec, syncedKeyCount: int)

  datatype Outcome = Outcome(requeueAfter: int, syncedKeys: int, ready: bool, reason: string, message: string)

  function TargetOf(name: string, spec: Spec): string {
    if spec.secretName != "" then spec.secretName else name
  }

  function TargetName(cr: Resource): string { TargetOf(cr.name, cr.spec) }

  function Interval(spec: Spec): (r: int)
    ensures r >= MIN_REFRESH
  {
    match spec.refreshInterval
    case None => DEFAULT_REFRESH
    case Some(s) => if s < MIN_REFRESH then DEFAULT_REFRESH else s
  }

  /** Go truncates; the intervals are positive. */
  function ShortBackoff(interval: int): (r: int)
    ensures r >= MIN_REFRESH
  {
    if interval / 4 < MIN_REFRESH then MIN_REFRESH else interval / 4
  }

  function LongBackoff(interval: int): (r: int)
    ensures r >= LONG_BACKOFF
  {
    if interval < LONG_BACKOFF then LONG_BACKOFF else interval
  }

  /** A failed pass carries the stored key count forward. */
  function FailedOutcome(reason: string, message: string, requeueAfter: int, syncedKeys: int): Outcome {
    Outcome(requeueAfter, syncedKeys, false, reason, message)
  }

  /** A misconfiguration backs off hard; `permanent` is the message for that case. */
  function PlatformFailure(e: Error, permanent: string, cr: Resource): (r: Outcome)
    ensures !r.ready && r.syncedKeys == cr.syncedKeyCount && r.requeueAfter >= MIN_REFRESH
  {
    var interval := Interval(cr.spec);
    var status := RootStatus(e);
    if status.Some? && Permanent(status.value)
    then FailedOutcome(REASON_PERMANENT, permanent, LongBackoff(interval), cr.syncedKeyCount)
    else FailedOutcome(REASON_FETCH, Message(e), ShortBackoff(interval), cr.syncedKeyCount)
  }

  /** The message of the API error at the root, without its wrapping. */
  function RootMessage(e: Error): string {
    match RootStatus(e)
    case Some(status) => Message(ApiError(status))
    case None => Message(e)
  }

  /** Where a pass broke off. */
  datatype Failure =
    | BadCredentials(error: Error)
    | NotFetched(error: Error)
    | NotSynced(error: Error)
    | NotWritten(message: string)

  function Denial(failure: Option<Failure>): seq<Error> {
    match failure
    case Some(BadCredentials(error)) => [error]
    case _ => []
  }

  function PassOutcome(cr: Resource, failure: Option<Failure>, keys: nat): (r: Outcome)
    ensures r.ready <==> failure == None
    ensures failure.Some? ==> r.syncedKeys == cr.syncedKeyCount
    ensures r.requeueAfter >= MIN_REFRESH
  {
    match failure
    case None => SyncedOutcome(keys, cr)
    case Some(BadCredentials(e)) => FailedOutcome(REASON_AUTH, Message(e), Interval(cr.spec), cr.syncedKeyCount)
    case Some(NotFetched(e)) => PlatformFailure(e, RootMessage(e), cr)
    case Some(NotSynced(e)) => PlatformFailure(e, Message(e), cr)
    case Some(NotWritten(message)) =>
      FailedOutcome(REASON_WRITE, message, ShortBackoff(Interval(cr.spec)), cr.syncedKeyCount)
  }

  function SyncedMessage(n: nat, target: string): string {
    "Synced " + IntText(n) + " key(s) into secret \"" + target + "\""
  }

  function SyncedOutcome(n: nat, cr: Resource): Outcome {
    Outcome(Interval(cr.spec), n, true, REASON_SYNCED, SyncedMessage(n, TargetName(cr)))
  }

  // ---- the Secret to write ----

  function Selected(bundle: Bundle, keys: seq<string>): map<string, string> {
    if keys == [] then bundle else map k | k in keys && k in bundle :: bundle[k]
  }

  method SelectKeys(bundle: Bundle, keys: seq<string>) returns (data: map<string, string>)
    ensures data == Selected(bundle, keys)
  {
    if |keys| == 0 {
      return bundle;
    }
    data := map[];
    for i := 0 to |keys|
      invariant data == map k | k in keys[..i] && k in bundle :: bundle[k]
    {
      if keys[i] in bundle {
        data := data[keys[i] := bundle[keys[i]]];
      }
    }
    assert keys[..|keys|] == keys;
  }

  /** The annotation is the operator's: a template cannot set it. */
  function WithLeaseIds(base: map<string, Annotation>, ids: LeaseIds): map<string, Annotation> {
    if |ids| == 0 then base - {LeaseIdsKey()} else base[LeaseIdsKey() := Json(ids)]
  }

  function DesiredSecret(cr: Resource, data: map<string, string>, ids: LeaseIds): Secret {
    Secret(
      data,
      if cr.spec.template.kind == "" then "Opaque" else cr.spec.template.kind,
      map[ManagedByLabel() := ManagedByValue()] + cr.spec.template.labels,
      WithLeaseIds(cr.spec.template.annotations, ids),
      [Owner(Kind(), cr.name, cr.uid)],
      0)
  }

  /** Data, type and owner are replaced; labels and annotations are merged in. */
  function Merged(existing: Secret, desired: Secret): Secret {
    existing.(
      data := desired.data, kind := desired.kind, labels := existing.labels + desired.labels,
      annotations := existing.annotations + desired.annotations, owners := desired.owners)
  }

  lemma {:induction false} MergedKeepsVersion(existing: Secret, desired: Secret)
    ensures Merged(existing, desired).version == existing.version
  {
  }

  predicate OwnedBy(secret: Secret, name: string) {
    exists i :: 0 <= i < |secret.owners| && secret.owners[i].kind == Kind() && secret.owners[i].name == name
  }

  /** What a write by a pass of `cr` may do: create its target, or replace the data of
      a Secret that already names it as owner. */
  ghost predicate PassWrite(cr: Resource, w: Write, data: map<string, string>, ids: LeaseIds) {
    w.name == TargetName(cr)
    && (w.before.Some? ==> OwnedBy(w.before.value, cr.name))
    && w.after == (if w.before.Some? then Merged(w.before.value, DesiredSecret(cr, data, ids))
                   else DesiredSecret(cr, data, ids)).(version := w.after.version)
  }

  /** Fails only if a request failed or the target is not the resource's; succeeds exactly
      when a write was acknowledged. */
  method ApplySecret(store: Store, cr: Resource, data: map<string, string>, ids: LeaseIds) returns (err: Option<string>)
    requires store.Valid()
    modifies store
    ensures store.Valid()
    ensures store.writes == old(store.writes)
            || exists w :: store.writes == old(store.writes) + [w] && PassWrite(cr, w, data, ids)
    ensures store.acked == old(store.acked) + if err == None then 1 else 0
    ensures store.failures >= old(store.failures) && store.denied == old(store.denied)
    ensures exists got :: store.answers == old(store.answers) + [Answer(TargetName(cr), got)]
    ensures err == None ==> store.writes != old(store.writes)
    ensures err.Some? ==>
              store.failures > old(store.failures)
              || (TargetName(cr) in store.secrets && !OwnedBy(store.secrets[TargetName(cr)], cr.name))
    ensures Recorded(TargetName(cr), old(store.touched), old(store.secrets), old(store.writes),
                     store.touched, store.secrets, store.writes)
  {
    hide DesiredSecret, Merged, OwnedBy, TargetName, Spared, Recorded;
    var name := TargetName(cr);
    var desired := DesiredSecret(cr, data, ids);
    var got := store.Get(name);
    ghost var touched, secrets := store.touched, store.secrets;
    OnlyRead(name, old(store.touched), old(store.secrets), store.writes, touched, secrets);
    match got {
      case Missing =>
        var ok := store.Create(name, desired);
        if store.writes != old(store.writes) {
          assert PassWrite(cr, store.writes[|store.writes| - 1], data, ids);
        }
        SparedFirst(name, old(store.touched), old(store.secrets), old(store.writes), touched, secrets,
                    store.touched, store.secrets, store.writes);
        err := if ok then None else Some("create failed");
      case Unavailable =>
        err := Some("secrets are unavailable");
      case Found(existing) =>
        if !OwnedBy(existing, cr.name) {
          return Some("secret already exists and is not owned by this KrypticSecret");
        }
        MergedKeepsVersion(existing, desired);
        var ok := store.Update(name, Merged(existing, desired), existing);
        if store.writes != old(store.writes) {
          assert PassWrite(cr, store.writes[|store.writes| - 1], data, ids);
        }
        SparedFirst(name, old(store.touched), old(store.secrets), old(store.writes), touched, secrets,
                    store.touched, store.secrets, store.writes);
        err := if ok then None else Some("update failed");
    }
  }

  // ---- the lease ids in the annotation ----

  /** Every error reads as "no leases"; `readable` says that there was none. */
  method ReadLeaseIds(store: Store, cr: Resource) returns (ids: LeaseIds, ghost readable: bool)
    requires store.Valid()
    modifies store
    ensures store.Valid() && store.writes == old(store.writes) && store.acked == old(store.acked)
    ensures store.failures == old(store.failures) + if readable then 0 else 1
    ensures Spared(old(store.touched), old(store.secrets), store.touched, store.secrets)
    ensures ids == if readable then RecordedIds(store.secrets, TargetName(cr)) else map[]
    ensures store.denied == old(store.denied) && |store.answers| == |old(store.answers)| + 1
    ensures ReadNext(old(store.answers), store.answers, TargetName(cr), ids, readable)
  {
    var got := store.Get(TargetName(cr));
    readable := !got.Unavailable?;
    if got.Found? {
      return DecodeIds(got.secret.annotations), readable;
    }
    return map[], readable;
  }

  /** A map that is not empty reads back as it was written; an empty one leaves an
      existing annotation in place. */
  lemma {:induction false} ReadsBack(cr: Resource, w: Write, data: map<string, string>, ids: LeaseIds)
    requires PassWrite(cr, w, data, ids)
    ensures DecodeIds(w.after.annotations) ==
            if |ids| > 0 then ids else IdsOf(w.before)
  {
    hide OwnedBy, TargetName, Merged, DesiredSecret, WithLeaseIds, DecodeIds;
    DesiredAnnotations(cr, data, ids);
    var written := WithLeaseIds(cr.spec.template.annotations, ids);
    if w.before.Some? {
      MergedAnnotations(w.before.value, DesiredSecret(cr, data, ids));
      AnnotationMerged(w.before.value.annotations, cr.spec.template.annotations, ids);
    } else {
      assert map[] + written == written;
      AnnotationMerged(map[], cr.spec.template.annotations, ids);
      assert DecodeIds(map[]) == map[] by { NothingRecorded(); }
    }
  }

  lemma {:induction false} DesiredAnnotations(cr: Resource, data: map<string, string>, ids: LeaseIds)
    ensures DesiredSecret(cr, data, ids).annotations == WithLeaseIds(cr.spec.template.annotations, ids)
  {
    hide WithLeaseIds;
  }

  lemma {:induction false} MergedAnnotations(existing: Secret, desired: Secret)
    ensures Merged(existing, desired).annotations == existing.annotations + desired.annotations
  {
  }

  lemma {:induction false} NothingRecorded()
    ensures DecodeIds(map[]) == map[]
  {
  }

  lemma {:induction false} AnnotationMerged(existing: map<string, Annotation>, base: map<string, Annotation>,
                                            ids: LeaseIds)
    ensures DecodeIds(existing + WithLeaseIds(base, ids)) == if |ids| > 0 then ids else DecodeIds(existing)
  {
    hide LeaseIdsKey;
  }

  /** So the annotation is what the pass meant to record exactly when it meant to record
      something, or there was nothing to clear. */
  lemma {:induction false} ReadsBackExact(cr: Resource, w: Write, data: map<string, string>, ids: LeaseIds)
    requires PassWrite(cr, w, data, ids)
    ensures DecodeIds(w.after.annotations) == ids <==>
            |ids| > 0 || IdsOf(w.before) == map[]
  {
    ReadsBack(cr, w, data, ids);
    assert |ids| == 0 ==> ids == map[];
  }

  // ---- the pass ----

  /** What a pass leaves behind for whoever checks it. */
  datatype PassRecord = PassRecord(
    t: seq<Event>, readable: bool, fetched: Option<Bundle>, orgKey: Key,
    run: Option<SyncRun>, extra: Bundle, next: LeaseIds, data: map<string, string>, failure: Option<Failure>)

  /** The pairs are those of a bundle that was served, opened in full with the key that was
      unsealed for it. */
  ghost predicate Served(cr: Resource, said: seq<Event>, orgKey: Key, pairs: Bundle) {
    exists t, bundle ::
      t <= said && BundleServed(t, cr.spec.projectId, cr.spec.environment, bundle, orgKey)
      && AllOpen(orgKey, bundle.secrets) && pairs == Pairs(orgKey, bundle.secrets)
  }

  /** A pass gets to write only after everything was fetched and decrypted, and every
      hint was provided for. */
  ghost predicate ReadyToWrite(cr: Resource, dynamic: bool, ids: LeaseIds, p: PassRecord) {
    p.fetched.Some? && Served(cr, p.t, p.orgKey, p.fetched.value)
    && (if dynamic then
          p.run.Some? && Synced(cr.spec.projectId, cr.spec.environment, ids, p.run.value, p.extra, p.next)
        else p.extra == map[] && p.next == ids)
    && p.data == Selected(p.fetched.value + p.extra, cr.spec.keys)
  }

  /** What a pass says about leases is what its synchronisation says, which is safe. */
  ghost predicate LeasesBy(cr: Resource, ids: LeaseIds, run: Option<SyncRun>, t: seq<Event>) {
    match run
    case None => NoRevokes(t) && NoLeaseRequests(t)
    case Some(run) =>
      SyncSafe(cr.spec.projectId, cr.spec.environment, ids, run)
      && (forall e :: e in t && (IsRevoke(e) || IsLeaseRequest(e)) ==> e in RunTrace(run))
      && (forall id :: RevokedIn(run.tail, id) ==> RevokedIn(t, id))
      && exists before :: OnlyFetching(before) && t == before + RunTrace(run)
  }

  /** How far a pass got before it broke off, if it did. */
  ghost predicate BrokeOff(cr: Resource, dynamic: bool, ids: LeaseIds, p: PassRecord) {
    match p.failure
    case None => ReadyToWrite(cr, dynamic, ids, p)
    case Some(BadCredentials(_)) => p.t == [] && p.fetched == None && p.run == None
    case Some(NotFetched(error)) =>
      p.fetched == None && p.run == None && FetchBroke(p.t, cr.spec.projectId, cr.spec.environment, error)
    case Some(NotSynced(error)) =>
      dynamic && p.fetched.Some? && p.run.Some?
      && SyncBroke(cr.spec.projectId, cr.spec.environment, ids, p.run.value, error)
    case Some(NotWritten(_)) => ReadyToWrite(cr, dynamic, ids, p)
  }

  /** One step of the books: every id that was recorded and is not blank is still
      recorded under its key, or what was said in between revoked it. */
  ghost predicate Accounted(ids: LeaseIds, next: LeaseIds, t: seq<Event>) {
    forall k :: k in ids && HasText(ids[k]) ==> (k in next && next[k] == ids[k]) || RevokedIn(t, ids[k])
  }

  /** Everything recorded that is not blank was revoked in these events. */
  ghost predicate AllRevoked(ids: LeaseIds, t: seq<Event>) {
    forall k :: k in ids && HasText(ids[k]) ==> RevokedIn(t, ids[k])
  }

  /** A write by a pass that read the annotation loses no id. */
  lemma {:induction false} WriteIsAccounted(cr: Resource, dynamic: bool, ids: LeaseIds, p: PassRecord, w: Write)
    requires ReadyToWrite(cr, dynamic, ids, p) && PassWrite(cr, w, p.data, p.next)
    requires ids == IdsOf(w.before)
    requires p.run.Some? ==> forall id :: RevokedIn(p.run.value.tail, id) ==> RevokedIn(p.t, id)
    ensures Accounted(ids, DecodeIds(w.after.annotations), p.t)
  {
    hide PassWrite, RevokedIn, DecodeIds, Selected, Synced;
    ReadsBack(cr, w, p.data, p.next);
    var next := DecodeIds(w.after.annotations);
    forall k | k in ids && HasText(ids[k]) ensures (k in next && next[k] == ids[k]) || RevokedIn(p.t, ids[k]) {
      if dynamic && |p.next| > 0 {
        var c :| c in ids[k] && !IsSpace(c);
        KeptOrRevoked(cr.spec.projectId, cr.spec.environment, ids, p.run.value, p.extra, p.next, k, c);
      }
    }
  }

  /** And it keeps the annotation injective, on a platform that never reissues an id. */
  lemma {:induction false} WriteKeepsInjective(cr: Resource, dynamic: bool, ids: LeaseIds, p: PassRecord, w: Write)
    requires ReadyToWrite(cr, dynamic, ids, p) && PassWrite(cr, w, p.data, p.next)
    requires ids == IdsOf(w.before)
    requires Injective(ids) && (p.run.Some? ==> NeverReissues(ids, p.run.value))
    ensures Injective(DecodeIds(w.after.annotations))
  {
    hide PassWrite, DecodeIds, Selected, Synced, NeverReissues;
    ReadsBack(cr, w, p.data, p.next);
    if dynamic {
      LeasesInjective(cr.spec.projectId, cr.spec.environment, ids, p.run.value, p.extra, p.next);
    }
  }

  /** Without the read it is not so: a pass that took the annotation for empty revokes
      nothing, and every recorded id it does not happen to record again is lost. */
  lemma {:induction false} UnreadIsLost(cr: Resource, p: PassRecord, w: Write, k: string)
    requires ReadyToWrite(cr, true, map[], p) && PassWrite(cr, w, p.data, p.next)
    requires p.run.Some? ==> forall e :: e in p.t && IsRevoke(e) ==> e in RunTrace(p.run.value)
    requires |p.next| > 0 && k in IdsOf(w.before)
    requires Lookup(p.next, k) != IdsOf(w.before)[k]
    ensures var id := IdsOf(w.before)[k];
            Lookup(DecodeIds(w.after.annotations), k) != id && NoRevokes(p.t) && !RevokedIn(p.t, id)
  {
    hide PassWrite, DecodeIds, Selected, StepsTrace, LeaseMap, Provided;
    ReadsBack(cr, w, p.data, p.next);
    var run := p.run.value;
    StepsNoRevokes(run.steps);
    NothingStale(p.next);
    assert NoRevokes(run.tail);
    NeverAskedNeverRevoked(p.t, IdsOf(w.before)[k]);
  }

  lemma {:induction false} NothingStale(leases: LeaseIds)
    ensures forall k :: !Stale(map[], leases, k)
  {
  }

  lemma {:induction false} NeverAskedNeverRevoked(t: seq<Event>, id: string)
    requires NoRevokes(t)
    ensures !RevokedIn(t, id)
  {
    forall i, j | 0 <= i <= j <= |t| ensures !RevokeEpisode(id, t[i..j]) {
      if i < j {
        assert t[i..j][0] == t[i] && t[i] in t;
      }
    }
  }

  /** A bundle was fetched and opened in full, and what was synchronised is in it. */
  ghost predicate Gathered(cr: Resource, dynamic: bool, ids: LeaseIds, p: PassRecord, bundle: Bundle) {
    p.fetched.Some? && Served(cr, p.t, p.orgKey, p.fetched.value)
    && if dynamic then
         p.run.Some? && Synced(cr.spec.projectId, cr.spec.environment, ids, p.run.value, p.extra, p.next)
         && bundle == p.fetched.value + p.extra
       else p.extra == map[] && p.next == ids && bundle == p.fetched.value
  }

  lemma {:induction false} FetchServed(cr: Resource, t: seq<Event>, orgKey: Key, pairs: Bundle)
    requires FetchEnds(t, cr.spec.projectId, cr.spec.environment, orgKey, Ok(pairs))
    ensures Served(cr, t, orgKey, pairs)
  {
    hide AllOpen, BundleServed;
    assert t <= t;
  }

  /** What was served stays served, whatever is said afterwards. */
  lemma {:induction false} ServedLater(cr: Resource, said: seq<Event>, orgKey: Key, pairs: Bundle, more: seq<Event>)
    requires Served(cr, said, orgKey, pairs)
    ensures Served(cr, said + more, orgKey, pairs)
  {
    hide AllOpen, BundleServed;
    var t, bundle :| t <= said && BundleServed(t, cr.spec.projectId, cr.spec.environment, bundle, orgKey)
                     && AllOpen(orgKey, bundle.secrets) && pairs == Pairs(orgKey, bundle.secrets);
    assert t <= said + more;
  }

  /** What was gathered is ready to be written, however that ends. */
  lemma {:induction false} Ready(cr: Resource, dynamic: bool, ids: LeaseIds, p: PassRecord, bundle: Bundle)
    requires Gathered(cr, dynamic, ids, p, bundle)
    ensures forall f :: ReadyToWrite(cr, dynamic, ids, p.(data := Selected(bundle, cr.spec.keys), failure := f))
  {
    hide BundleServed, AllOpen, Synced, Selected;
    assert p.fetched.value + map[] == p.fetched.value;
  }

  /** One pass: the resource it was for, whether the platform has dynamic secrets, the ids
      it started from, and what it left behind. */
  datatype Attempt = Attempt(cr: Resource, dynamic: bool, ids: LeaseIds, p: PassRecord)

  /** The outcome is the one this pass came to. */
  ghost predicate Reached(a: Attempt, outcome: Outcome) {
    outcome == PassOutcome(a.cr, a.p.failure, |a.p.data|)
    && BrokeOff(a.cr, a.dynamic, a.ids, a.p)
    && LeasesBy(a.cr, a.ids, a.p.run, a.p.t)
  }

  /** What every outcome of a pass says. */
  lemma {:induction false} ReachedMeans(a: Attempt, outcome: Outcome)
    requires Reached(a, outcome)
    ensures outcome.ready <==> a.p.failure == None
    ensures outcome.syncedKeys == if outcome.ready then |a.p.data| else a.cr.syncedKeyCount
    ensures outcome.requeueAfter >= MIN_REFRESH
    ensures LeasesBy(a.cr, a.ids, a.p.run, a.p.t)
  {
    hide BrokeOff, LeasesBy, SyncedMessage, TargetOf;
  }

  /** The HTTP status at the root of what the platform answered, where that ended the pass. */
  function FailureStatus(failure: Option<Failure>): Option<int> {
    match failure
    case Some(NotFetched(error)) => RootStatus(error)
    case Some(NotSynced(error)) => RootStatus(error)
    case _ => None
  }

  /** A pass reports a configuration error, and backs off hard, exactly when what the
      platform answered ended it and has the status 401, 403 or 404 at its root; and then
      that is the status of something that did go wrong in the pass. */
  lemma {:induction false} ConfigurationExactly(a: Attempt, outcome: Outcome)
    requires Reached(a, outcome)
    ensures outcome.reason == REASON_PERMANENT <==>
              FailureStatus(a.p.failure).Some? && Permanent(FailureStatus(a.p.failure).value)
    ensures outcome.reason == REASON_PERMANENT ==> outcome.requeueAfter == LongBackoff(Interval(a.cr.spec))
    ensures outcome.reason == REASON_FETCH ==> outcome.requeueAfter == ShortBackoff(Interval(a.cr.spec))
    ensures FailureStatus(a.p.failure).Some? ==>
              exists e :: e in a.p.t && StatusOf(e) == FailureStatus(a.p.failure)
    ensures a.p.failure.Some? && a.p.failure.value.NotFetched? ==>
              a.p.t != [] && FailureStatus(a.p.failure) == StatusOf(a.p.t[|a.p.t| - 1])
  {
    hide BrokeOff, LeasesBy, Message, RootMessage, LongBackoff, ShortBackoff, Interval, SyncedMessage, Complaint;
    Reasons();
    if a.p.failure.Some? && a.p.failure.value.NotFetched? {
      FetchFailed(a, outcome);
    }
    if FailureStatus(a.p.failure).Some? {
      FailureCause(a, outcome);
    }
  }

  lemma {:induction false} FetchFailed(a: Attempt, outcome: Outcome)
    requires Reached(a, outcome) && a.p.failure.Some? && a.p.failure.value.NotFetched?
    ensures a.p.t != [] && FailureStatus(a.p.failure) == StatusOf(a.p.t[|a.p.t| - 1])
  {
    hide PassOutcome, Complaint;
    FetchCause(a.p.t, a.cr.spec.projectId, a.cr.spec.environment, a.p.failure.value.error);
  }

  lemma {:induction false} Reasons()
    ensures REASON_PERMANENT != REASON_SYNCED && REASON_PERMANENT != REASON_AUTH && REASON_PERMANENT != REASON_FETCH
    ensures REASON_PERMANENT != REASON_WRITE && REASON_FETCH != REASON_SYNCED && REASON_FETCH != REASON_AUTH
    ensures REASON_FETCH != REASON_WRITE
  {
    assert REASON_PERMANENT[0] == 'C' && REASON_SYNCED[0] == 'S' && REASON_AUTH[0] == 'A' && REASON_FETCH[0] == 'F';
    assert REASON_WRITE[0] == 'S';
  }

  lemma {:induction false} FailureCause(a: Attempt, outcome: Outcome)
    requires Reached(a, outcome) && FailureStatus(a.p.failure).Some?
    ensures exists e :: e in a.p.t && StatusOf(e) == FailureStatus(a.p.failure)
  {
    hide PassOutcome, Complaint, SyncBroke, FetchBroke, SyncSafe, RunTrace, OnlyFetching;
    var cr, p := a.cr, a.p;
    if p.failure.value.NotFetched? {
      FetchCause(p.t, cr.spec.projectId, cr.spec.environment, p.failure.value.error);
    } else {
      var run, error := p.run.value, p.failure.value.error;
      SyncCause(cr.spec.projectId, cr.spec.environment, a.ids, run, error);
      var before :| OnlyFetching(before) && p.t == before + RunTrace(run);
      CausedLater(before, RunTrace(run), [], error);
      assert before + RunTrace(run) + [] == p.t;
    }
  }

  ghost predicate RefusedWith(e: Event, status: int) {
    e.Http? && e.reply == Failure(ApiError(status))
  }

  /** A fetch that ended with a refused request: the status decides, also where the error is
      wrapped on the way. */
  lemma {:induction false} FetchRefused(a: Attempt, outcome: Outcome, status: int)
    requires Reached(a, outcome) && a.p.failure.Some? && a.p.failure.value.NotFetched?
    requires a.p.t != [] && RefusedWith(a.p.t[|a.p.t| - 1], status)
    ensures outcome.reason == "ConfigurationError" <==> status == 401 || status == 403 || status == 404
    ensures outcome.reason != "ConfigurationError" ==> outcome.reason == "FetchFailed"
    ensures !outcome.ready && outcome.syncedKeys == a.cr.syncedKeyCount
  {
    hide LeasesBy, Interval, LongBackoff, ShortBackoff, SyncedMessage, FetchEnds, BundleServed;
    var e := a.p.t[|a.p.t| - 1];
    var error := a.p.failure.value.error;
    Reasons();
    UnsealedNext(a.p.t, a.cr.spec.projectId, a.cr.spec.environment, error);
    RootIs([], status, "");
    RootIs(["fetching machine keys"], status, "");
    assert error == if e.request.GetKeys? then InWrappings(["fetching machine keys"], ApiError(status))
           else ApiError(status)
    by {
      assert ["fetching machine keys"][1..] == [];
    }
  }

  /** When the last event went wrong, its error is that of the fetch. */
  lemma {:induction false} UnsealedNext(t: seq<Event>, project: string, environment: string, error: Error)
    requires FetchBroke(t, project, environment, error)
    ensures t != [] && (Complaint(t[|t| - 1]).Some? ==> Complaint(t[|t| - 1]) == Some(error))
  {
    hide AllOpen;
    if Complaint(t[|t| - 1]) != Some(error) {
      var bundle, orgKey, i :| BundleServed(t, project, environment, bundle, orgKey)
                               && ShutFirst(orgKey, bundle.secrets, i) && error == DecryptError(bundle.secrets[i]);
      UnsealingComplaint(bundle.wrappedOrgKey, Ok(orgKey));
    }
  }

  /** A synchronisation that ended with a lease request or a revocation that was refused, or
      with lease work that could not be had: the status decides here, too. */
  lemma {:induction false} SyncRefused(a: Attempt, outcome: Outcome, status: int)
    requires Reached(a, outcome) && a.p.failure.Some? && a.p.failure.value.NotSynced?
    requires var run := a.p.run.value;
             if run.tail != [] then RefusedWith(run.tail[|run.tail| - 1], status)
                                    && run.tail[|run.tail| - 1].request.PostRevoke?
             else run.partial != [] && RefusedWith(run.partial[|run.partial| - 1], status)
                  && (run.partial[|run.partial| - 1].request.PostLease?
                      || run.partial[|run.partial| - 1].request.GetLeaseWork?)
    ensures outcome.reason == "ConfigurationError" <==> status == 401 || status == 403 || status == 404
    ensures outcome.reason != "ConfigurationError" ==> outcome.reason == "FetchFailed"
    ensures !outcome.ready && outcome.syncedKeys == a.cr.syncedKeyCount
  {
    hide LeasesBy, Interval, LongBackoff, ShortBackoff, SyncedMessage, SyncSafe, Unprovided, RevokesBroke, OwnWorkFirst,
         ServedHints, OnlyStale, HeadBroke;
    var run, error := a.p.run.value, a.p.failure.value.error;
    var project, environment := a.cr.spec.projectId, a.cr.spec.environment;
    Reasons();
    RootIs([], status, "");
    if run.tail != [] {
      TailIsStale(project, environment, a.ids, run, error);
      var ids :| RevokesBroke(ids, run.tail, error);
      RevokesRefused(ids, run.tail, error, ApiError(status));
    } else {
      PartialIsHint(project, environment, a.ids, run, error);
      var hint := run.hints[|run.steps|];
      HintRefused(run.orgKey, project, environment, hint, Lookup(a.ids, hint.key), run.partial, error,
                  ApiError(status));
      RootIs([error.note], status, "");
      assert [error.note][1..] == [];
      assert InWrappings([error.note], ApiError(status)) == error;
    }
  }

  lemma {:induction false} TailIsStale(project: string, environment: string, existing: LeaseIds, run: SyncRun,
                                       error: Error)
    requires SyncBroke(project, environment, existing, run, error) && run.tail != []
    ensures exists ids :: RevokesBroke(ids, run.tail, error)
  {
    hide Provided, HeadBroke, RevokesBroke, OnlyStale, OwnWorkFirst, Unprovided, NoRevokes, NoLeaseRequests;
  }

  lemma {:induction false} PartialIsHint(project: string, environment: string, existing: LeaseIds, run: SyncRun,
                                         error: Error)
    requires SyncBroke(project, environment, existing, run, error) && run.partial != []
    ensures |run.steps| < |run.hints| && HintBroke(project, environment, existing, run, error)
  {
    hide Provided, HeadBroke, RevokesBroke, OnlyStale, OwnWorkFirst, Unprovided, NoRevokes, NoLeaseRequests;
  }

  /** A pass that got to write ends with the write. */
  lemma {:induction false} Ends(cr: Resource, dynamic: bool, ids: LeaseIds, p: PassRecord)
    requires ReadyToWrite(cr, dynamic, ids, p) && LeasesBy(cr, ids, p.run, p.t)
    requires p.failure.Some? ==> p.failure.value.NotWritten?
    ensures Reached(Attempt(cr, dynamic, ids, p), PassOutcome(cr, p.failure, |p.data|))
  {
    hide ReadyToWrite, LeasesBy;
  }

  lemma {:induction false} Unstarted(cr: Resource, dynamic: bool, ids: LeaseIds, p: PassRecord)
    requires p.t == [] && p.fetched == None && p.run == None && p.failure.Some? && p.failure.value.BadCredentials?
    ensures Reached(Attempt(cr, dynamic, ids, p), PassOutcome(cr, p.failure, |p.data|))
  {
  }

  class Reconciler {
    const c: Client
    const store: Store
    const dynamic: bool

    constructor (c: Client, store: Store, dynamic: bool)
      ensures this.c == c && this.store == store && this.dynamic == dynamic
    {
      this.c, this.store, this.dynamic := c, store, dynamic;
    }

    /** Fetches the bundle and synchronises the leases; `stop` is how a pass ends that
        could not. */
    method Gather(cr: Resource, creds: Credentials)
      returns (stop: Option<Outcome>, bundle: Bundle, leaseIds: LeaseIds, ghost p: PassRecord, ghost ids: LeaseIds)
      requires store.Valid()
      modifies c, store
      ensures store.Valid() && store.writes == old(store.writes) && store.acked == old(store.acked)
      ensures store.failures >= old(store.failures) && store.denied == old(store.denied)
      ensures Spared(old(store.touched), old(store.secrets), store.touched, store.secrets)
      ensures c.trace == old(c.trace) + p.t && LeasesBy(cr, ids, p.run, p.t)
      ensures stop.Some? ==> Reached(Attempt(cr, dynamic, ids, p), stop.value)
      ensures p.failure.Some? <==> stop.Some?
      ensures stop.Some? ==> !stop.value.ready
      ensures p.failure.Some? ==> p.failure.value.NotFetched? || p.failure.value.NotSynced?
      ensures stop == None ==> Gathered(cr, dynamic, ids, p, bundle) && p.next == leaseIds && p.fetched.Some?
      ensures if p.fetched == None then store.answers == old(store.answers)
              else ReadNext(old(store.answers), store.answers, TargetName(cr), ids, p.readable)
      ensures !p.readable ==> ids == map[] && store.failures > old(store.failures)
      ensures p.readable && store.touched[TargetName(cr)] == old(store.touched[TargetName(cr)]) ==>
                ids == RecordedIds(old(store.secrets), TargetName(cr))
    {
      hide Synced, SyncSafe, RunTrace, Interval, PlatformFailure, RootMessage, Message, TargetOf,
           DecodeIds, LeasesBy, RecordedIds, Spared, Served, FetchBroke, SyncBroke, BundleServed, AllOpen, ReadNext;
      p := PassRecord([], true, None, 0, None, map[], map[], map[], None);
      ids := RecordedIds(store.secrets, TargetName(cr));
      leaseIds := map[];
      SparedAlways(store.touched, store.secrets);
      ghost var t, orgKey;
      var fetched: Result<Bundle>;
      fetched, t, orgKey := Fetch(c, creds, cr.spec.projectId, cr.spec.environment);
      p := p.(t := t, orgKey := orgKey);
      FetchIsQuiet(cr, ids, t);
      if fetched.Err? {
        p := p.(failure := Some(NotFetched(fetched.error)));
        return Some(PlatformFailure(fetched.error, RootMessage(fetched.error), cr)), map[], leaseIds, p, ids;
      }
      bundle := fetched.value;
      p := p.(fetched := Some(bundle));
      FetchServed(cr, t, orgKey, bundle);
      ghost var readable;
      leaseIds, readable := ReadLeaseIds(store, cr);
      ids := leaseIds;
      FetchIsQuiet(cr, ids, t);
      OnlyRead(TargetName(cr), old(store.touched), old(store.secrets), store.writes, store.touched, store.secrets);
      p := p.(readable := readable);
      if dynamic {
        ghost var run;
        var synced: Result<SyncResult>;
        synced, run := SyncDynamic(c, creds, cr.spec.projectId, cr.spec.environment, leaseIds);
        LeasesOfRun(cr, ids, t, run);
        GroupTraces(old(c.trace), t, RunTrace(run));
        ServedLater(cr, t, orgKey, bundle, RunTrace(run));
        p := p.(t := t + RunTrace(run), run := Some(run));
        if synced.Err? {
          p := p.(failure := Some(NotSynced(synced.error)));
          return Some(PlatformFailure(synced.error, Message(synced.error), cr)), bundle, leaseIds, p, ids;
        }
        bundle := bundle + synced.value.pairs;
        leaseIds := synced.value.leases;
        p := p.(extra := synced.value.pairs);
      }
      p := p.(next := leaseIds);
      return None, bundle, leaseIds, p, ids;
    }

    /** Nothing is written unless everything is ready, and then at most once; the
        outcome is ready exactly when a write was acknowledged, and a write is given up
        only if a request failed or the target is not the resource's. */
    method Reconcile(cr: Resource) returns (r: Outcome, ghost p: PassRecord, ghost ids: LeaseIds)
      requires store.Valid()
      modifies c, store
      ensures store.Valid() && c.trace == old(c.trace) + p.t
      ensures store.writes == old(store.writes)
              || (ReadyToWrite(cr, dynamic, ids, p)
                  && exists w :: store.writes == old(store.writes) + [w] && PassWrite(cr, w, p.data, p.next))
      ensures Reached(Attempt(cr, dynamic, ids, p), r)
      ensures store.acked == old(store.acked) + if r.ready then 1 else 0
      ensures store.failures >= old(store.failures)
      ensures store.denied == old(store.denied) + Denial(p.failure)
      ensures r.ready ==> store.writes != old(store.writes)
      ensures p.failure.Some? && p.failure.value.NotWritten? ==>
                store.failures > old(store.failures)
                || (TargetName(cr) in store.secrets && !OwnedBy(store.secrets[TargetName(cr)], cr.name))
      ensures if p.fetched == None then store.answers == old(store.answers)
              else ReadNext(old(store.answers), store.answers, TargetName(cr), ids, p.readable)
      ensures !p.readable ==> ids == map[] && store.failures > old(store.failures)
      ensures p.readable && store.touched[TargetName(cr)] == old(store.touched[TargetName(cr)]) ==>
                ids == RecordedIds(old(store.secrets), TargetName(cr))
      ensures Recorded(TargetName(cr), old(store.touched), old(store.secrets), old(store.writes),
                       store.touched, store.secrets, store.writes)
    {
      hide Synced, PassWrite, Interval, ShortBackoff, SyncedOutcome, Message, TargetOf, LeasesBy,
           ReadyToWrite,
           Selected, Spared, Recorded, OwnedBy, PlatformFailure, RootMessage, DecodeIds, Gathered, Reached, BrokeOff,
           ReadNext;
      p := PassRecord([], true, None, 0, None, map[], map[], map[], None);
      ids := RecordedIds(store.secrets, TargetName(cr));
      hide RecordedIds;
      var creds := store.Credentials();
      ghost var touched, secrets := store.touched, store.secrets;
      OnlyRead(TargetName(cr), old(store.touched), old(store.secrets), store.writes, touched, secrets);
      if creds.Err? {
        p := p.(failure := Some(BadCredentials(creds.error)));
        Unstarted(cr, dynamic, ids, p);
        return FailedOutcome(REASON_AUTH, Message(creds.error), Interval(cr.spec), cr.syncedKeyCount), p, ids;
      }
      var stop, bundle, leaseIds;
      stop, bundle, leaseIds, p, ids := Gather(cr, creds.value);
      SparedTwice(old(store.touched), old(store.secrets), touched, secrets, store.touched, store.secrets);
      OnlyRead(TargetName(cr), touched, secrets, store.writes, store.touched, store.secrets);
      OnlyRead(TargetName(cr), old(store.touched), old(store.secrets), store.writes, store.touched, store.secrets);
      if stop.Some? {
        return stop.value, p, ids;
      }
      touched, secrets := store.touched, store.secrets;
      var data := SelectKeys(bundle, cr.spec.keys);
      Ready(cr, dynamic, ids, p, bundle);
      p := p.(data := data);
      ghost var answers := store.answers;
      var err := ApplySecret(store, cr, data, leaseIds);
      ReadStill(old(store.answers), answers, TargetName(cr), ids, p.readable, store.answers[|answers|..]);
      SparedFirst(TargetName(cr), old(store.touched), old(store.secrets), old(store.writes), touched, secrets,
                  store.touched, store.secrets, store.writes);
      if err.Some? {
        p := p.(failure := Some(NotWritten(err.value)));
        Ends(cr, dynamic, ids, p);
        return FailedOutcome(REASON_WRITE, err.value, ShortBackoff(Interval(cr.spec)), cr.syncedKeyCount), p, ids;
      }
      Ends(cr, dynamic, ids, p);
      return SyncedOutcome(|data|, cr), p, ids;
    }

    /** Revokes everything recorded for the resource; `read` is what was read as recorded.
        An error has its reason: there are no credentials, or a revocation failed. A Secret
        that could not be read, or records nothing, leaves nothing to do. */
    method RevokeCrLeases(cr: Resource)
      returns (err: Option<Error>, ghost t: seq<Event>, ghost readable: bool, ghost read: LeaseIds)
      requires store.Valid()
      modifies c, store
      ensures store.Valid() && store.writes == old(store.writes) && store.acked == old(store.acked)
      ensures c.trace == old(c.trace) + t && NoLeaseRequests(t)
      ensures Spared(old(store.touched), old(store.secrets), store.touched, store.secrets)
      ensures if dynamic then
                |store.answers| == |old(store.answers)| + 1
                && ReadNext(old(store.answers), store.answers, TargetName(cr), read, readable)
              else store.answers == old(store.answers) && readable && read == map[]
      ensures readable && store.touched[TargetName(cr)] == old(store.touched[TargetName(cr)]) && dynamic ==>
                read == RecordedIds(store.secrets, TargetName(cr))
      ensures store.failures == old(store.failures) + if readable then 0 else 1
      ensures match err
              case None => AllRevoked(read, t)
              case Some(error) => store.denied == old(store.denied) + [error] || RevokingBroke(read, t, error)
      ensures !readable || read == map[] ==> err == None && t == []
    {
      hide RevokedIn, RecordedIds, RevokesBroke, ReadNext, Spared;
      t, readable, read := [], true, map[];
      SparedAlways(store.touched, store.secrets);
      if !dynamic {
        return None, t, readable, read;
      }
      var ids;
      ids, readable := ReadLeaseIds(store, cr);
      read := ids;
      ghost var touched, secrets, answers := store.touched, store.secrets, store.answers;
      OnlyRead(TargetName(cr), old(store.touched), old(store.secrets), store.writes, touched, secrets);
      UnreadIsNone(old(store.answers), answers, TargetName(cr), ids, readable);
      if |ids| == 0 {
        assert ids == map[];
        return None, t, readable, read;
      }
      var creds := store.Credentials();
      SparedTwice(old(store.touched), old(store.secrets), touched, secrets, store.touched, store.secrets);
      OnlyRead(TargetName(cr), touched, secrets, store.writes, store.touched, store.secrets);
      if creds.Err? {
        return Some(creds.error), t, readable, read;
      }
      var list: seq<string> := [];
      var left := ids.Keys;
      while left != {}
        invariant left <= ids.Keys
        invariant forall id :: id in list ==> id in ids.Values
        invariant forall k :: k in ids && k !in left ==> ids[k] in list
        decreases left
      {
        var key :| key in left;
        list := list + [ids[key]];
        left := left - {key};
      }
      err, t := RevokeLeases(c, creds.value, list);
    }
  }

  /** Revoking some of these ids failed. */
  ghost predicate RevokingBroke(ids: LeaseIds, t: seq<Event>, error: Error) {
    exists list :: (forall id :: id in list ==> id in ids.Values) && RevokesBroke(list, t, error)
  }

  lemma {:induction false} UnreadIsNone(answers: seq<Answer>, answers': seq<Answer>, name: string, ids: LeaseIds,
                                        readable: bool)
    requires ReadNext(answers, answers', name, ids, readable)
    ensures !readable ==> ids == map[]
  {
  }

  /** Fetching sends no lease request and no revocation. */
  lemma {:induction false} FetchIsQuiet(cr: Resource, ids: LeaseIds, t: seq<Event>)
    requires OnlyFetching(t)
    ensures LeasesBy(cr, ids, None, t)
  {
  }

  /** The rest of the pass is its run. */
  lemma {:induction false} LeasesOfRun(cr: Resource, ids: LeaseIds, t: seq<Event>, run: SyncRun)
    requires OnlyFetching(t) && SyncSafe(cr.spec.projectId, cr.spec.environment, ids, run)
    ensures LeasesBy(cr, ids, Some(run), t + RunTrace(run))
  {
    hide RevokedIn, StepsTrace, SyncSafe;
    forall id | RevokedIn(run.tail, id) ensures RevokedIn(t + RunTrace(run), id) {
      var before := t + run.head + StepsTrace(run.steps) + run.partial;
      RevokedInside(before, run.tail, [], id);
      assert before + run.tail + [] == t + RunTrace(run);
    }
  }
}
