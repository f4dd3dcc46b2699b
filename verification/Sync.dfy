/** One synchronisation of the dynamic secrets: reuse or mint for every hint, then
    revoke what is no longer used. */
module Sync {
  import opened Text
  import opened Platform
  import opened Wire
  import opened Apply
  import opened Leases

  type LeaseIds = map<string, string>

  /** Reading a Go map: the zero value for a missing key. */
  function Lookup(m: LeaseIds, k: string): string {
    if k in m then m[k] else ""
  }

  // ---- what a synchronisation comes to ----

  /** The lease map: each hint's id, in the order of the hints, unless it is empty. */
  function LeaseMap(hints: seq<DynamicHint>, steps: seq<Ensured>): LeaseIds
    requires |steps| <= |hints|
  {
    if steps == [] then map[]
    else
      var n := |steps| - 1;
      var m := LeaseMap(hints, steps[..n]);
      if steps[n].id == "" then m else m[hints[n].key := steps[n].id]
  }

  /** All pairs, a later hint winning over an earlier one. */
  function MergeAll(steps: seq<Ensured>): Bundle {
    if steps == [] then map[] else MergeAll(steps[..|steps| - 1]) + steps[|steps| - 1].pairs
  }

  function StepsTrace(steps: seq<Ensured>): seq<Event> {
    if steps == [] then [] else StepsTrace(steps[..|steps| - 1]) + steps[|steps| - 1].trace
  }

  ghost predicate Stale(existing: LeaseIds, leases: LeaseIds, k: string) {
    k in existing && Lookup(leases, k) != existing[k]
  }

  /** The phases of one synchronisation: fetching and the operator's own work; the
      hints one by one, the last of them possibly broken off; the revocations. */
  datatype SyncRun = SyncRun(
    orgKey: Key, hints: seq<DynamicHint>, head: seq<Event>, steps: seq<Ensured>,
    partial: seq<Event>, tail: seq<Event>)

  function RunTrace(run: SyncRun): seq<Event> {
    run.head + StepsTrace(run.steps) + run.partial + run.tail
  }

  /** What holds of every synchronisation, successful or not. */
  ghost predicate SyncSafe(project: string, environment: string, existing: LeaseIds, run: SyncRun) {
    |run.steps| <= |run.hints|
    && NoRevokes(run.head) && NoLeaseRequests(run.head) && NoRevokes(run.partial) && NoLeaseRequests(run.tail)
    && (forall i :: 0 <= i < |run.steps| ==>
          NoRevokes(run.steps[i].trace)
          && Provided(run.orgKey, project, environment, run.hints[i], Lookup(existing, run.hints[i].key), run.steps[i]))
    && (|run.steps| < |run.hints| ==> run.tail == [])
    && (forall e :: e in run.tail && IsRevoke(e) ==>
          exists k :: Stale(existing, LeaseMap(run.hints, run.steps), k) && existing[k] == e.request.leaseId)
  }

  /** What holds of a successful one. */
  ghost predicate Synced(project: string, environment: string, existing: LeaseIds, run: SyncRun, out: Bundle,
                         leases: LeaseIds) {
    SyncSafe(project, environment, existing, run)
    && |run.steps| == |run.hints| && run.partial == []
    && ServedHints(run, project, environment)
    && (if run.hints == [] && existing == map[] then !AsksWork(run.head) else OwnWorkFirst(run.orgKey, run.head, None))
    && out == MergeAll(run.steps) && leases == LeaseMap(run.hints, run.steps)
    && forall k :: Stale(existing, leases, k) && HasText(existing[k]) ==> RevokedIn(run.tail, existing[k])
  }

  /** The hints are those of the bundle the platform served. */
  ghost predicate ServedHints(run: SyncRun, project: string, environment: string) {
    exists e :: e in run.head && e.Http? && e.request == GetBundle(project, environment)
                && e.reply.Success? && e.reply.payload.BundleBody? && e.reply.payload.bundle.dynamicSecrets == run.hints
  }

  ghost predicate AsksWork(t: seq<Event>) {
    exists e :: e in t && (OnlyWork(e) || (e.Http? && e.request == GetWork))
  }

  /** The bundle's key was unsealed last. */
  predicate Unlocked(orgKey: Key, t: seq<Event>) {
    t != [] && t[|t| - 1].Unsealing? && t[|t| - 1].result == Ok(orgKey)
  }

  /** Once there is the key, the operator's own work is asked for and applied, up to the
      first failure. */
  ghost predicate OwnWorkFirst(orgKey: Key, head: seq<Event>, err: Option<Error>) {
    exists before, reply, parts ::
      Unlocked(orgKey, before) && !AsksWork(before) && head == before + ([Http(GetWork, reply)] + Joined(parts))
      && OwnWork(orgKey, reply, parts, err)
  }

  /** How a synchronisation fails: on the way to the key; with the operator's own work; with
      the hint after those provided for; or with a revocation. */
  ghost predicate SyncBroke(project: string, environment: string, existing: LeaseIds, run: SyncRun, error: Error) {
    SyncSafe(project, environment, existing, run)
    && if run.steps == [] && run.partial == [] && run.tail == [] && HeadBroke(run, error) then true
       else
         OwnWorkFirst(run.orgKey, run.head, None) && ServedHints(run, project, environment)
         && if |run.steps| < |run.hints| then HintBroke(project, environment, existing, run, error)
            else run.partial == [] && StaleBroke(existing, run, error)
  }

  ghost predicate HeadBroke(run: SyncRun, error: Error) {
    (run.head != [] && !AsksWork(run.head) && Complaint(run.head[|run.head| - 1]) == Some(error))
    || OwnWorkFirst(run.orgKey, run.head, Some(error))
  }

  ghost predicate HintBroke(project: string, environment: string, existing: LeaseIds, run: SyncRun, error: Error)
    requires |run.steps| < |run.hints|
  {
    var hint := run.hints[|run.steps|];
    Unprovided(run.orgKey, project, environment, hint, Lookup(existing, hint.key), run.partial, error)
  }

  ghost predicate StaleBroke(existing: LeaseIds, run: SyncRun, error: Error)
    requires |run.steps| <= |run.hints|
  {
    exists ids :: OnlyStale(existing, LeaseMap(run.hints, run.steps), ids) && RevokesBroke(ids, run.tail, error)
  }

  ghost predicate OnlyStale(existing: LeaseIds, leases: LeaseIds, ids: seq<string>) {
    forall id :: id in ids <==> exists k :: Stale(existing, leases, k) && existing[k] == id
  }

  datatype SyncResult = SyncResult(pairs: Bundle, leases: LeaseIds)

  /** What a synchronisation comes to. */
  ghost predicate SyncEnds(project: string, environment: string, existing: LeaseIds, run: SyncRun,
                           r: Result<SyncResult>) {
    match r
    case Ok(s) => Synced(project, environment, existing, run, s.pairs, s.leases)
    case Err(error) => SyncBroke(project, environment, existing, run, error)
  }

  // ---- the code ----

  /** Token, keys and bundle. */
  method BundleAndKeys(c: Client, creds: Credentials, project: string, environment: string)
    returns (r: Result<(MachineKeys, CipherBundle)>, ghost t: seq<Event>)
    modifies c`tokens, c`trace
    ensures c.trace == old(c.trace) + t
    ensures NoRevokes(t) && NoLeaseRequests(t) && !AsksWork(t)
    ensures match r
            case Ok(v) => Http(GetBundle(project, environment), Success(BundleBody(v.1))) in t
            case Err(error) => t != [] && Complaint(t[|t| - 1]) == Some(error)
  {
    hide Complaint;
    var keys: Result<MachineKeys>;
    keys, t := c.MachineKeys(creds);
    if keys.Err? {
      return Err(keys.error), t;
    }
    var reply := c.Do(creds, GetBundle(project, environment));
    BundleComplaint(project, environment, reply);
    t := t + [Http(GetBundle(project, environment), reply)];
    match reply {
      case Failure(e) => r := Err(e);
      case Success(BundleBody(bundle)) => r := Ok((keys.value, bundle));
      case Success(_) => r := Err(DecodingError());
    }
  }

  /** The ids to revoke; Go ranges over the existing ones in any order. */
  method StaleIds(existing: LeaseIds, leases: LeaseIds) returns (stale: seq<string>)
    ensures OnlyStale(existing, leases, stale)
  {
    stale := [];
    var left := existing.Keys;
    while left != {}
      invariant left <= existing.Keys
      invariant forall id :: id in stale <==> exists k :: k !in left && Stale(existing, leases, k) && existing[k] == id
      decreases left
    {
      var key :| key in left;
      var id := existing[key];
      if Lookup(leases, key) != id {
        stale := stale + [id];
      }
      left := left - {key};
    }
  }

  /** The loop over the hints: `run` goes on from `start`. */
  method EnsureHints(c: Client, creds: Credentials, project: string, environment: string, existing: LeaseIds,
                     orgKey: Key, hints: seq<DynamicHint>, ghost start: SyncRun)
    returns (err: Option<Error>, out: Bundle, leases: LeaseIds, ghost run: SyncRun, ghost said: seq<Event>)
    requires SyncSafe(project, environment, existing, start)
    requires start.hints == hints && start.orgKey == orgKey && start.steps == [] && start.partial == []
             && start.tail == []
    modifies c`tokens, c`trace
    ensures c.trace == old(c.trace) + said && RunTrace(run) == RunTrace(start) + said
    ensures SyncSafe(project, environment, existing, run)
    ensures run.hints == hints && run.orgKey == orgKey && run.head == start.head && run.tail == []
    ensures err.Some? ==> |run.steps| < |hints| && HintBroke(project, environment, existing, run, err.value)
    ensures err == None ==>
              |run.steps| == |hints| && run.partial == [] && out == MergeAll(run.steps)
              && leases == LeaseMap(hints, run.steps)
  {
    hide Provided, Unprovided, SyncSafe, RunTrace, NoRevokes;
    run := start;
    out := map[];
    leases := map[];
    said := [];
    assert RunTrace(start) + [] == RunTrace(start);
    assert MergeAll(start.steps) == map[] && LeaseMap(hints, start.steps) == map[];
    hide MergeAll, LeaseMap;
    for i := 0 to |hints|
      invariant run.orgKey == orgKey && run.hints == hints && run.head == start.head && run.partial == []
                && run.tail == []
      invariant |run.steps| == i
      invariant c.trace == old(c.trace) + said && RunTrace(run) == RunTrace(start) + said
      invariant SyncSafe(project, environment, existing, run)
      invariant out == MergeAll(run.steps) && leases == LeaseMap(hints, run.steps)
    {
      var hint := hints[i];
      ghost var t;
      var grant: Result<Grant>;
      grant, t := EnsureLease(c, creds, orgKey, project, environment, hint, Lookup(existing, hint.key));
      said := said + t;
      if grant.Err? {
        SafePartial(project, environment, existing, run, t);
        run := run.(partial := t);
        assert c.trace == old(c.trace) + said && RunTrace(run) == RunTrace(start) + said;
        return Some(grant.error), out, leases, run, said;
      }
      ghost var step := Ensured(grant.value.pairs, grant.value.id, t);
      SafeStep(project, environment, existing, run, step);
      run := run.(steps := run.steps + [step]);
      out := out + grant.value.pairs;
      if grant.value.id != "" {
        leases := leases[hint.key := grant.value.id];
      }
    }
    err := None;
  }

  method SyncDynamic(c: Client, creds: Credentials, project: string, environment: string, existing: LeaseIds)
    returns (r: Result<SyncResult>, ghost run: SyncRun)
    modifies c
    ensures c.trace == old(c.trace) + RunTrace(run)
    ensures SyncSafe(project, environment, existing, run)
    ensures SyncEnds(project, environment, existing, run, r)
  {
    hide Provided, RevokedIn, HasText, SyncSafe, Synced, SyncBroke, HintBroke, RunTrace, LeaseMap, MergeAll, Stale,
         OnlyStale, NoRevokes, NoLeaseRequests, OnlyWork, Joined, OwnWork, ServedHints, AsksWork, OwnWorkFirst,
         Complaint, RevokesBroke;
    var err: Option<Error>;
    var unlocked: Option<(Key, seq<DynamicHint>)>;
    err, unlocked, run := Unlock(c, creds, project, environment, existing);
    if err.Some? {
      return Err(err.value), run;
    }
    if unlocked == None {
      return Ok(SyncResult(map[], map[])), run;
    }
    var (orgKey, hints) := unlocked.value;
    ghost var reply, parts, t;
    err, reply, parts := ApplyOwnWork(c, creds, orgKey);
    GroupTraces(old(c.trace), run.head, [Http(GetWork, reply)] + Joined(parts));
    WorkIsFirst(project, environment, existing, run, reply, parts, err);
    run := run.(head := run.head + ([Http(GetWork, reply)] + Joined(parts)));
    if err.Some? {
      return Err(err.value), run;
    }

    var out, leases;
    ghost var start := run;
    err, out, leases, run, t := EnsureHints(c, creds, project, environment, existing, orgKey, hints, run);
    GroupTraces(old(c.trace), RunTrace(start), t);
    ServedOn(project, environment, start, run);
    if err.Some? {
      HintFails(project, environment, existing, run, err.value);
      return Err(err.value), run;
    }
    var stale := StaleIds(existing, leases);
    err, t := RevokeLeases(c, creds, stale);
    SafeTail(project, environment, existing, run, stale, t);
    GroupTraces(old(c.trace), RunTrace(run), t);
    ServedOn(project, environment, run, run.(tail := t));
    run := run.(tail := t);
    if err.Some? {
      StaleFails(project, environment, existing, run, stale, err.value);
      return Err(err.value), run;
    }
    RevocationsDone(project, environment, existing, run, out, leases, stale);
    return Ok(SyncResult(out, leases)), run;
  }

  /** Everything up to the key; nothing is unlocked when there is nothing to do. */
  method Unlock(c: Client, creds: Credentials, project: string, environment: string, existing: LeaseIds)
    returns (err: Option<Error>, unlocked: Option<(Key, seq<DynamicHint>)>, ghost run: SyncRun)
    modifies c
    ensures c.trace == old(c.trace) + run.head && RunTrace(run) == run.head
    ensures run.steps == [] && run.partial == [] && run.tail == []
    ensures SyncSafe(project, environment, existing, run)
    ensures err.Some? ==> SyncBroke(project, environment, existing, run, err.value)
    ensures err == None && unlocked == None ==> Synced(project, environment, existing, run, map[], map[])
    ensures err == None && unlocked.Some? ==>
              run.orgKey == unlocked.value.0 && run.hints == unlocked.value.1 && (|run.hints| > 0 || |existing| > 0)
              && Unlocked(run.orgKey, run.head) && !AsksWork(run.head) && ServedHints(run, project, environment)
              && NoRevokes(run.head) && NoLeaseRequests(run.head)
  {
    hide Provided, SyncSafe, Synced, SyncBroke, RunTrace, LeaseMap, MergeAll, NoRevokes, NoLeaseRequests, ServedHints,
         AsksWork, Complaint;
    run := SyncRun(0, [], [], [], [], []);
    ghost var t;
    ghost var now, later;
    var token: Result<string>;
    token, t, now, later := c.Token(creds);
    run := run.(head := t);
    HeadIsSafe(project, environment, existing, run);
    if token.Err? {
      HeadFails(project, environment, existing, run, token.error);
      return Some(token.error), None, run;
    }
    var fetched: Result<(MachineKeys, CipherBundle)>;
    fetched, t := BundleAndKeys(c, creds, project, environment);
    QuietJoin(run.head, t);
    GroupTraces(old(c.trace), run.head, t);
    run := run.(head := run.head + t);
    SafeHead(project, environment, existing, run);
    if fetched.Err? {
      HeadFails(project, environment, existing, run, fetched.error);
      return Some(fetched.error), None, run;
    }
    var (keys, bundle) := fetched.value;
    run := run.(hints := bundle.dynamicSecrets);
    ServedBy(project, environment, run, bundle);
    SafeHead(project, environment, existing, run);
    if |bundle.dynamicSecrets| == 0 && |existing| == 0 {
      NothingToDo(project, environment, existing, run);
      return None, None, run;
    }
    var orgKey := c.OpenOrgKey(creds, keys, bundle.wrappedOrgKey);
    ghost var e := Unsealing(bundle.wrappedOrgKey, orgKey);
    UnsealingIsQuiet(e);
    UnsealingComplaint(bundle.wrappedOrgKey, orgKey);
    QuietJoin(run.head, [e]);
    GroupTraces(old(c.trace), run.head, [e]);
    run := run.(head := run.head + [e], orgKey := if orgKey.Ok? then orgKey.value else 0);
    ServedBy(project, environment, run, bundle);
    SafeHead(project, environment, existing, run);
    if orgKey.Err? {
      HeadFails(project, environment, existing, run, orgKey.error);
      return Some(orgKey.error), None, run;
    }
    return None, Some((orgKey.value, bundle.dynamicSecrets)), run;
  }

  // ---- the phases of the run ----

  lemma {:induction false} GroupTraces(a: seq<Event>, b: seq<Event>, c: seq<Event>)
    ensures (a + b) + c == a + (b + c)
  {
  }

  lemma {:induction false} QuietJoin(a: seq<Event>, b: seq<Event>)
    requires NoRevokes(a) && NoRevokes(b)
    ensures NoRevokes(a + b)
    ensures NoLeaseRequests(a) && NoLeaseRequests(b) ==> NoLeaseRequests(a + b)
    ensures !AsksWork(a) && !AsksWork(b) ==> !AsksWork(a + b)
  {
  }

  lemma {:induction false} UnsealingIsQuiet(e: Event)
    requires e.Unsealing?
    ensures NoRevokes([e]) && NoLeaseRequests([e]) && !AsksWork([e])
  {
  }

  /** The operator's own work goes into the head of the run. */
  lemma {:induction false} WorkIsFirst(project: string, environment: string, existing: LeaseIds, run: SyncRun,
                                       reply: Reply, parts: seq<seq<Event>>, err: Option<Error>)
    requires Unlocked(run.orgKey, run.head) && !AsksWork(run.head) && ServedHints(run, project, environment)
    requires NoRevokes(run.head) && NoLeaseRequests(run.head) && run.steps == [] && run.partial == [] && run.tail == []
    requires OwnWork(run.orgKey, reply, parts, err) && forall e :: e in Joined(parts) ==> OnlyWork(e)
    ensures var next := run.(head := run.head + ([Http(GetWork, reply)] + Joined(parts)));
            OwnWorkFirst(run.orgKey, next.head, err) && ServedHints(next, project, environment)
            && SyncSafe(project, environment, existing, next) && RunTrace(next) == next.head
            && (err.Some? ==> SyncBroke(project, environment, existing, next, err.value))
  {
    hide AsksWork, OwnWork, SyncSafe, RunTrace, MergeAll, LeaseMap;
    var more := [Http(GetWork, reply)] + Joined(parts);
    var next := run.(head := run.head + more);
    WorkIsQuiet(reply, parts);
    QuietJoin(run.head, more);
    SafeHead(project, environment, existing, next);
  }

  lemma {:induction false} HeadFails(project: string, environment: string, existing: LeaseIds, run: SyncRun,
                                     error: Error)
    requires SyncSafe(project, environment, existing, run) && run.steps == [] && run.partial == [] && run.tail == []
    requires run.head != [] && !AsksWork(run.head) && Complaint(run.head[|run.head| - 1]) == Some(error)
    ensures SyncBroke(project, environment, existing, run, error)
  {
    hide SyncSafe, AsksWork, Complaint;
  }

  lemma {:induction false} HintFails(project: string, environment: string, existing: LeaseIds, run: SyncRun,
                                     error: Error)
    requires SyncSafe(project, environment, existing, run) && |run.steps| < |run.hints|
    requires OwnWorkFirst(run.orgKey, run.head, None) && ServedHints(run, project, environment)
    requires HintBroke(project, environment, existing, run, error)
    ensures SyncBroke(project, environment, existing, run, error)
  {
    hide SyncSafe, HeadBroke, HintBroke, OwnWorkFirst, ServedHints;
  }

  lemma {:induction false} StaleFails(project: string, environment: string, existing: LeaseIds, run: SyncRun,
                                      stale: seq<string>, error: Error)
    requires SyncSafe(project, environment, existing, run) && |run.steps| == |run.hints| && run.partial == []
    requires OwnWorkFirst(run.orgKey, run.head, None) && ServedHints(run, project, environment)
    requires OnlyStale(existing, LeaseMap(run.hints, run.steps), stale) && RevokesBroke(stale, run.tail, error)
    ensures SyncBroke(project, environment, existing, run, error)
  {
    hide SyncSafe, HeadBroke, OwnWorkFirst, ServedHints, OnlyStale, RevokesBroke;
  }

  lemma {:induction false} ServedBy(project: string, environment: string, run: SyncRun, bundle: CipherBundle)
    requires Http(GetBundle(project, environment), Success(BundleBody(bundle))) in run.head
    requires run.hints == bundle.dynamicSecrets
    ensures ServedHints(run, project, environment)
  {
  }

  lemma {:induction false} ServedOn(project: string, environment: string, run: SyncRun, next: SyncRun)
    requires ServedHints(run, project, environment) && run.head == next.head && run.hints == next.hints
    ensures ServedHints(next, project, environment)
  {
  }

  lemma {:induction false} WorkIsQuiet(reply: Reply, parts: seq<seq<Event>>)
    requires forall e :: e in Joined(parts) ==> OnlyWork(e)
    ensures NoRevokes([Http(GetWork, reply)] + Joined(parts)) && NoLeaseRequests([Http(GetWork, reply)] + Joined(parts))
  {
  }

  /** Asking for a token is neither a lease request nor a revocation. */
  lemma {:induction false} HeadIsSafe(project: string, environment: string, existing: LeaseIds, run: SyncRun)
    requires run == SyncRun(0, [], run.head, [], [], [])
    requires |run.head| <= 1
    requires run.head != [] ==> run.head[0].AuthFailed? || (run.head[0].Http? && run.head[0].request.PostToken?)
    ensures SyncSafe(project, environment, existing, run) && RunTrace(run) == run.head
    ensures NoRevokes(run.head) && NoLeaseRequests(run.head) && !AsksWork(run.head)
  {
  }

  lemma {:induction false} SafeHead(project: string, environment: string, existing: LeaseIds, run: SyncRun)
    requires NoRevokes(run.head) && NoLeaseRequests(run.head)
    requires run.steps == [] && run.partial == [] && run.tail == []
    ensures SyncSafe(project, environment, existing, run) && RunTrace(run) == run.head
    ensures MergeAll(run.steps) == map[] && LeaseMap(run.hints, run.steps) == map[]
  {
  }

  lemma {:induction false} NothingToDo(project: string, environment: string, existing: LeaseIds, run: SyncRun)
    requires SyncSafe(project, environment, existing, run) && ServedHints(run, project, environment)
    requires run.hints == [] && run.steps == [] && run.partial == [] && |existing| == 0 && !AsksWork(run.head)
    ensures Synced(project, environment, existing, run, map[], map[])
  {
    hide SyncSafe, ServedHints, RevokedIn, AsksWork;
    assert existing == map[];
  }

  lemma {:induction false} SafeStep(project: string, environment: string, existing: LeaseIds, run: SyncRun,
                                    step: Ensured)
    requires SyncSafe(project, environment, existing, run)
    requires |run.steps| < |run.hints| && run.partial == [] && run.tail == []
    requires NoRevokes(step.trace)
    requires Provided(run.orgKey, project, environment, run.hints[|run.steps|],
                      Lookup(existing, run.hints[|run.steps|].key), step)
    ensures var next, n := run.(steps := run.steps + [step]), |run.steps|;
            SyncSafe(project, environment, existing, next)
            && RunTrace(next) == RunTrace(run) + step.trace
            && MergeAll(next.steps) == MergeAll(run.steps) + step.pairs
            && LeaseMap(run.hints, next.steps) ==
               if step.id == "" then LeaseMap(run.hints, run.steps)
               else LeaseMap(run.hints, run.steps)[run.hints[n].key := step.id]
  {
    hide Provided, NoRevokes, NoLeaseRequests, Stale;
    var next := run.(steps := run.steps + [step]);
    assert next.steps[..|run.steps|] == run.steps;
  }

  lemma {:induction false} SafePartial(project: string, environment: string, existing: LeaseIds, run: SyncRun,
                                       t: seq<Event>)
    requires SyncSafe(project, environment, existing, run)
    requires run.partial == [] && run.tail == [] && NoRevokes(t)
    ensures SyncSafe(project, environment, existing, run.(partial := t))
    ensures RunTrace(run.(partial := t)) == RunTrace(run) + t
  {
    hide Provided, NoRevokes, NoLeaseRequests, Stale, LeaseMap, StepsTrace;
  }

  lemma {:induction false} SafeTail(project: string, environment: string, existing: LeaseIds, run: SyncRun,
                                    stale: seq<string>, t: seq<Event>)
    requires SyncSafe(project, environment, existing, run)
    requires |run.steps| == |run.hints| && run.partial == [] && run.tail == [] && NoLeaseRequests(t)
    requires OnlyStale(existing, LeaseMap(run.hints, run.steps), stale)
    requires forall e :: e in t && IsRevoke(e) ==> e.request.leaseId in stale
    ensures SyncSafe(project, environment, existing, run.(tail := t))
    ensures RunTrace(run.(tail := t)) == RunTrace(run) + t
  {
    hide Provided, NoRevokes, NoLeaseRequests, LeaseMap, StepsTrace;
  }

  lemma {:induction false} RevocationsDone(project: string, environment: string, existing: LeaseIds, run: SyncRun,
                                      out: Bundle, leases: LeaseIds, stale: seq<string>)
    requires SyncSafe(project, environment, existing, run) && ServedHints(run, project, environment)
    requires |run.steps| == |run.hints| && run.partial == []
    requires OwnWorkFirst(run.orgKey, run.head, None) && (|run.hints| > 0 || |existing| > 0)
    requires out == MergeAll(run.steps) && leases == LeaseMap(run.hints, run.steps)
    requires OnlyStale(existing, leases, stale)
    requires forall id, c :: id in stale && c in id && !IsSpace(c) ==> RevokedIn(run.tail, id)
    ensures Synced(project, environment, existing, run, out, leases)
  {
    hide SyncSafe, ServedHints, OwnWorkFirst, AsksWork, RevokedIn, LeaseMap;
  }

  // ---- what follows for one synchronisation ----

  /** A status at the root of the error of a failed synchronisation is that of something
      that went wrong in it. */
  lemma {:induction false} SyncCause(project: string, environment: string, existing: LeaseIds, run: SyncRun,
                                     error: Error)
    requires SyncBroke(project, environment, existing, run, error)
    ensures CausedIn(RunTrace(run), error)
  {
    hide Provided, Stale, Unprovided, RevokesBroke, OnlyStale, OwnWork, AsksWork, Complaint, CausedIn, StepsTrace;
    if run.steps == [] && run.partial == [] && run.tail == [] && HeadBroke(run, error) {
      HeadCause(run, error);
      CausedLater([], run.head, StepsTrace(run.steps) + run.partial + run.tail, error);
      assert [] + run.head + (StepsTrace(run.steps) + run.partial + run.tail) == RunTrace(run);
    } else if |run.steps| < |run.hints| {
      var hint := run.hints[|run.steps|];
      UnprovidedCause(run.orgKey, project, environment, hint, Lookup(existing, hint.key), run.partial, error);
      CausedLater(run.head + StepsTrace(run.steps), run.partial, run.tail, error);
    } else {
      var ids :| OnlyStale(existing, LeaseMap(run.hints, run.steps), ids) && RevokesBroke(ids, run.tail, error);
      RevokesCause(ids, run.tail, error);
      CausedLater(run.head + StepsTrace(run.steps) + run.partial, run.tail, [], error);
      assert run.head + StepsTrace(run.steps) + run.partial + run.tail + [] == RunTrace(run);
    }
  }

  lemma {:induction false} HeadCause(run: SyncRun, error: Error)
    requires HeadBroke(run, error)
    ensures CausedIn(run.head, error)
  {
    hide AsksWork, OwnWork, Complaint;
    if OwnWorkFirst(run.orgKey, run.head, Some(error)) {
      var before, reply, parts :| run.head == before + ([Http(GetWork, reply)] + Joined(parts))
                                  && OwnWork(run.orgKey, reply, parts, Some(error));
      OwnWorkCause(run.orgKey, reply, parts, error);
      CausedLater(before, [Http(GetWork, reply)] + Joined(parts), [], error);
      assert before + ([Http(GetWork, reply)] + Joined(parts)) + [] == run.head;
    } else {
      assert run.head[|run.head| - 1] in run.head;
    }
  }

  /** Every lease request precedes every revocation, and no revocation is sent unless
      every hint was provided for. */
  lemma {:induction false} RequestsBeforeRevokes(project: string, environment: string, existing: LeaseIds, run: SyncRun)
    requires SyncSafe(project, environment, existing, run)
    ensures var t := RunTrace(run);
            forall i, j :: 0 <= i < |t| && 0 <= j < |t| && IsLeaseRequest(t[i]) && IsRevoke(t[j]) ==> i < j
    ensures |run.steps| < |run.hints| ==> NoRevokes(RunTrace(run))
  {
    hide Provided, Stale, StepsTrace, LeaseMap;
    StepsNoRevokes(run.steps);
    var front := run.head + StepsTrace(run.steps) + run.partial;
    assert RunTrace(run) == front + run.tail;
    assert NoRevokes(front);
  }

  lemma {:induction false} StepsNoRevokes(steps: seq<Ensured>)
    requires forall i :: 0 <= i < |steps| ==> NoRevokes(steps[i].trace)
    ensures NoRevokes(StepsTrace(steps))
  {
    if steps != [] {
      StepsNoRevokes(steps[..|steps| - 1]);
      assert NoRevokes(steps[|steps| - 1].trace);
    }
  }

  /** Where an entry of the lease map comes from: the last hint with that key that got an id. */
  lemma {:induction false} LeaseMapOrigin(hints: seq<DynamicHint>, steps: seq<Ensured>, k: string)
    requires |steps| <= |hints|
    ensures k in LeaseMap(hints, steps) <==> exists i :: 0 <= i < |steps| && hints[i].key == k && steps[i].id != ""
    ensures k in LeaseMap(hints, steps) ==>
              exists i :: 0 <= i < |steps| && hints[i].key == k && steps[i].id == LeaseMap(hints, steps)[k] != ""
  {
    if steps != [] {
      var n := |steps| - 1;
      LeaseMapOrigin(hints, steps[..n], k);
      assert forall i :: 0 <= i < n ==> steps[..n][i] == steps[i];
      if k in LeaseMap(hints, steps[..n]) {
        var i :| 0 <= i < |steps[..n]| && hints[i].key == k && steps[..n][i].id == LeaseMap(hints, steps[..n])[k] != "";
        assert steps[i].id != "";
      }
      if steps[n].id != "" && hints[n].key == k {
        assert steps[n].id == LeaseMap(hints, steps)[k];
      }
    }
  }

  predicate IsHint(hints: seq<DynamicHint>, k: string) {
    exists i :: 0 <= i < |hints| && hints[i].key == k
  }

  /** The returned keys are the hint keys, provided the platform names every lease it
      issues; in any case no other key is returned and no id is empty. */
  lemma {:induction false} LeasesAreHints(project: string, environment: string, existing: LeaseIds, run: SyncRun,
                                          out: Bundle, leases: LeaseIds, k: string)
    requires Synced(project, environment, existing, run, out, leases)
    ensures k in leases ==> IsHint(run.hints, k) && leases[k] != ""
    ensures (forall i :: 0 <= i < |run.steps| ==> run.steps[i].id != "") && IsHint(run.hints, k) ==> k in leases
  {
    LeaseMapOrigin(run.hints, run.steps, k);
  }

  /** The lease was read back in this run. */
  ghost predicate ReadIn(run: SyncRun, id: string) {
    exists s :: s in run.steps && s.trace != [] && Reads(s.trace[|s.trace| - 1], run.orgKey, id, s.pairs)
  }

  lemma {:induction false} ProvidedAt(project: string, environment: string, existing: LeaseIds, run: SyncRun, i: nat)
    requires SyncSafe(project, environment, existing, run) && i < |run.steps|
    ensures Provided(run.orgKey, project, environment, run.hints[i], Lookup(existing, run.hints[i].key), run.steps[i])
  {
    hide Provided;
  }

  lemma {:induction false} ProvidedReads(orgKey: Key, project: string, environment: string, hint: DynamicHint,
                                         existingId: string, s: Ensured)
    requires Provided(orgKey, project, environment, hint, existingId, s)
    ensures s.trace != [] && Reads(s.trace[|s.trace| - 1], orgKey, s.id, s.pairs)
    ensures !IsMint(s) ==> existingId != "" && s.id == existingId
  {
    hide Reads, Worked;
  }

  /** Every returned lease was read back in this run. */
  lemma {:induction false} LeasesAreRead(project: string, environment: string, existing: LeaseIds, run: SyncRun,
                                         out: Bundle, leases: LeaseIds, k: string)
    requires Synced(project, environment, existing, run, out, leases) && k in leases
    ensures ReadIn(run, leases[k])
  {
    hide Provided, SyncSafe;
    var i := LeaseOrigin(project, environment, existing, run, out, leases, k);
    var s := run.steps[i];
    assert Provided(run.orgKey, project, environment, run.hints[i], Lookup(existing, run.hints[i].key), s) by {
      ProvidedAt(project, environment, existing, run, i);
    }
    ProvidedReads(run.orgKey, project, environment, run.hints[i], Lookup(existing, run.hints[i].key), s);
    assert s in run.steps;
  }

  /** A successful synchronisation partitions the ids it was given: each that is not
      blank is kept under its key and was read back, or it was revoked. */
  lemma {:induction false} KeptOrRevoked(project: string, environment: string, existing: LeaseIds, run: SyncRun,
                                         out: Bundle, leases: LeaseIds, k: string, c: char)
    requires Synced(project, environment, existing, run, out, leases)
    requires k in existing && c in existing[k] && !IsSpace(c)
    ensures if k in leases && leases[k] == existing[k] then ReadIn(run, existing[k])
            else RevokedIn(run.tail, existing[k])
  {
    hide RevokedIn, ReadIn, SyncSafe;
    if k in leases && leases[k] == existing[k] {
      LeasesAreRead(project, environment, existing, run, out, leases, k);
    } else {
      assert Stale(existing, leases, k);
    }
  }

  // ---- freshness ----

  ghost predicate Injective(m: LeaseIds) {
    forall a, b :: a in m && b in m && m[a] == m[b] ==> a == b
  }

  /** A lease that was read back took one request; a new one takes more. */
  predicate IsMint(s: Ensured) { |s.trace| > 1 }

  /** The platform never issues an id that is already in the annotation, nor the same id twice. */
  ghost predicate NeverReissues(existing: LeaseIds, run: SyncRun) {
    (forall i :: 0 <= i < |run.steps| && IsMint(run.steps[i]) ==>
          run.steps[i].id !in existing.Values)
    && forall i, j :: 0 <= i < j < |run.steps| && IsMint(run.steps[i]) && IsMint(run.steps[j]) ==>
         run.steps[i].id != run.steps[j].id
  }

  /** A returned id is the existing one under its key, or was minted in this run. */
  lemma {:induction false} LeaseOrigin(project: string, environment: string, existing: LeaseIds, run: SyncRun,
                                       out: Bundle, leases: LeaseIds, k: string) returns (i: nat)
    requires Synced(project, environment, existing, run, out, leases) && k in leases
    ensures i < |run.steps| && run.hints[i].key == k && run.steps[i].id == leases[k]
    ensures !IsMint(run.steps[i]) ==> k in existing && existing[k] == leases[k]
  {
    hide Provided, LeaseMap;
    LeaseMapOrigin(run.hints, run.steps, k);
    i :| 0 <= i < |run.steps| && run.hints[i].key == k && run.steps[i].id == leases[k] != "";
    ProvidedReads(run.orgKey, project, environment, run.hints[i], Lookup(existing, run.hints[i].key), run.steps[i]);
  }

  /** The lease map stays injective. */
  lemma {:induction false} LeasesInjective(project: string, environment: string, existing: LeaseIds, run: SyncRun,
                                           out: Bundle, leases: LeaseIds)
    requires Synced(project, environment, existing, run, out, leases)
    requires Injective(existing) && NeverReissues(existing, run)
    ensures Injective(leases)
  {
    hide Synced, IsMint;
    forall a, b | a in leases && b in leases && leases[a] == leases[b] ensures a == b {
      var i := LeaseOrigin(project, environment, existing, run, out, leases, a);
      var j := LeaseOrigin(project, environment, existing, run, out, leases, b);
      assert existing.Values == set k | k in existing :: existing[k];
    }
  }

  /** A synchronisation never revokes an id it keeps. */
  lemma {:induction false} NeverRevokesKept(project: string, environment: string, existing: LeaseIds, run: SyncRun,
                                            out: Bundle, leases: LeaseIds, e: Event)
    requires Synced(project, environment, existing, run, out, leases)
    requires Injective(existing) && NeverReissues(existing, run)
    requires e in RunTrace(run) && IsRevoke(e)
    ensures e.request.leaseId !in leases.Values
  {
    hide Provided, IsMint, LeaseMap, StepsTrace;
    StepsNoRevokes(run.steps);
    var old_ :| Stale(existing, leases, old_) && existing[old_] == e.request.leaseId;
    forall k | k in leases ensures leases[k] != e.request.leaseId {
      var i := LeaseOrigin(project, environment, existing, run, out, leases, k);
      assert existing[old_] in existing.Values;
    }
  }

  // ---- the mint round trip ----

  /** What is said when a lease is minted: (the failed read,) the request, the work, the
      provider call, the report, the envelope. */
  ghost predicate MintTalk(s: Ensured, existingId: string, batch: WorkBatch, call: Event, body: CompleteLease,
                           last: Event) {
    var n := if existingId != "" then 1 else 0;
    |s.trace| == n + 5
    && s.trace[n + 1] == Http(GetLeaseWork(s.id), Success(WorkBody(batch)))
    && s.trace[n + 2] == call
    && s.trace[n + 3].Http? && s.trace[n + 3].request == PostComplete(body)
    && s.trace[n + 4] == last
  }

  lemma {:induction false} MintShape(orgKey: Key, project: string, environment: string, hint: DynamicHint,
                                     existingId: string, s: Ensured)
    returns (batch: WorkBatch, call: Event, body: CompleteLease, last: Event)
    requires MintedAnew(orgKey, project, environment, hint, existingId, s)
    ensures MintTalk(s, existingId, batch, call, body, last)
    ensures batch.items != [] && CallFor(orgKey, batch.items[0], call) && call.Provider? && !call.outcome.Refused?
    ensures SuccessBody(orgKey, batch.orgKeyId, batch.items[0], call, body)
    ensures Reads(last, orgKey, s.id, s.pairs)
  {
    hide Reads, WorkFor, SuccessBody, ReadBack;
    var n := if existingId != "" then 1 else 0;
    var work := s.trace[n + 1..|s.trace| - 1];
    assert |work| == 3 && work[1..][0] == work[1] && work[1..][1] == work[2];
    assert work[0] == s.trace[n + 1] && work[1] == s.trace[n + 2] && work[2] == s.trace[n + 3];
    batch, call, body, last := work[0].reply.payload.batch, work[1], work[2].request.body, s.trace[n + 4];
  }

  /** The platform serves back the envelope of the report, with the item's ids and key. */
  ghost predicate ServesBack(last: Event, id: string, item: WorkItem, body: CompleteLease) {
    body.mintedEnvelope.Some?
    && last == Http(GetEnvelope(id), Success(EnvelopeBody(
                 SecretEnvelope(item.key, item.definitionId, item.environmentId, body.mintedEnvelope.value))))
  }

  /** The round trip: when the platform hands out a mint for the lease and serves back
      what was reported, the caller gets exactly the pairs of what the provider minted,
      with the requested username where the provider named none and with the rendered
      URL - through JSON, sealing, the report, the fetch and opening. */
  lemma {:induction false} MintRoundTrip(orgKey: Key, orgKeyId: string, item: WorkItem, call: Event,
                                         body: CompleteLease, last: Event, id: string, pairs: Bundle)
    requires call.Provider? && item.action == CREATE
    requires SuccessBody(orgKey, orgKeyId, item, call, body) && Reads(last, orgKey, id, pairs)
    requires ServesBack(last, id, item, body)
    ensures exists m :: Finished(item, call.work, MintedOf(call.outcome), m) && pairs == Expansion(item.key, m)
  {
    hide Finished, Expansion, ReadBack;
    var m :| Finished(item, call.work, MintedOf(call.outcome), m)
             && body == CompleteLease(item.leaseId, true, "", m.username,
                  Some(Sealed(orgKey, orgKeyId, EncodeMinted(m), ItemContext(item))), Some(call.work.expiresAt));
    OpensAgain(orgKey, orgKeyId, item, m);
  }

  /** So a minting step gives the caller what was minted for the first item of its work. */
  lemma {:induction false} MintingGivesMinted(orgKey: Key, project: string, environment: string, hint: DynamicHint,
                                              existingId: string, s: Ensured)
    returns (item: WorkItem, call: Event)
    requires MintedAnew(orgKey, project, environment, hint, existingId, s)
    ensures CallFor(orgKey, item, call) && call in s.trace && call.Provider?
    ensures (exists batch, body, last ::
              MintTalk(s, existingId, batch, call, body, last) && batch.items != [] && batch.items[0] == item
              && item.action == CREATE && ServesBack(last, s.id, item, body))
            ==> exists m :: Finished(item, call.work, MintedOf(call.outcome), m) && s.pairs == Expansion(item.key, m)
  {
    hide Finished, Expansion, ReadBack, CallFor, SuccessBody, MintedAnew, Reads;
    var batch, body, last;
    batch, call, body, last := MintShape(orgKey, project, environment, hint, existingId, s);
    item := batch.items[0];
    if item.action == CREATE && ServesBack(last, s.id, item, body) {
      MintRoundTrip(orgKey, batch.orgKeyId, item, call, body, last, s.id, s.pairs);
    }
  }

  lemma {:induction false} OpensAgain(orgKey: Key, orgKeyId: string, item: WorkItem, m: Minted)
    ensures ReadBack(orgKey, Success(EnvelopeBody(SecretEnvelope(item.key, item.definitionId, item.environmentId,
              Sealed(orgKey, orgKeyId, EncodeMinted(m), ItemContext(item))))))
            == Some(Expansion(item.key, m))
  {
    hide Expansion;
  }

  /** The expansion names the username and the password, and the URL under the key itself. */
  lemma {:induction false} ExpansionHas(key: string, m: Minted)
    ensures var b := Expansion(key, m);
            key + "_USERNAME" in b && b[key + "_USERNAME"] == m.username
            && key + "_PASSWORD" in b && b[key + "_PASSWORD"] == m.password
            && (m.sessionToken != "" <==> key + "_SESSION_TOKEN" in b)
            && (m.sessionToken != "" ==> b[key + "_SESSION_TOKEN"] == m.sessionToken)
            && (m.accessKeyId != "" <==> key + "_ACCESS_KEY_ID" in b)
            && (m.accessKeyId != "" ==> b[key + "_ACCESS_KEY_ID"] == m.accessKeyId)
            && (TrimSpace(m.url) != "" <==> key in b) && (TrimSpace(m.url) != "" ==> b[key] == m.url)
  {
    hide TrimSpace, Expansion;
    ExpansionSum(key, m);
    SuffixesDiffer(key);
  }

  lemma {:induction false} SuffixesDiffer(key: string)
    ensures var u, p, s, a := key + "_USERNAME", key + "_PASSWORD", key + "_SESSION_TOKEN", key + "_ACCESS_KEY_ID";
            u != p && u != s && u != a && p != s && p != a && s != a && key != u && key != p && key != s && key != a
  {
    var u, p, s, a := key + "_USERNAME", key + "_PASSWORD", key + "_SESSION_TOKEN", key + "_ACCESS_KEY_ID";
    assert |u| == |key| + 9 && |p| == |key| + 9 && |s| == |key| + 14 && |a| == |key| + 14;
    assert u[|key| + 1] == 'U' && p[|key| + 1] == 'P' && s[|key| + 1] == 'S' && a[|key| + 1] == 'A';
  }

  lemma {:induction false} ExpansionSum(key: string, m: Minted)
    ensures Expansion(key, m) ==
            map[key + "_USERNAME" := m.username] + map[key + "_PASSWORD" := m.password]
            + (if m.sessionToken != "" then map[key + "_SESSION_TOKEN" := m.sessionToken] else map[])
            + (if m.accessKeyId != "" then map[key + "_ACCESS_KEY_ID" := m.accessKeyId] else map[])
            + (if TrimSpace(m.url) != "" then map[key := m.url] else map[])
  {
    hide TrimSpace, PairMap;
    var named := [Pair(key + "_USERNAME", m.username), Pair(key + "_PASSWORD", m.password)];
    var session := if m.sessionToken != "" then [Pair(key + "_SESSION_TOKEN", m.sessionToken)] else [];
    var access := if m.accessKeyId != "" then [Pair(key + "_ACCESS_KEY_ID", m.accessKeyId)] else [];
    var url := if TrimSpace(m.url) != "" then [Pair(key, m.url)] else [];
    PairMapConcat(named + session + access, url);
    PairMapConcat(named + session, access);
    PairMapConcat(named, session);
    PairMapConcat([named[0]], [named[1]]);
    assert named == [named[0]] + [named[1]];
    PairMapOne(named[0]);
    PairMapOne(named[1]);
    PairMapOne(Pair(key + "_SESSION_TOKEN", m.sessionToken));
    PairMapOne(Pair(key + "_ACCESS_KEY_ID", m.accessKeyId));
    PairMapOne(Pair(key, m.url));
  }

  lemma {:induction false} PairMapOne(q: Pair)
    ensures PairMap([q]) == map[q.key := q.value] && PairMap([]) == map[]
  {
    assert [q][..0] == [];
  }

  lemma {:induction false} PairMapConcat(a: seq<Pair>, b: seq<Pair>)
    ensures PairMap(a + b) == PairMap(a) + PairMap(b)
  {
    if b == [] {
      assert a + b == a;
    } else {
      var n := |b| - 1;
      PairMapConcat(a, b[..n]);
      assert (a + b)[..|a + b| - 1] == a + b[..n];
    }
  }
}
