/** Minting, reusing and revoking the leases behind one environment's dynamic secrets. */
module Leases {
  import opened Text
  import opened Platform
  import opened Wire
  import opened Apply

  // ---- minted credentials as pairs ----

  datatype Pair = Pair(key: string, value: string)

  function ExpandMinted(key: string, m: Minted): seq<Pair> {
    [Pair(key + "_USERNAME", m.username), Pair(key + "_PASSWORD", m.password)]
    + (if m.sessionToken != "" then [Pair(key + "_SESSION_TOKEN", m.sessionToken)] else [])
    + (if m.accessKeyId != "" then [Pair(key + "_ACCESS_KEY_ID", m.accessKeyId)] else [])
    + (if TrimSpace(m.url) != "" then [Pair(key, m.url)] else [])
  }

  function PairMap(pairs: seq<Pair>): Bundle {
    if pairs == [] then map[]
    else PairMap(pairs[..|pairs| - 1])[pairs[|pairs| - 1].key := pairs[|pairs| - 1].value]
  }

  function Expansion(key: string, m: Minted): Bundle { PairMap(ExpandMinted(key, m)) }

  /** What an envelope reply reads back as. */
  function ReadBack(orgKey: Key, reply: Reply): Option<Bundle> {
    if reply.Failure? || !reply.payload.EnvelopeBody? then None
    else
      var env := reply.payload.envelope;
      match Open(orgKey, env.envelope, SecretContext(env.definitionId, env.environmentId))
      case None => None
      case Some(plain) => if plain.asMinted == None then None else Some(Expansion(env.key, plain.asMinted.value))
  }

  // ---- what the steps leave in the trace ----

  predicate IsRevoke(e: Event) { e.Http? && e.request.PostRevoke? }

  predicate IsLeaseRequest(e: Event) { e.Http? && e.request.PostLease? }

  ghost predicate NoRevokes(t: seq<Event>) { forall e :: e in t ==> !IsRevoke(e) }

  ghost predicate NoLeaseRequests(t: seq<Event>) { forall e :: e in t ==> !IsLeaseRequest(e) }

  ghost predicate Reads(e: Event, orgKey: Key, id: string, pairs: Bundle) {
    e.Http? && e.request == GetEnvelope(id) && ReadBack(orgKey, e.reply) == Some(pairs)
  }

  predicate AsksLeaseWork(e: Event, id: string) { e.Http? && e.request == GetLeaseWork(id) }

  /** What becomes of a lease's work: it is fetched, and its first item done, or the item's
      error; an error of the request; or nothing to do, which is an error. */
  ghost predicate Worked(orgKey: Key, id: string, t: seq<Event>, err: Option<Error>) {
    t != [] && AsksLeaseWork(t[0], id)
    && match Complaint(t[0])
       case Some(error) => |t| == 1 && err == Some(error)
       case None => var batch := t[0].reply.payload.batch;
                    if batch.items == [] then |t| == 1 && err == Some(NoWorkError(id))
                    else Applied(orgKey, batch.orgKeyId, batch.items[0], t[1..], err)
  }

  function NoWorkError(id: string): Error { Other("no work for lease " + id) }

  datatype Grant = Grant(pairs: Bundle, id: string)

  /** One hint taken care of: its pairs, its lease id, and what was said. */
  datatype Ensured = Ensured(pairs: Bundle, id: string, trace: seq<Event>)

  /** The existing lease could be read back, and nothing else was asked. */
  ghost predicate Kept(orgKey: Key, existingId: string, s: Ensured) {
    existingId != "" && s.id == existingId && |s.trace| == 1 && Reads(s.trace[0], orgKey, existingId, s.pairs)
  }

  /** A lease was requested, minted, and read back. */
  ghost predicate MintedAnew(orgKey: Key, project: string, environment: string, hint: DynamicHint, existingId: string,
                             s: Ensured) {
    var n := if existingId != "" then 1 else 0;
    |s.trace| >= n + 3
    && (n == 1 ==>
          s.trace[0].Http? && s.trace[0].request == GetEnvelope(existingId)
          && ReadBack(orgKey, s.trace[0].reply) == None)
    && s.trace[n] == Http(PostLease(project, environment, hint.key), Success(LeaseBody(s.id)))
    && Worked(orgKey, s.id, s.trace[n + 1..|s.trace| - 1], None)
    && Reads(s.trace[|s.trace| - 1], orgKey, s.id, s.pairs)
  }

  ghost predicate Provided(orgKey: Key, project: string, environment: string, hint: DynamicHint, existingId: string,
                           s: Ensured) {
    Kept(orgKey, existingId, s) || MintedAnew(orgKey, project, environment, hint, existingId, s)
  }

  /** How providing for a hint fails: the lease is not granted; or its work fails; or it
      cannot be read back. A lease that cannot be read first is not a failure. */
  ghost predicate Unprovided(orgKey: Key, project: string, environment: string, hint: DynamicHint, existingId: string,
                             t: seq<Event>, error: Error) {
    var n := if existingId != "" then 1 else 0;
    |t| > n
    && (n == 1 ==> t[0].Http? && t[0].request == GetEnvelope(existingId) && ReadBack(orgKey, t[0].reply) == None)
    && t[n].Http? && t[n].request == PostLease(project, environment, hint.key)
    && match Complaint(t[n])
       case Some(cause) => |t| == n + 1 && error == Wrapped("request lease " + hint.key, cause)
       case None => Unminted(orgKey, hint, t[n].reply.payload.id, t[n + 1..], error)
  }

  ghost predicate Unminted(orgKey: Key, hint: DynamicHint, id: string, t: seq<Event>, error: Error) {
    error.Wrapped? && error.note == "mint " + hint.key
    && (Worked(orgKey, id, t, Some(error.inner)) || (Unread(orgKey, id, t) && error.inner == MissingError()))
  }

  /** The work was done, but what was minted cannot be read. */
  ghost predicate Unread(orgKey: Key, id: string, t: seq<Event>) {
    t != [] && Worked(orgKey, id, t[..|t| - 1], None)
    && var last := t[|t| - 1]; last.Http? && last.request == GetEnvelope(id) && ReadBack(orgKey, last.reply) == None
  }

  function MissingError(): Error { Other("envelope missing after complete") }

  /** A revocation that went through: the platform took it, and either has no work for
      the lease any more or was told that the work is done. */
  ghost predicate RevokeEpisode(id: string, t: seq<Event>) {
    |t| >= 2
    && t[0].Http? && t[0].request == PostRevoke(id) && t[0].reply.Success?
    && AsksLeaseWork(t[1], id)
    && if t[1].reply == Failure(ApiError(STATUS_NOT_FOUND)) then |t| == 2
       else
         Complaint(t[1]) == None
         && var batch := t[1].reply.payload.batch;
            if batch.items == [] then |t| == 2
            else UnsealedFor(batch, t)
                 && Succeeded(t[2].result.value, batch.orgKeyId, batch.items[0], t[3..])
  }

  /** The key to the batch was unsealed. */
  ghost predicate UnsealedFor(batch: WorkBatch, t: seq<Event>) {
    |t| >= 3 && t[2].Unsealing? && t[2].wrapped == batch.wrappedOrgKey && t[2].result.Ok?
  }

  /** How a revocation fails: it is refused; its work cannot be fetched, or not be done. */
  ghost predicate RevokeBroke(id: string, t: seq<Event>, error: Error) {
    t != [] && t[0].Http? && t[0].request == PostRevoke(id)
    && if t[0].reply.Failure? then |t| == 1 && t[0].reply == Failure(error)
       else
         |t| >= 2 && AsksLeaseWork(t[1], id) && t[1].reply != Failure(ApiError(STATUS_NOT_FOUND))
         && if Complaint(t[1]).Some? then |t| == 2 && Complaint(t[1]) == Some(error)
            else
              var batch := t[1].reply.payload.batch;
              batch.items != [] && |t| >= 3
              && (t == t[..2] + [Unsealing(batch.wrappedOrgKey, Err(error))]
                  || (UnsealedFor(batch, t)
                      && Failed(t[2].result.value, batch.orgKeyId, batch.items[0], t[3..], error)))
  }

  /** A revocation goes through exactly when it does not fail. */
  lemma {:induction false} RevokeOneWay(id: string, t: seq<Event>, error: Error)
    requires RevokeBroke(id, t, error)
    ensures !RevokeEpisode(id, t)
  {
    hide CallFor, SuccessBody, Broke;
    if |t| >= 3 && t[2].Unsealing? && t[2].result.Ok? {
      var batch := t[1].reply.payload.batch;
      FailsOneWay(t[2].result.value, batch.orgKeyId, batch.items[0], t[3..], error);
    }
  }

  lemma {:induction false} FailsOneWay(orgKey: Key, orgKeyId: string, item: WorkItem, t: seq<Event>, error: Error)
    requires Failed(orgKey, orgKeyId, item, t, error)
    ensures !Succeeded(orgKey, orgKeyId, item, t)
  {
    hide Succeeded, Failed;
    if Succeeded(orgKey, orgKeyId, item, t) {
      Shape(orgKey, orgKeyId, item, t, None);
      Shape(orgKey, orgKeyId, item, t, Some(error));
      assert false;
    }
  }

  ghost predicate RevokedIn(t: seq<Event>, id: string) {
    exists i, j :: 0 <= i <= j <= |t| && RevokeEpisode(id, t[i..j])
  }

  /** What was revoked stays revoked, whatever is said before and after. */
  lemma {:induction false} RevokedInside(a: seq<Event>, t: seq<Event>, b: seq<Event>, id: string)
    requires RevokedIn(t, id)
    ensures RevokedIn(a + t + b, id)
  {
    hide RevokeEpisode;
    var i, j :| 0 <= i <= j <= |t| && RevokeEpisode(id, t[i..j]);
    assert (a + t + b)[|a| + i..|a| + j] == t[i..j];
  }

  // ---- the code: one lease ----

  method ReadMinted(c: Client, creds: Credentials, orgKey: Key, id: string) returns (r: Option<Bundle>, ghost e: Event)
    modifies c`tokens, c`trace
    ensures c.trace == old(c.trace) + [e]
    ensures e.Http? && e.request == GetEnvelope(id) && r == ReadBack(orgKey, e.reply)
  {
    var reply := c.Do(creds, GetEnvelope(id));
    e := Http(GetEnvelope(id), reply);
    if reply.Failure? || !reply.payload.EnvelopeBody? {
      return None, e;
    }
    var env := reply.payload.envelope;
    var plaintext := Open(orgKey, env.envelope, SecretContext(env.definitionId, env.environmentId));
    if plaintext == None || plaintext.value.asMinted == None {
      return None, e;
    }
    var pairs := ExpandMinted(env.key, plaintext.value.asMinted.value);
    var out: Bundle := map[];
    for i := 0 to |pairs|
      invariant out == PairMap(pairs[..i])
    {
      assert pairs[..i + 1][..i] == pairs[..i];
      out := out[pairs[i].key := pairs[i].value];
    }
    assert pairs[..|pairs|] == pairs;
    return Some(out), e;
  }

  method ApplyLeaseWork(c: Client, creds: Credentials, orgKey: Key, id: string)
    returns (err: Option<Error>, ghost t: seq<Event>)
    modifies c`tokens, c`trace
    ensures c.trace == old(c.trace) + t
    ensures Worked(orgKey, id, t, err)
    ensures NoRevokes(t) && NoLeaseRequests(t)
  {
    hide Applied;
    var reply := c.Do(creds, GetLeaseWork(id));
    t := [Http(GetLeaseWork(id), reply)];
    match reply {
      case Failure(e) => err := Some(e);
      case Success(WorkBody(batch)) =>
        if |batch.items| == 0 {
          return Some(NoWorkError(id)), t;
        }
        ghost var applied;
        err, applied := Apply.Apply(c, creds, orgKey, batch.orgKeyId, batch.items[0]);
        assert (t + applied)[1..] == applied;
        t := t + applied;
      case Success(_) => err := Some(DecodingError());
    }
  }

  method EnsureLease(c: Client, creds: Credentials, orgKey: Key, project: string, environment: string,
                     hint: DynamicHint, existingId: string)
    returns (r: Result<Grant>, ghost t: seq<Event>)
    modifies c`tokens, c`trace
    ensures c.trace == old(c.trace) + t
    ensures match r
            case Ok(g) => Provided(orgKey, project, environment, hint, existingId, Ensured(g.pairs, g.id, t))
            case Err(error) => Unprovided(orgKey, project, environment, hint, existingId, t, error)
    ensures NoRevokes(t)
  {
    hide ReadBack, Worked, MintedAnew, Unprovided, Unminted, Complaint;
    t := [];
    ghost var e: Event;
    var pairs: Option<Bundle>;
    if existingId != "" {
      pairs, e := ReadMinted(c, creds, orgKey, existingId);
      t := [e];
      if pairs.Some? {
        return Ok(Grant(pairs.value, existingId)), t;
      }
    }
    var reply := c.Do(creds, PostLease(project, environment, hint.key));
    ghost var first, request := t, Http(PostLease(project, environment, hint.key), reply);
    LeaseComplaint(project, environment, hint, reply);
    t := t + [request];
    if reply.Failure? {
      UnprovidedTrace(orgKey, project, environment, hint, existingId, first, request, [],
                      Wrapped("request lease " + hint.key, reply.error));
      return Err(Wrapped("request lease " + hint.key, reply.error)), t;
    }
    if !reply.payload.LeaseBody? {
      UnprovidedTrace(orgKey, project, environment, hint, existingId, first, request, [],
                      Wrapped("request lease " + hint.key, DecodingError()));
      return Err(Wrapped("request lease " + hint.key, DecodingError())), t;
    }
    var id := reply.payload.id;
    ghost var worked;
    var err: Option<Error>;
    err, worked := ApplyLeaseWork(c, creds, orgKey, id);
    t := t + worked;
    if err.Some? {
      WorkFailed(orgKey, hint, id, worked, err.value);
      UnprovidedTrace(orgKey, project, environment, hint, existingId, first, request, worked,
                      Wrapped("mint " + hint.key, err.value));
      return Err(Wrapped("mint " + hint.key, err.value)), t;
    }
    pairs, e := ReadMinted(c, creds, orgKey, id);
    t := t + [e];
    if pairs == None {
      MintUnread(orgKey, hint, id, worked, e);
      UnprovidedTrace(orgKey, project, environment, hint, existingId, first, request, worked + [e],
                      Wrapped("mint " + hint.key, MissingError()));
      assert first + [request] + (worked + [e]) == t;
      return Err(Wrapped("mint " + hint.key, MissingError())), t;
    }
    AnewTrace(orgKey, project, environment, hint, existingId, first, worked, e, Grant(pairs.value, id));
    return Ok(Grant(pairs.value, id)), t;
  }

  lemma {:induction false} UnprovidedTrace(orgKey: Key, project: string, environment: string, hint: DynamicHint,
                                           existingId: string, first: seq<Event>, request: Event, rest: seq<Event>,
                                           error: Error)
    requires if existingId == "" then first == []
             else |first| == 1 && first[0].Http? && first[0].request == GetEnvelope(existingId)
                  && ReadBack(orgKey, first[0].reply) == None
    requires request.Http? && request.request == PostLease(project, environment, hint.key)
    requires match Complaint(request)
             case Some(cause) => rest == [] && error == Wrapped("request lease " + hint.key, cause)
             case None => Unminted(orgKey, hint, request.reply.payload.id, rest, error)
    ensures Unprovided(orgKey, project, environment, hint, existingId, first + [request] + rest, error)
    ensures rest == [] ==> first + [request] + rest == first + [request]
  {
    hide ReadBack, Unminted;
    LeaseComplaint(project, environment, hint, request.reply);
    var t := first + [request] + rest;
    assert t[|first| + 1..] == rest;
  }

  /** A hint is provided for exactly when that does not fail. */
  lemma {:induction false} ProvidedOneWay(orgKey: Key, project: string, environment: string, hint: DynamicHint,
                                          existingId: string, t: seq<Event>, error: Error, pairs: Bundle, id: string)
    requires Unprovided(orgKey, project, environment, hint, existingId, t, error)
    ensures !Provided(orgKey, project, environment, hint, existingId, Ensured(pairs, id, t))
  {
    hide ReadBack, Worked;
    var n := if existingId != "" then 1 else 0;
    if MintedAnew(orgKey, project, environment, hint, existingId, Ensured(pairs, id, t)) {
      var rest := t[n + 1..];
      assert rest[..|rest| - 1] == t[n + 1..|t| - 1] && rest[|rest| - 1] == t[|t| - 1];
      WorkedOneWay(orgKey, id, rest, error.inner);
      assert false;
    }
  }

  /** Work that failed does not go on to read what was minted. */
  lemma {:induction false} WorkedOneWay(orgKey: Key, id: string, t: seq<Event>, error: Error)
    requires t != [] && Worked(orgKey, id, t[..|t| - 1], None)
    requires t[|t| - 1].Http? && t[|t| - 1].request.GetEnvelope?
    ensures !Worked(orgKey, id, t, Some(error))
  {
    hide Succeeded, Broke;
    assert t[..|t| - 1][0] == t[0] && t[1..][|t[1..]| - 1] == t[|t| - 1];
  }

  lemma {:induction false} LeaseComplaint(project: string, environment: string, hint: DynamicHint, reply: Reply)
    ensures Complaint(Http(PostLease(project, environment, hint.key), reply))
         == match reply
            case Failure(error) => Some(error)
            case Success(payload) => if payload.LeaseBody? then None else Some(DecodingError())
  {
  }

  lemma {:induction false} WorkFailed(orgKey: Key, hint: DynamicHint, id: string, t: seq<Event>, error: Error)
    requires Worked(orgKey, id, t, Some(error))
    ensures Unminted(orgKey, hint, id, t, Wrapped("mint " + hint.key, error))
  {
    hide Worked;
  }

  lemma {:induction false} MintUnread(orgKey: Key, hint: DynamicHint, id: string, worked: seq<Event>, last: Event)
    requires Worked(orgKey, id, worked, None)
    requires last.Http? && last.request == GetEnvelope(id) && ReadBack(orgKey, last.reply) == None
    ensures Unminted(orgKey, hint, id, worked + [last], Wrapped("mint " + hint.key, MissingError()))
  {
    hide Worked, ReadBack;
    assert (worked + [last])[..|worked|] == worked;
  }

  lemma {:induction false} AnewTrace(orgKey: Key, project: string, environment: string, hint: DynamicHint,
                                     existingId: string, first: seq<Event>, worked: seq<Event>, last: Event, g: Grant)
    requires if existingId == "" then first == []
             else |first| == 1 && first[0].Http? && first[0].request == GetEnvelope(existingId)
                  && ReadBack(orgKey, first[0].reply) == None
    requires Worked(orgKey, g.id, worked, None) && Reads(last, orgKey, g.id, g.pairs)
    ensures MintedAnew(orgKey, project, environment, hint, existingId,
              Ensured(g.pairs, g.id,
                first + [Http(PostLease(project, environment, hint.key), Success(LeaseBody(g.id)))] + worked + [last]))
  {
    hide ReadBack, Worked;
    assert worked != [] by { WorkedSays(orgKey, g.id, worked); }
    var n := |first|;
    var t := first + [Http(PostLease(project, environment, hint.key), Success(LeaseBody(g.id)))] + worked + [last];
    assert t[n + 1..|t| - 1] == worked;
  }

  lemma {:induction false} WorkedSays(orgKey: Key, id: string, t: seq<Event>)
    requires Worked(orgKey, id, t, None)
    ensures t != []
  {
  }

  method RevokeOne(c: Client, creds: Credentials, keys: MachineKeys, id: string)
    returns (err: Option<Error>, ghost t: seq<Event>)
    modifies c
    ensures c.trace == old(c.trace) + t
    ensures err == None <==> RevokeEpisode(id, t)
    ensures err.Some? ==> RevokeBroke(id, t, err.value)
    ensures forall e :: e in t && IsRevoke(e) ==> e.request.leaseId == id
    ensures NoLeaseRequests(t)
  {
    err, t := RevokeSteps(c, creds, keys, id);
    if err.Some? {
      RevokeOneWay(id, t, err.value);
    }
  }

  method RevokeSteps(c: Client, creds: Credentials, keys: MachineKeys, id: string)
    returns (err: Option<Error>, ghost t: seq<Event>)
    modifies c
    ensures c.trace == old(c.trace) + t
    ensures match err case None => RevokeEpisode(id, t) case Some(error) => RevokeBroke(id, t, error)
    ensures forall e :: e in t && IsRevoke(e) ==> e.request.leaseId == id
    ensures NoLeaseRequests(t)
  {
    hide Succeeded, Failed;
    var reply := c.Do(creds, PostRevoke(id));
    t := [Http(PostRevoke(id), reply)];
    if reply.Failure? {
      return Some(reply.error), t;
    }
    reply := c.Do(creds, GetLeaseWork(id));
    t := t + [Http(GetLeaseWork(id), reply)];
    if reply.Failure? {
      if DirectStatus(reply.error) == Some(STATUS_NOT_FOUND) {
        return None, t;
      }
      return Some(reply.error), t;
    }
    if !reply.payload.WorkBody? {
      return Some(DecodingError()), t;
    }
    var batch := reply.payload.batch;
    if |batch.items| == 0 {
      return None, t;
    }
    var orgKey := c.OpenOrgKey(creds, keys, batch.wrappedOrgKey);
    t := t + [Unsealing(batch.wrappedOrgKey, orgKey)];
    if orgKey.Err? {
      return Some(orgKey.error), t;
    }
    ghost var applied;
    err, applied := Apply.Apply(c, creds, orgKey.value, batch.orgKeyId, batch.items[0]);
    assert (t + applied)[3..] == applied;
    t := t + applied;
  }

  // ---- the code: many leases ----

  predicate IsBlank(id: string) { TrimSpace(id) == "" }

  /** The id is more than white space. */
  ghost predicate HasText(id: string) { exists c :: c in id && !IsSpace(c) }

  /** Exactly the other ids are skipped: those of nothing but the six white-space characters. */
  lemma {:induction false} BlankIds(id: string)
    ensures IsBlank(id) <==> !HasText(id)
    ensures HasText(id) <==>
              exists c :: c in id && c !in [' ', '\t', '\n', '\r', 11 as char, 12 as char]
  {
    BlankExactly(id);
    assert forall c :: IsSpace(c) <==> c in [' ', '\t', '\n', '\r', 11 as char, 12 as char];
  }

  /** The first ids, as far as they are not blank, were revoked. */
  ghost predicate RevokedUpTo(ids: seq<string>, n: int, t: seq<Event>) {
    0 <= n <= |ids| && forall j :: 0 <= j < n && HasText(ids[j]) ==> RevokedIn(t, ids[j])
  }

  /** How revoking many fails: there is no token or no key; or it fails for one of them,
      after all before it were revoked. */
  ghost predicate RevokesBroke(ids: seq<string>, t: seq<Event>, error: Error) {
    (OnlyFetching(t) && t != [] && Complaint(t[|t| - 1]) == Some(error))
    || exists i, before, part ::
         RevokedUpTo(ids, i, before) && 0 <= i < |ids| && HasText(ids[i]) && RevokeBroke(ids[i], part, error)
         && t == before + part
  }

  lemma {:induction false} UpToNext(ids: seq<string>, n: int, t: seq<Event>, more: seq<Event>)
    requires RevokedUpTo(ids, n, t) && n < |ids|
    requires if HasText(ids[n]) then RevokeEpisode(ids[n], more) else more == []
    ensures RevokedUpTo(ids, n + 1, t + more)
  {
    hide RevokeEpisode, HasText;
    forall j | 0 <= j < n + 1 && HasText(ids[j]) ensures RevokedIn(t + more, ids[j]) {
      if j < n {
        RevokedInside([], t, more, ids[j]);
        assert [] + t + more == t + more;
      } else {
        assert more[0..|more|] == more;
        assert RevokedIn(more, ids[j]);
        RevokedInside(t, more, [], ids[j]);
        assert t + more + [] == t + more;
      }
    }
  }

  lemma {:induction false} UpToStart(ids: seq<string>, t: seq<Event>)
    ensures RevokedUpTo(ids, 0, t)
  {
  }

  lemma {:induction false} FetchingIsQuiet(t: seq<Event>)
    requires OnlyFetching(t)
    ensures NoRevokes(t) && NoLeaseRequests(t)
  {
  }

  /** Token and keys. */
  method Enter(c: Client, creds: Credentials) returns (r: Result<MachineKeys>, ghost t: seq<Event>)
    modifies c
    ensures c.trace == old(c.trace) + t && OnlyFetching(t)
    ensures r.Err? ==> t != [] && Complaint(t[|t| - 1]) == Some(r.error)
  {
    hide Complaint;
    ghost var now, later;
    var token: Result<string>;
    token, t, now, later := c.Token(creds);
    if token.Err? {
      return Err(token.error), t;
    }
    ghost var more;
    r, more := c.MachineKeys(creds);
    t := t + more;
  }

  /** Revokes in order, up to the first failure. */
  method RevokeLeases(c: Client, creds: Credentials, ids: seq<string>) returns (err: Option<Error>, ghost t: seq<Event>)
    modifies c
    ensures c.trace == old(c.trace) + t
    ensures match err
            case None => forall id, c :: id in ids && c in id && !IsSpace(c) ==> RevokedIn(t, id)
            case Some(error) => RevokesBroke(ids, t, error)
    ensures forall e :: e in t && IsRevoke(e) ==> e.request.leaseId in ids && HasText(e.request.leaseId)
    ensures NoLeaseRequests(t)
    ensures ids == [] ==> err == None && t == []
  {
    hide RevokeEpisode, RevokeBroke, RevokedIn, HasText, Complaint, RevokedUpTo, OnlyFetching;
    t := [];
    if |ids| == 0 {
      return None, t;
    }
    var keys: Result<MachineKeys>;
    keys, t := Enter(c, creds);
    FetchingIsQuiet(t);
    if keys.Err? {
      return Some(keys.error), t;
    }
    ghost var more;
    UpToStart(ids, t);
    for i := 0 to |ids|
      invariant c.trace == old(c.trace) + t
      invariant RevokedUpTo(ids, i, t)
      invariant forall e :: e in t && IsRevoke(e) ==> e.request.leaseId in ids && HasText(e.request.leaseId)
      invariant NoLeaseRequests(t)
    {
      BlankIds(ids[i]);
      if IsBlank(ids[i]) {
        UpToNext(ids, i, t, []);
        assert t + [] == t;
        continue;
      }
      err, more := RevokeOne(c, creds, keys.value, ids[i]);
      if err == None {
        UpToNext(ids, i, t, more);
      }
      t := t + more;
      if err.Some? {
        return;
      }
    }
    AllUpTo(ids, t);
    return None, t;
  }

  lemma {:induction false} AllUpTo(ids: seq<string>, t: seq<Event>)
    requires RevokedUpTo(ids, |ids|, t)
    ensures forall id, c :: id in ids && c in id && !IsSpace(c) ==> RevokedIn(t, id)
  {
    hide RevokedIn;
  }

  // ---- whose fault it is ----

  /** A lease request that was refused, or lease work that could not be had, as the last
      thing said, is what providing for the hint failed with. */
  lemma {:induction false} HintRefused(orgKey: Key, project: string, environment: string, hint: DynamicHint,
                                       existingId: string, t: seq<Event>, error: Error, cause: Error)
    requires Unprovided(orgKey, project, environment, hint, existingId, t, error)
    requires t[|t| - 1].Http? && t[|t| - 1].reply == Failure(cause)
    requires t[|t| - 1].request.PostLease? || t[|t| - 1].request.GetLeaseWork?
    ensures error.Wrapped? && error.inner == cause
  {
    hide Failed, Succeeded, ReadBack;
    var n := if existingId != "" then 1 else 0;
    LeaseComplaint(project, environment, hint, t[n].reply);
    if Complaint(t[n]) == None {
      var rest := t[n + 1..];
      assert rest != [] ==> rest[|rest| - 1] == t[|t| - 1];
      if Worked(orgKey, t[n].reply.payload.id, rest, Some(error.inner)) {
        WorkRefused(orgKey, t[n].reply.payload.id, rest, error.inner, cause);
      }
    }
  }

  lemma {:induction false} WorkRefused(orgKey: Key, id: string, t: seq<Event>, error: Error, cause: Error)
    requires Worked(orgKey, id, t, Some(error))
    requires t[|t| - 1].Http? && t[|t| - 1].reply == Failure(cause)
    requires t[|t| - 1].request.PostLease? || t[|t| - 1].request.GetLeaseWork?
    ensures error == cause
  {
    hide Broke;
  }

  /** A revocation that was refused, as the last thing said, is what revoking failed with. */
  lemma {:induction false} RevokesRefused(ids: seq<string>, t: seq<Event>, error: Error, cause: Error)
    requires RevokesBroke(ids, t, error)
    requires t != [] && t[|t| - 1].Http? && t[|t| - 1].request.PostRevoke? && t[|t| - 1].reply == Failure(cause)
    ensures error == cause
  {
    hide RevokeBroke, RevokedUpTo, HasText;
    if !(OnlyFetching(t) && Complaint(t[|t| - 1]) == Some(error)) {
      var i, before, part :| RevokedUpTo(ids, i, before) && 0 <= i < |ids| && RevokeBroke(ids[i], part, error)
                             && t == before + part;
      RevokeSays(ids[i], part, error);
      assert part[|part| - 1] == t[|t| - 1];
      RevokeRefused(ids[i], part, error, cause);
    }
  }

  lemma {:induction false} RevokeSays(id: string, t: seq<Event>, error: Error)
    requires RevokeBroke(id, t, error)
    ensures t != []
  {
  }

  lemma {:induction false} RevokeRefused(id: string, t: seq<Event>, error: Error, cause: Error)
    requires RevokeBroke(id, t, error)
    requires t[|t| - 1].Http? && t[|t| - 1].request.PostRevoke? && t[|t| - 1].reply == Failure(cause)
    ensures error == cause
  {
    hide Broke;
  }

  lemma {:induction false} WorkCause(orgKey: Key, id: string, t: seq<Event>, error: Error)
    requires Worked(orgKey, id, t, Some(error))
    ensures CausedIn(t, error)
  {
    hide Failed;
    if Complaint(t[0]).Some? {
      assert t[0] in t;
    } else if t[0].reply.payload.batch.items != [] {
      var batch := t[0].reply.payload.batch;
      ApplyCause(orgKey, batch.orgKeyId, batch.items[0], t[1..], error);
      CausedLater([t[0]], t[1..], [], error);
      assert [t[0]] + t[1..] + [] == t;
    }
  }

  lemma {:induction false} UnprovidedCause(orgKey: Key, project: string, environment: string, hint: DynamicHint,
                                           existingId: string, t: seq<Event>, error: Error)
    requires Unprovided(orgKey, project, environment, hint, existingId, t, error)
    ensures CausedIn(t, error)
  {
    hide Worked, ReadBack, Complaint, Unread;
    var n := if existingId != "" then 1 else 0;
    assert RootStatus(error) == RootStatus(error.inner);
    LeaseComplaint(project, environment, hint, t[n].reply);
    if Complaint(t[n]).Some? {
      assert t[n] in t;
    } else if error.inner != MissingError() {
      WorkCause(orgKey, t[n].reply.payload.id, t[n + 1..], error.inner);
      CausedLater(t[..n + 1], t[n + 1..], [], error.inner);
      assert t[..n + 1] + t[n + 1..] + [] == t;
    }
  }

  lemma {:induction false} RevokeCause(id: string, t: seq<Event>, error: Error)
    requires RevokeBroke(id, t, error)
    ensures CausedIn(t, error)
  {
    hide Failed;
    var last := t[|t| - 1];
    assert last in t;
    if |t| >= 3 && UnsealedFor(t[1].reply.payload.batch, t) {
      var batch := t[1].reply.payload.batch;
      ApplyCause(t[2].result.value, batch.orgKeyId, batch.items[0], t[3..], error);
      CausedLater(t[..3], t[3..], [], error);
      assert t[..3] + t[3..] + [] == t;
    }
  }

  lemma {:induction false} RevokesCause(ids: seq<string>, t: seq<Event>, error: Error)
    requires RevokesBroke(ids, t, error)
    ensures CausedIn(t, error)
  {
    hide RevokeBroke, RevokedUpTo, HasText, Complaint;
    if OnlyFetching(t) && t != [] && Complaint(t[|t| - 1]) == Some(error) {
      assert t[|t| - 1] in t;
    } else {
      var i, before, part :| RevokedUpTo(ids, i, before) && 0 <= i < |ids| && RevokeBroke(ids[i], part, error)
                             && t == before + part;
      RevokeCause(ids[i], part, error);
      CausedLater(before, part, [], error);
      assert before + part + [] == t;
    }
  }

  /** The runs of the operator's own work items, in order. */
  ghost predicate WorkDone(orgKey: Key, batch: WorkBatch, parts: seq<seq<Event>>, err: Option<Error>) {
    |parts| <= |batch.items|
    && (err == None ==> |parts| == |batch.items|)
    && (err.Some? ==> parts != [])
    && forall i :: 0 <= i < |parts| ==>
         Applied(orgKey, batch.orgKeyId, batch.items[i], parts[i], if i == |parts| - 1 then err else None)
  }

  function Joined(parts: seq<seq<Event>>): seq<Event> {
    if parts == [] then [] else Joined(parts[..|parts| - 1]) + parts[|parts| - 1]
  }

  /** What comes of asking for work; a missing route counts as no work. */
  ghost predicate OwnWork(orgKey: Key, reply: Reply, parts: seq<seq<Event>>, err: Option<Error>) {
    match reply
    case Failure(e) => parts == [] && err == if e == ApiError(STATUS_NOT_FOUND) then None else Some(e)
    case Success(WorkBody(batch)) => WorkDone(orgKey, batch, parts, err)
    case Success(_) => parts == [] && err == Some(DecodingError())
  }

  method ApplyOwnWork(c: Client, creds: Credentials, orgKey: Key)
    returns (err: Option<Error>, ghost reply: Reply, ghost parts: seq<seq<Event>>)
    modifies c`tokens, c`trace
    ensures c.trace == old(c.trace) + ([Http(GetWork, reply)] + Joined(parts))
    ensures OwnWork(orgKey, reply, parts, err)
    ensures forall e :: e in Joined(parts) ==> OnlyWork(e)
  {
    hide Applied;
    parts := [];
    var answer := c.Do(creds, GetWork);
    reply := answer;
    match answer {
      case Failure(e) =>
        err := if DirectStatus(e) == Some(STATUS_NOT_FOUND) then None else Some(e);
      case Success(WorkBody(batch)) =>
        err := None;
        for i := 0 to |batch.items|
          invariant c.trace == old(c.trace) + ([Http(GetWork, reply)] + Joined(parts))
          invariant |parts| == i
          invariant forall j :: 0 <= j < i ==> Applied(orgKey, batch.orgKeyId, batch.items[j], parts[j], None)
          invariant forall e :: e in Joined(parts) ==> OnlyWork(e)
        {
          ghost var t;
          err, t := Apply.Apply(c, creds, orgKey, batch.orgKeyId, batch.items[i]);
          ghost var next := parts + [t];
          assert next[..|next| - 1] == parts;
          parts := next;
          if err.Some? {
            return;
          }
        }
        err := None;
      case Success(_) => err := Some(DecodingError());
    }
  }

  /** Some success report was accepted. */
  ghost predicate AcceptedIn(t: seq<Event>) {
    exists k :: 0 <= k < |t| && ReportsOk(t[k]) && t[k].reply.Success?
  }

  /** The last word is a report, and all reports are about this lease. */
  ghost predicate ReportsOn(t: seq<Event>, leaseId: string) {
    t != [] && IsCompletion(t[|t| - 1])
    && forall k :: 0 <= k < |t| && IsCompletion(t[k]) ==> t[k].request.body.leaseId == leaseId
  }

  /** Items are handled in order: each up to and including the first failure gets a
      report for its own lease as its last word, accepted unless it is the failure;
      none after it is touched. */
  lemma {:induction false} WorkInOrder(orgKey: Key, batch: WorkBatch, parts: seq<seq<Event>>, err: Option<Error>)
    requires WorkDone(orgKey, batch, parts, err)
    ensures forall i :: 0 <= i < |parts| ==> ReportsOn(parts[i], batch.items[i].leaseId)
    ensures forall i :: 0 <= i < |parts| ==> (AcceptedIn(parts[i]) <==> i < |parts| - 1 || err == None)
    ensures err == None <==> |parts| == |batch.items| && forall i :: 0 <= i < |parts| ==> AcceptedIn(parts[i])
  {
    hide Applied;
    forall i | 0 <= i < |parts|
      ensures ReportsOn(parts[i], batch.items[i].leaseId)
      ensures AcceptedIn(parts[i]) <==> i < |parts| - 1 || err == None
    {
      CompletionDiscipline(orgKey, batch.orgKeyId, batch.items[i], parts[i], if i == |parts| - 1 then err else None);
    }
    assert err.Some? ==> !AcceptedIn(parts[|parts| - 1]);
  }

  lemma {:induction false} OwnWorkCause(orgKey: Key, reply: Reply, parts: seq<seq<Event>>, error: Error)
    requires OwnWork(orgKey, reply, parts, Some(error))
    ensures CausedIn([Http(GetWork, reply)] + Joined(parts), error)
  {
    hide Applied;
    var first := Http(GetWork, reply);
    if reply.Success? && reply.payload.WorkBody? {
      var batch, n := reply.payload.batch, |parts| - 1;
      assert Applied(orgKey, batch.orgKeyId, batch.items[n], parts[n], Some(error));
      ItemCause(orgKey, batch.orgKeyId, batch.items[n], parts[n], error);
      CausedLater([first] + Joined(parts[..n]), parts[n], [], error);
      assert [first] + Joined(parts[..n]) + parts[n] + [] == [first] + Joined(parts);
    } else {
      assert first in [first] + Joined(parts);
    }
  }

  lemma {:induction false} ItemCause(orgKey: Key, orgKeyId: string, item: WorkItem, t: seq<Event>, error: Error)
    requires Applied(orgKey, orgKeyId, item, t, Some(error))
    ensures CausedIn(t, error)
  {
    ApplyCause(orgKey, orgKeyId, item, t, error);
  }
}
