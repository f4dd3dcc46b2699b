/** The Kubernetes Secrets of one namespace, behind an API server that others use too. */
module Secrets {
  import opened Text
  import opened Platform

  /** An annotation value: the JSON text of a string map, or any other text. */
  datatype Annotation = Json(ids: map<string, string>) | Plain(text: string)

  datatype Owner = Owner(kind: string, name: string, uid: nat)

  datatype Secret = Secret(
    data: map<string, string>, kind: string, labels: map<string, string>,
    annotations: map<string, Annotation>, owners: seq<Owner>, version: nat)

  datatype Got = Found(secret: Secret) | Missing | Unavailable

  /** What the operator was told of a Secret it asked for. */
  datatype Answer = Answer(name: string, got: Got)

  /** A write of the operator that took effect. */
  datatype Write = Write(name: string, before: Option<Secret>, after: Secret)

  // ---- the lease ids in the annotation ----

  /** The annotation that holds the lease ids. */
  function LeaseIdsKey(): string { "kryptic.dev/dynamic-lease-ids" }

  function DecodeIds(a: map<string, Annotation>): map<string, string> {
    if LeaseIdsKey() in a && a[LeaseIdsKey()].Json? then a[LeaseIdsKey()].ids else map[]
  }

  /** The ids recorded in a Secret; none when the Secret or the annotation is missing. */
  function IdsOf(secret: Option<Secret>): map<string, string> {
    if secret.Some? then DecodeIds(secret.value.annotations) else map[]
  }

  /** The ids recorded for a target. */
  function RecordedIds(secrets: map<string, Secret>, target: string): map<string, string> {
    IdsOf(if target in secrets then Some(secrets[target]) else None)
  }

  /** The lease ids an answer tells of; none on any error. */
  function IdsIn(got: Got): map<string, string> {
    IdsOf(if got.Found? then Some(got.secret) else None)
  }

  /** The next Secret asked for was this one, and these are the ids it told of. */
  ghost predicate ReadNext(answers: seq<Answer>, answers': seq<Answer>, name: string, ids: map<string, string>,
                           readable: bool) {
    |answers| < |answers'| && answers == answers'[..|answers|]
    && answers'[|answers|].name == name && ids == IdsIn(answers'[|answers|].got)
    && (readable <==> !answers'[|answers|].got.Unavailable?)
  }

  /** Asking for more does not change what was read before. */
  lemma {:induction false} ReadStill(answers: seq<Answer>, answers': seq<Answer>, name: string, ids: map<string,
                                     string>,
                                     readable: bool, more: seq<Answer>)
    requires ReadNext(answers, answers', name, ids, readable)
    ensures ReadNext(answers, answers' + more, name, ids, readable)
  {
    hide IdsIn;
  }

  /** Others may have been at work: what is recorded under a name stays, unless somebody
      touched it. */
  ghost predicate Spared(touched: multiset<string>, secrets: map<string, Secret>,
                         touched': multiset<string>, secrets': map<string, Secret>) {
    touched <= touched'
    && forall n :: touched[n] == touched'[n] ==> RecordedIds(secrets, n) == RecordedIds(secrets', n)
  }

  /** How the operator moves what is recorded under a name, if nobody else touches that:
      it stays, or a write goes over it and what that write says is recorded from then on. */
  ghost predicate Recorded(
    name: string, touched: multiset<string>, secrets: map<string, Secret>, writes: seq<Write>,
    touched': multiset<string>, secrets': map<string, Secret>, writes': seq<Write>)
  {
    touched <= touched'
    && (touched[name] == touched'[name] ==>
          if writes == writes' then RecordedIds(secrets', name) == RecordedIds(secrets, name)
          else
            |writes'| > 0
            && IdsOf(writes'[|writes'| - 1].before) == RecordedIds(secrets, name)
            && RecordedIds(secrets', name) == DecodeIds(writes'[|writes'| - 1].after.annotations))
  }

  lemma {:induction false} OnlyRead(name: string, touched: multiset<string>, secrets: map<string, Secret>,
                                    writes: seq<Write>, touched': multiset<string>, secrets': map<string, Secret>)
    requires Spared(touched, secrets, touched', secrets')
    ensures Recorded(name, touched, secrets, writes, touched', secrets', writes)
    ensures touched <= touched'
    ensures touched[name] == touched'[name] ==> RecordedIds(secrets', name) == RecordedIds(secrets, name)
  {
    hide RecordedIds;
  }

  lemma {:induction false} SparedAlways(touched: multiset<string>, secrets: map<string, Secret>)
    ensures Spared(touched, secrets, touched, secrets)
  {
  }

  lemma {:induction false} SparedTwice(
    touched: multiset<string>, secrets: map<string, Secret>, touched': multiset<string>, secrets': map<string, Secret>,
    touched'': multiset<string>, secrets'': map<string, Secret>)
    requires Spared(touched, secrets, touched', secrets') && Spared(touched', secrets', touched'', secrets'')
    ensures Spared(touched, secrets, touched'', secrets'')
  {
    hide RecordedIds;
  }

  lemma {:induction false} SparedFirst(
    name: string, touched: multiset<string>, secrets: map<string, Secret>, writes: seq<Write>,
    touched': multiset<string>, secrets': map<string, Secret>,
    touched'': multiset<string>, secrets'': map<string, Secret>, writes'': seq<Write>)
    requires Spared(touched, secrets, touched', secrets')
    ensures Recorded(name, touched', secrets', writes, touched'', secrets'', writes'') ==>
              Recorded(name, touched, secrets, writes, touched'', secrets'', writes'')
              && (touched[name] == touched''[name] ==> touched[name] == touched'[name])
  {
    hide RecordedIds, IdsOf, DecodeIds;
  }

  lemma {:induction false} Overwritten(
    touched: multiset<string>, secrets: map<string, Secret>, writes: seq<Write>,
    touched': multiset<string>, mid: map<string, Secret>, w: Write)
    requires Spared(touched, secrets, touched', mid)
    requires w.before == if w.name in mid then Some(mid[w.name]) else None
    ensures Recorded(w.name, touched, secrets, writes, touched', mid[w.name := w.after], writes + [w])
  {
    hide DecodeIds;
    assert writes + [w] != writes;
  }

  // ---- the server ----

  class Store {
    var secrets: map<string, Secret>
    var clock: nat
    ghost var writes: seq<Write>
    /** How often somebody else changed the lease ids recorded under a name. */
    ghost var touched: multiset<string>
    /** How many writes of the operator were acknowledged. */
    ghost var acked: nat
    /** How many requests of the operator were answered with an error. */
    ghost var failures: nat
    /** What the operator was told, in order. */
    ghost var answers: seq<Answer>
    /** Why credentials were not to be had, each time they were not. */
    ghost var denied: seq<Error>

    constructor ()
      ensures Valid() && secrets == map[] && writes == [] && touched == multiset{} && acked == 0 && failures == 0
      ensures answers == [] && denied == []
    {
      secrets, clock, writes, touched, acked, failures, answers, denied := map[], 0, [], multiset{}, 0, 0, [], [];
    }

    ghost predicate Valid()
      reads this
    {
      forall n :: n in secrets ==> secrets[n].version <= clock
    }

    /** Somebody else creates, replaces or deletes a Secret. */
    method Act()
      requires Valid()
      modifies this
      ensures Valid() && writes == old(writes) && acked == old(acked) && failures == old(failures)
      ensures answers == old(answers) && denied == old(denied)
      ensures clock > old(clock)
      ensures forall n :: n in secrets && secrets[n].version <= old(clock) ==>
                n in old(secrets) && secrets[n] == old(secrets)[n]
      ensures Spared(old(touched), old(secrets), touched, secrets)
    {
      hide DecodeIds;
      var name: string := *;
      var secret: Secret := *;
      var gone: bool := *;
      clock := clock + 1;
      secrets := if gone then secrets - {name} else secrets[name := secret.(version := clock)];
      if RecordedIds(secrets, name) != RecordedIds(old(secrets), name) {
        touched := touched + multiset{name};
      }
    }

    /** Others come and go between any two requests. A version, once handed out, stands
        for one state of one Secret. */
    method Interfere()
      requires Valid()
      modifies this
      ensures Valid() && writes == old(writes) && acked == old(acked) && failures == old(failures)
      ensures answers == old(answers) && denied == old(denied)
      ensures clock >= old(clock)
      ensures forall n :: n in secrets && secrets[n].version <= old(clock) ==>
                n in old(secrets) && secrets[n] == old(secrets)[n]
      ensures Spared(old(touched), old(secrets), touched, secrets)
    {
      hide RecordedIds;
      var changes: int := *;
      while changes > 0
        invariant Valid() && writes == old(writes) && acked == old(acked) && failures == old(failures)
        invariant answers == old(answers) && denied == old(denied)
        invariant clock >= old(clock)
        invariant forall n :: n in secrets && secrets[n].version <= old(clock) ==>
                    n in old(secrets) && secrets[n] == old(secrets)[n]
        invariant Spared(old(touched), old(secrets), touched, secrets)
      {
        Act();
        changes := changes - 1;
      }
    }

    /** Credentials, or the reason why there are none. */
    method Credentials() returns (r: Result<Credentials>)
      requires Valid()
      modifies this
      ensures Valid() && writes == old(writes) && acked == old(acked) && failures == old(failures)
      ensures answers == old(answers)
      ensures denied == old(denied) + if r.Err? then [r.error] else []
      ensures Spared(old(touched), old(secrets), touched, secrets)
    {
      Interfere();
      r := *;
      if r.Err? {
        denied := denied + [r.error];
      }
    }

    /** The truth, or an error. */
    method Get(name: string) returns (got: Got)
      requires Valid()
      modifies this
      ensures Valid() && writes == old(writes) && acked == old(acked) && denied == old(denied)
      ensures failures == old(failures) + if got == Unavailable then 1 else 0
      ensures answers == old(answers) + [Answer(name, got)]
      ensures Spared(old(touched), old(secrets), touched, secrets)
      ensures got.Found? ==> name in secrets && secrets[name] == got.secret
      ensures got == Missing ==> name !in secrets
    {
      Interfere();
      var fails: bool := *;
      got := if fails then Unavailable else if name in secrets then Found(secrets[name]) else Missing;
      failures := failures + if fails then 1 else 0;
      answers := answers + [Answer(name, got)];
    }

    /** What a request to write `after` under the name over `before` comes to: nothing, or
        the write, in which case what was recorded before is what the write went over. The
        answer tells of a write, but may get lost on the way back. */
    twostate predicate Put(name: string, before: Option<Secret>, after: Secret, ok: bool)
      reads this
    {
      acked == old(acked) + (if ok then 1 else 0)
      && failures == old(failures) + (if ok then 0 else 1)
      && answers == old(answers) && denied == old(denied)
      && (ok ==> writes != old(writes))
      && (writes == old(writes) || writes == old(writes) + [Write(name, before, after.(version := clock))])
      && Recorded(name, old(touched), old(secrets), old(writes), touched, secrets, writes)
    }

    /** Refused when the name is taken. */
    method Create(name: string, secret: Secret) returns (ok: bool)
      requires Valid()
      modifies this
      ensures Valid() && Put(name, None, secret, ok)
    {
      hide Spared, Recorded;
      Interfere();
      OnlyRead(name, old(touched), old(secrets), writes, touched, secrets);
      var fails: bool := *;
      if name in secrets || fails {
        failures := failures + 1;
        return false;
      }
      clock := clock + 1;
      Overwritten(old(touched), old(secrets), writes, touched, secrets, Write(name, None, secret.(version := clock)));
      secrets := secrets[name := secret.(version := clock)];
      writes := writes + [Write(name, None, secret.(version := clock))];
      ok := *;
      acked := acked + if ok then 1 else 0;
      failures := failures + if ok then 0 else 1;
    }

    /** Refused when the Secret has moved on since it was read. */
    method Update(name: string, secret: Secret, ghost was: Secret) returns (ok: bool)
      requires Valid()
      requires secret.version == was.version <= clock
      requires name in secrets && secrets[name] == was
      modifies this
      ensures Valid() && Put(name, Some(was), secret, ok)
    {
      hide Spared, Recorded;
      Interfere();
      OnlyRead(name, old(touched), old(secrets), writes, touched, secrets);
      var fails: bool := *;
      if name !in secrets || secrets[name].version != secret.version || fails {
        failures := failures + 1;
        return false;
      }
      clock := clock + 1;
      Overwritten(old(touched), old(secrets), writes, touched, secrets,
                  Write(name, Some(was), secret.(version := clock)));
      secrets := secrets[name := secret.(version := clock)];
      writes := writes + [Write(name, Some(was), secret.(version := clock))];
      ok := *;
      acked := acked + if ok then 1 else 0;
      failures := failures + if ok then 0 else 1;
    }
  }
}
