/** The finalizers and the status of a resource, as the operator reads and writes them. */
module Status {
  import opened Text
  import opened Reconcile
  import opened Resources

  // ---- finalizers ----

  /** The finalizers of others, in their order. */
  function Foreign(fs: seq<string>): seq<string> {
    if fs == [] then []
    else Foreign(fs[..|fs| - 1]) + (if fs[|fs| - 1] == LeaseFinalizer() then [] else [fs[|fs| - 1]])
  }

  function WithFinalizer(fs: seq<string>, add: bool): seq<string> {
    if add then Foreign(fs) + [LeaseFinalizer()] else Foreign(fs)
  }

  lemma {:induction false} ForeignFacts(fs: seq<string>)
    ensures LeaseFinalizer() !in Foreign(fs)
    ensures LeaseFinalizer() !in fs ==> Foreign(fs) == fs
  {
    hide LeaseFinalizer;
    if fs != [] {
      ForeignFacts(fs[..|fs| - 1]);
      assert fs == fs[..|fs| - 1] + [fs[|fs| - 1]];
    }
  }

  /** All others stay, in their order. */
  lemma {:induction false} ForeignIs(a: seq<string>, f: string, b: seq<string>)
    ensures Foreign(a + [f] + b) == Foreign(a) + (if f == LeaseFinalizer() then [] else [f]) + Foreign(b)
  {
    if b == [] {
      assert a + [f] + b == a + [f];
      assert (a + [f])[..|a|] == a;
    } else {
      var n := |b| - 1;
      ForeignIs(a, f, b[..n]);
      assert (a + [f] + b)[..|a + [f] + b| - 1] == a + [f] + b[..n];
    }
  }

  /** Adding and removing the operator's finalizer never touches the others, nor their order. */
  lemma {:induction false} ForeignKept(fs: seq<string>, add: bool)
    ensures Foreign(WithFinalizer(fs, add)) == Foreign(fs)
    ensures LeaseFinalizer() in WithFinalizer(fs, add) <==> add
    ensures LeaseFinalizer() !in fs ==> WithFinalizer(fs, true) == fs + [LeaseFinalizer()]
    ensures LeaseFinalizer() !in fs ==> WithFinalizer(WithFinalizer(fs, true), false) == fs
  {
    ForeignFacts(fs);
    ForeignFacts(Foreign(fs));
    var added := Foreign(fs) + [LeaseFinalizer()];
    assert added[..|added| - 1] == Foreign(fs);
  }

  // ---- status ----

  function ReadyCondition(conditions: seq<Condition>): Option<Condition> {
    if conditions == [] then None
    else if conditions[0].kind == ReadyType() then Some(conditions[0])
    else ReadyCondition(conditions[1..])
  }

  /** Writing the status would change no more than its times. */
  predicate StatusUnchanged(o: Object, outcome: Outcome) {
    o.status.observedGeneration == o.generation
    && o.status.syncedKeyCount == outcome.syncedKeys
    && var ready := ReadyCondition(o.status.conditions);
       ready.Some? && ready.value.ready == outcome.ready && ready.value.reason == outcome.reason
       && ready.value.message == outcome.message
  }

  /** The status to write for an outcome. */
  function StatusFor(o: Object, outcome: Outcome, now: Instant): Status {
    var existing := ReadyCondition(o.status.conditions);
    var transition := if existing.Some? && existing.value.ready == outcome.ready then existing.value.transition
                      else now;
    Status(
      o.generation, outcome.syncedKeys,
      [Condition(ReadyType(), outcome.ready, outcome.reason, outcome.message, transition, o.generation)],
      if outcome.ready then Some(now) else o.status.lastSync)
  }

  /** How the times of a status move: the transition only when Ready flips or was not there,
      the last synchronisation only when Ready is true. */
  ghost predicate Timed(before: Status, after: Status, now: Instant) {
    |after.conditions| == 1
    && var c := after.conditions[0];
       c.transition == (match ReadyCondition(before.conditions)
                        case Some(was) => if was.ready == c.ready then was.transition else now
                        case None => now)
       && after.lastSync == if c.ready then Some(now) else before.lastSync
  }

  ghost predicate TimedSomehow(before: Status, after: Status) {
    exists now :: Timed(before, after, now)
  }

  /** The first condition of the kind "Ready" counts, wherever it stands. */
  lemma {:induction false} ReadyIs(before: seq<Condition>, c: Condition, after: seq<Condition>)
    requires forall i :: 0 <= i < |before| ==> before[i].kind != "Ready"
    ensures c.kind == "Ready" ==> ReadyCondition(before + [c] + after) == Some(c)
    ensures ReadyCondition(before) == None
  {
    if before != [] {
      assert (before + [c] + after)[1..] == before[1..] + [c] + after;
      ReadyIs(before[1..], c, after);
    }
  }

  /** What is written says the outcome, for this generation; and then there is nothing
      left to write for an equal outcome. The times move as they should. */
  lemma {:induction false} StatusForSays(o: Object, outcome: Outcome, now: Instant, after: Object)
    requires after.generation == o.generation && after.status == StatusFor(o, outcome, now)
    ensures Says(after.status, outcome, o.generation) && StatusUnchanged(after, outcome)
    ensures Timed(o.status, after.status, now)
    ensures after.status.conditions[0].kind == "Ready"
  {
  }

  /** Nothing is left to write exactly when the status reports this generation, this key
      count, and in its Ready condition this state, reason and message. */
  lemma {:induction false} UnchangedExactly(o: Object, outcome: Outcome, before: seq<Condition>, c: Condition,
                                            after: seq<Condition>)
    requires o.status.conditions == before + [c] + after && c.kind == "Ready"
    requires forall i :: 0 <= i < |before| ==> before[i].kind != "Ready"
    ensures StatusUnchanged(o, outcome) <==>
              o.status.observedGeneration == o.generation && o.status.syncedKeyCount == outcome.syncedKeys
              && c.ready == outcome.ready && c.reason == outcome.reason && c.message == outcome.message
  {
    hide ReadyCondition;
    ReadyIs(before, c, after);
  }

  /** Without a Ready condition there is always something to write. */
  lemma {:induction false} UnreadyIsChanged(o: Object, outcome: Outcome)
    requires forall i :: 0 <= i < |o.status.conditions| ==> o.status.conditions[i].kind != "Ready"
    ensures !StatusUnchanged(o, outcome)
  {
    ReadyIs(o.status.conditions, Condition("Ready", true, "", "", 0, 0), []);
  }

  /** The verdict is about this object, as read, and this outcome. */
  predicate Judges(v: Verdict, o: Object, outcome: Outcome) {
    v.uid == o.uid && v.generation == o.generation && v.attempt.cr.spec == o.spec && v.outcome == outcome
  }

  /** A status prepared for a judged object is honest for every later generation of it. */
  lemma {:induction false} JudgedIsHonest(v: Verdict, o: Object, outcome: Outcome, now: Instant, generation: nat,
                                          specs: map<(nat, nat), Spec>, verdicts: set<Verdict>)
    requires v in verdicts && Judges(v, o, outcome) && o.generation <= generation
    requires (o.uid, o.generation) in specs && specs[(o.uid, o.generation)] == o.spec
    ensures Honest(o.uid, generation, StatusFor(o, outcome, now), specs, verdicts)
  {
    hide StatusFor, Says;
    var status := StatusFor(o, outcome, now);
    StatusForSays(o, outcome, now, o.(status := status));
    assert Backs(v, o.uid, generation, status, specs);
  }

  /** Skipping the write is right: the stored status is the outcome that some pass over the
      very spec that was read came to, and it is the outcome just reached. If an edit has
      raced the pass since, the status says so: it reports an older generation. */
  lemma {:induction false} SkipIsHonest(api: Api, o: Object, outcome: Outcome) returns (v: Verdict)
    requires api.Valid() && api.stored.Some? && api.stored.value.uid == o.uid && api.stored.value.status == o.status
    requires (o.uid, o.generation) in api.specs && api.specs[(o.uid, o.generation)] == o.spec
    requires StatusUnchanged(o, outcome)
    ensures v in api.verdicts && v.uid == o.uid && v.generation == o.generation
    ensures v.attempt.cr.name == api.name && v.attempt.cr.uid == o.uid && v.attempt.cr.spec == o.spec
    ensures Reached(v.attempt, v.outcome) && Says(o.status, v.outcome, o.generation)
    ensures v.outcome.syncedKeys == outcome.syncedKeys && v.outcome.ready == outcome.ready
            && v.outcome.reason == outcome.reason && v.outcome.message == outcome.message
    ensures api.stored.value.generation != o.generation ==>
              api.stored.value.status.observedGeneration < api.stored.value.generation
  {
    hide LeaseFinalizer, Reached;
    v :| v in api.verdicts && Backs(v, o.uid, api.stored.value.generation, o.status, api.specs);
    assert Grounded(api.name, v);
  }

  function ResourceOf(name: string, o: Object): Resource {
    Resource(name, o.uid, o.spec, o.status.syncedKeyCount)
  }

  /** Time goes one way: an object that was there reports a generation not earlier than
      before, any other is a later one. `uids` bounds the uids handed out before. */
  ghost predicate ObservedGrows(before: Option<Object>, uids: nat, after: Option<Object>) {
    after.Some? ==>
      after.value.uid >= uids
      || (before.Some? && before.value.uid == after.value.uid
          && before.value.status.observedGeneration <= after.value.status.observedGeneration)
  }

  /** The status of an object that was there is what it was. */
  ghost predicate StatusKept(before: Option<Object>, uids: nat, after: Option<Object>) {
    after.Some? ==>
      after.value.uid >= uids
      || (before.Some? && before.value.uid == after.value.uid && before.value.status == after.value.status)
  }

  /** A later bound says more. */
  lemma {:induction false} EarlierBound(before: Option<Object>, uids: nat, uids': nat, after: Option<Object>)
    requires uids <= uids'
    ensures ObservedGrows(before, uids', after) ==> ObservedGrows(before, uids, after)
    ensures StatusKept(before, uids', after) ==> StatusKept(before, uids, after)
  {
  }

  lemma {:induction false} KeptTransitive(a: Option<Object>, uids: nat, b: Option<Object>, uids': nat,
                                          c: Option<Object>)
    requires StatusKept(a, uids, b) && StatusKept(b, uids', c) && uids <= uids'
    ensures StatusKept(a, uids, c)
  {
  }

  lemma {:induction false} ObservedTransitive(a: Option<Object>, uids: nat, b: Option<Object>, uids': nat,
                                              c: Option<Object>)
    requires ObservedGrows(a, uids, b) && ObservedGrows(b, uids', c) && uids <= uids'
    ensures ObservedGrows(a, uids, c)
  {
  }

  lemma {:induction false} RelyObserved(before: Option<Object>, after: Option<Object>, clock: nat, uids: nat)
    requires Rely(before, after, clock, uids)
    ensures ObservedGrows(before, uids, after) && StatusKept(before, uids, after)
    ensures Held(before) ==> Held(after)
  {
    hide LeaseFinalizer;
  }

  lemma {:induction false} SameStatusObserved(before: Option<Object>, uids: nat, after: Option<Object>)
    requires before.Some? && after.Some? && before.value.uid == after.value.uid
             && before.value.status == after.value.status
    ensures ObservedGrows(before, uids, after) && StatusKept(before, uids, after)
  {
  }

  lemma {:induction false} GoneIsObserved(before: Option<Object>, uids: nat)
    ensures ObservedGrows(before, uids, None) && StatusKept(before, uids, None)
  {
  }

  /** What is on record for the stored object. */
  lemma {:induction false} GenerationOnRecord(api: Api, o: Object)
    requires api.Valid() && api.stored == Some(o)
    ensures (o.uid, o.generation) in api.specs && api.specs[(o.uid, o.generation)] == o.spec
    ensures o.status.observedGeneration <= o.generation
  {
    hide LeaseFinalizer, Grounded;
  }

  lemma {:induction false} WrittenStatus(raw: Object, outcome: Outcome, now: Instant, uids: nat, after: Object)
    requires after.uid == raw.uid && after.status == StatusFor(raw, outcome, now)
             && raw.status.observedGeneration <= raw.generation
    ensures ObservedGrows(Some(raw), uids, Some(after))
    ensures Says(after.status, outcome, raw.generation) && after.status.syncedKeyCount == outcome.syncedKeys
    ensures TimedSomehow(raw.status, after.status)
    ensures after.generation == raw.generation ==> StatusUnchanged(after, outcome)
  {
    assert Timed(raw.status, after.status, now);
  }
}
