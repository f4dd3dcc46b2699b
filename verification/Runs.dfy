/** What holds over whole runs of passes. */
module Runs {
  import opened Text
  import opened Platform
  import opened Wire
  import opened Leases
  import opened Sync
  import opened Secrets
  import opened Reconcile
  import opened Resources
  import opened Status

  // ---- lease ids ----

  /** The recorded ids and everything said so far. */
  datatype Ledger = Ledger(ids: LeaseIds, trace: seq<Event>)

  ghost predicate LedgerStep(l: Ledger, l': Ledger) {
    exists t :: l'.trace == l.trace + t && Accounted(l.ids, l'.ids, t)
  }

  ghost predicate LedgerRun(ledgers: seq<Ledger>) {
    forall n :: 0 <= n < |ledgers| - 1 ==> LedgerStep(ledgers[n], ledgers[n + 1])
  }

  /** An id that was ever recorded leaves the annotation only once it was revoked. */
  lemma {:induction false} NoIdIsLost(ledgers: seq<Ledger>, i: nat, j: nat, k: string, c: char)
    requires LedgerRun(ledgers) && i <= j < |ledgers|
    requires k in ledgers[i].ids && c in ledgers[i].ids[k] && !IsSpace(c)
    ensures (k in ledgers[j].ids && ledgers[j].ids[k] == ledgers[i].ids[k])
            || RevokedIn(ledgers[j].trace, ledgers[i].ids[k])
    decreases j - i
  {
    hide RevokedIn, IsSpace;
    var id := ledgers[i].ids[k];
    if i < j {
      NoIdIsLost(ledgers, i, j - 1, k, c);
      var l, l' := ledgers[j - 1], ledgers[j];
      assert LedgerStep(ledgers[j - 1], ledgers[j - 1 + 1]);
      var t :| l'.trace == l.trace + t && Accounted(l.ids, l'.ids, t);
      if RevokedIn(l.trace, id) {
        RevokedInside([], l.trace, t, id);
        assert [] + l.trace + t == l'.trace;
      } else if RevokedIn(t, id) {
        RevokedInside(l.trace, t, [], id);
        assert l.trace + t + [] == l'.trace;
      }
    }
  }

  /** A ledger run from these ids at first to those at last, in which this was said. */
  ghost predicate LeaseAccount(ledgers: seq<Ledger>, before: LeaseIds, after: LeaseIds, t: seq<Event>) {
    LedgerRun(ledgers) && ledgers != []
    && ledgers[0] == Ledger(before, []) && ledgers[|ledgers| - 1] == Ledger(after, t)
  }

  lemma {:induction false} AccountStarts(ids: LeaseIds)
    ensures LeaseAccount([Ledger(ids, [])], ids, ids, [])
  {
  }

  /** One more pass. */
  lemma {:induction false} AccountGrows(ledgers: seq<Ledger>, before: LeaseIds, mid: LeaseIds, t: seq<Event>,
                                        after: LeaseIds, more: seq<Event>)
    requires LeaseAccount(ledgers, before, mid, t) && Accounted(mid, after, more)
    ensures LeaseAccount(ledgers + [Ledger(after, t + more)], before, after, t + more)
  {
    hide Accounted;
    var longer := ledgers + [Ledger(after, t + more)];
    forall n | 0 <= n < |longer| - 1 ensures LedgerStep(longer[n], longer[n + 1]) {
      if n < |ledgers| - 1 {
        assert LedgerStep(ledgers[n], ledgers[n + 1]);
      }
    }
  }

  /** Over a whole run nothing that was recorded at first is lost. */
  lemma {:induction false} RunIsAccounted(ledgers: seq<Ledger>, before: LeaseIds, after: LeaseIds, t: seq<Event>)
    requires LeaseAccount(ledgers, before, after, t)
    ensures Accounted(before, after, t)
  {
    hide RevokedIn, LedgerRun, IsSpace;
    forall k | k in before && HasText(before[k])
      ensures (k in after && after[k] == before[k]) || RevokedIn(t, before[k]) {
      var c :| c in before[k] && !IsSpace(c);
      NoIdIsLost(ledgers, 0, |ledgers| - 1, k, c);
    }
  }

  lemma {:induction false} KeptIsAccounted(ids: LeaseIds, t: seq<Event>)
    ensures Accounted(ids, ids, t)
  {
  }

  /** A pass that could read the annotation, which nobody else touched, loses no id. */
  lemma {:induction false} PassAccounted(a: Attempt, writes: seq<Write>, writes': seq<Write>,
                                         before: LeaseIds, after: LeaseIds)
    requires LeasesBy(a.cr, a.ids, a.p.run, a.p.t) && a.ids == before
    requires writes' == writes
             || (ReadyToWrite(a.cr, a.dynamic, a.ids, a.p)
                 && exists w :: writes' == writes + [w] && PassWrite(a.cr, w, a.p.data, a.p.next))
    requires if writes' == writes then after == before
             else
               |writes'| > 0 && IdsOf(writes'[|writes'| - 1].before) == before
               && after == DecodeIds(writes'[|writes'| - 1].after.annotations)
    ensures Accounted(before, after, a.p.t)
  {
    hide RevokedIn, HasText, PassWrite, ReadyToWrite, DecodeIds;
    if writes' != writes {
      WriteIsAccounted(a.cr, a.dynamic, a.ids, a.p, writes'[|writes'| - 1]);
    }
  }

  // ---- what is still to be revoked ----

  /** As long as the operator's finalizer is off, nothing that is recorded is still to be revoked. */
  ghost predicate Protected(stored: Option<Object>, ids: LeaseIds, trace: seq<Event>) {
    !Held(stored) ==> AllRevoked(ids, trace)
  }

  lemma {:induction false} AllRevokedGrows(ids: LeaseIds, trace: seq<Event>, t: seq<Event>)
    ensures AllRevoked(ids, trace) || AllRevoked(ids, t) ==> AllRevoked(ids, trace + t)
  {
    hide RevokedIn, HasText;
    forall id | RevokedIn(trace, id) ensures RevokedIn(trace + t, id) {
      RevokedInside([], trace, t, id);
      assert [] + trace + t == trace + t;
    }
    forall id | RevokedIn(t, id) ensures RevokedIn(trace + t, id) {
      RevokedInside(trace, t, [], id);
      assert trace + t + [] == trace + t;
    }
  }

  /** Every spec the resource ever had names this target. */
  ghost predicate FixedTarget(name: string, specs: map<(nat, nat), Spec>, target: string) {
    forall k :: k in specs ==> TargetOf(name, specs[k]) == target
  }

  lemma {:induction false} TargetIsFixed(name: string, specs: map<(nat, nat), Spec>, target: string, raw: Object)
    requires FixedTarget(name, specs, target)
    requires (raw.uid, raw.generation) in specs && specs[(raw.uid, raw.generation)] == raw.spec
    ensures TargetOf(name, raw.spec) == target
  {
    hide TargetOf;
  }

  /** What all specs name now, all specs named before. */
  lemma {:induction false} FixedBefore(name: string, before: map<(nat, nat), Spec>, after: map<(nat, nat), Spec>,
                                       target: string)
    requires forall k :: k in before ==> k in after && after[k] == before[k]
    ensures FixedTarget(name, after, target) ==> FixedTarget(name, before, target)
  {
    hide TargetOf;
  }

  // ---- the journal ----

  /** A pass on record: whether the finalizer was on the object when it began, where in the
      conversation it began, and what it came to. */
  datatype Entry = Entry(held: bool, at: nat, v: Verdict)

  /** What was said in the pass. */
  function Said(e: Entry): seq<Event> { e.v.attempt.p.t }

  function VerdictsOf(journal: seq<Entry>): set<Verdict> {
    set e | e in journal :: e.v
  }

  /** Every pass on record began with the finalizer on, and said what is recorded of it;
      and from this point on, every lease request was sent in one of them. */
  ghost predicate Covers(journal: seq<Entry>, trace: seq<Event>, from: nat) {
    (forall n :: 0 <= n < |journal| ==> Begun(journal[n], trace))
    && forall i :: from <= i < |trace| && IsLeaseRequest(trace[i]) ==>
         exists n :: 0 <= n < |journal| && Within(journal[n], i)
  }

  predicate Begun(e: Entry, trace: seq<Event>) {
    e.held && e.at + |Said(e)| <= |trace| && trace[e.at..e.at + |Said(e)|] == Said(e)
  }

  predicate Within(e: Entry, i: int) { e.at <= i < e.at + |Said(e)| }

  /** Nothing to put on record: no lease request was sent. */
  lemma {:induction false} CoversOn(journal: seq<Entry>, trace: seq<Event>, from: nat, t: seq<Event>)
    requires Covers(journal, trace, from) && NoLeaseRequests(t)
    ensures Covers(journal, trace + t, from)
  {
    hide IsLeaseRequest, Within;
    var longer := trace + t;
    forall n | 0 <= n < |journal| ensures Begun(journal[n], longer) {
      var e := journal[n];
      assert Begun(e, trace);
      assert longer[e.at..e.at + |Said(e)|] == trace[e.at..e.at + |Said(e)|];
    }
    forall i | from <= i < |longer| && IsLeaseRequest(longer[i])
      ensures exists n :: 0 <= n < |journal| && Within(journal[n], i) {
      assert longer[i] == trace[i];
    }
  }

  /** One more pass on record. */
  lemma {:induction false} CoversMore(journal: seq<Entry>, trace: seq<Event>, from: nat, v: Verdict)
    requires Covers(journal, trace, from)
    ensures Covers(journal + [Entry(true, |trace|, v)], trace + v.attempt.p.t, from)
    ensures VerdictsOf(journal + [Entry(true, |trace|, v)]) == VerdictsOf(journal) + {v}
  {
    hide IsLeaseRequest;
    var e := Entry(true, |trace|, v);
    var more, longer := journal + [e], trace + Said(e);
    forall n | 0 <= n < |more| ensures Begun(more[n], longer) {
      if n < |journal| {
        assert more[n] == journal[n] && Begun(journal[n], trace);
        assert longer[more[n].at..more[n].at + |Said(more[n])|] == trace[more[n].at..more[n].at + |Said(more[n])|];
      }
    }
    forall i | from <= i < |longer| && IsLeaseRequest(longer[i])
      ensures exists n :: 0 <= n < |more| && Within(more[n], i) {
      if i >= |trace| {
        assert Within(more[|journal|], i);
      } else {
        assert longer[i] == trace[i];
        var n :| 0 <= n < |journal| && Within(journal[n], i);
        assert Within(more[n], i);
      }
    }
    assert more[|journal|] == e && e in more;
    assert forall x :: x in journal ==> x in more;
  }

  // ---- quiescence ----

  /** A pass over a live object nobody else touches: at most one write of each kind; the
      finalizer is only ever put on; the status is written only when it changes, and then
      there is nothing left to write for the outcome it was written for. */
  ghost predicate QuietPass(o: Object, o': Object, outcome: Option<Outcome>, finalizerWrites: int, statusWrites: int) {
    o'.uid == o.uid && o'.generation == o.generation && o'.spec == o.spec && !o'.deleting
    && 0 <= finalizerWrites <= 1 && 0 <= statusWrites <= 1
    && (finalizerWrites == 0 ==> o'.finalizers == o.finalizers)
    && (finalizerWrites == 1 ==> !Held(Some(o)) && Held(Some(o')))
    && (statusWrites == 0 ==> o'.status == o.status)
    && (statusWrites == 1 ==> outcome.Some? && !StatusUnchanged(o, outcome.value) && StatusUnchanged(o', outcome.value)
                              && o'.status.syncedKeyCount == outcome.value.syncedKeys)
  }

  function OutcomeIn(verdict: Option<Verdict>): Option<Outcome> {
    match verdict
    case None => None
    case Some(v) => Some(v.outcome)
  }

  /** A pass that does nothing. */
  lemma {:induction false} NothingHappens(stored: Option<Object>, uids: nat, ids: LeaseIds, trace: seq<Event>)
    ensures ObservedGrows(stored, uids, stored) && StatusKept(stored, uids, stored)
    ensures Accounted(ids, ids, []) && trace + [] == trace && NoLeaseRequests([])
    ensures stored.Some? && !stored.value.deleting ==> QuietPass(stored.value, stored.value, None, 0, 0)
  {
  }

  /** Nothing but the status of the object has changed. */
  predicate OnlyStatus(before: Option<Object>, after: Option<Object>) {
    before.Some? && after.Some?
    && after.value == before.value.(status := after.value.status, version := after.value.version)
  }

  /** Nothing but the finalizers of the object has changed, and only if it had not that of
      the operator, which it now has. */
  predicate OnlyFinalizer(raw: Object, after: Option<Object>, finalizerWrites: int) {
    after.Some? && after.value == raw.(finalizers := after.value.finalizers, version := after.value.version)
    && 0 <= finalizerWrites <= 1
    && (finalizerWrites == 0 ==> after == Some(raw))
    && (finalizerWrites == 1 ==> !Held(Some(raw)) && Held(after))
  }

  /** The two halves of a quiet pass: `done` is the object once the finalizer is seen to. */
  lemma {:induction false} QuietFrom(raw: Object, done: Option<Object>, after: Option<Object>, outcome: Option<Outcome>,
                                     finalizerWrites: int, statusWrites: int)
    requires !raw.deleting && OnlyFinalizer(raw, done, finalizerWrites) && OnlyStatus(done, after)
    requires 0 <= statusWrites <= 1
    requires statusWrites == 0 ==> after.value.status == raw.status
    requires statusWrites == 1 ==>
               outcome.Some? && !StatusUnchanged(raw, outcome.value)
               && (after.value.generation == raw.generation ==> StatusUnchanged(after.value, outcome.value))
               && after.value.status.syncedKeyCount == outcome.value.syncedKeys
    ensures QuietPass(raw, after.value, outcome, finalizerWrites, statusWrites)
  {
    hide StatusUnchanged, LeaseFinalizer;
  }

  lemma {:induction false} QuietSoFar(raw: Object, after: Option<Object>, finalizerWrites: int)
    requires !raw.deleting && OnlyFinalizer(raw, after, finalizerWrites)
    ensures after.Some? && QuietPass(raw, after.value, None, finalizerWrites, 0)
  {
    hide LeaseFinalizer;
  }

  /** What the platform keeps answering: the same keys, or the same failure. */
  datatype Answer = Good(keys: nat) | Bad(reason: string, message: string, requeueAfter: int)

  /** The outcome of reconciling an object while the platform keeps answering so. */
  function OutcomeOf(answer: Answer, name: string, o: Object): Outcome {
    match answer
    case Good(keys) => SyncedOutcome(keys, ResourceOf(name, o))
    case Bad(reason, message, requeueAfter) => FailedOutcome(reason, message, requeueAfter, o.status.syncedKeyCount)
  }

  /** Every outcome of a pass is the outcome for some answer of the platform. */
  lemma {:induction false} OutcomeHasAnswer(a: Attempt, outcome: Outcome, name: string, o: Object)
    returns (answer: Answer)
    requires Reached(a, outcome) && a.cr == ResourceOf(name, o)
    ensures outcome == OutcomeOf(answer, name, o)
  {
    hide SyncedOutcome, BrokeOff, LeasesBy;
    if outcome.ready {
      answer := Good(|a.p.data|);
    } else {
      answer := Bad(outcome.reason, outcome.message, outcome.requeueAfter);
    }
  }

  datatype Pass = Pass(outcome: Option<Outcome>, finalizerWrites: int, statusWrites: int)

  /** Passes over an object nobody else touches, each of which may break off anywhere. */
  ghost predicate QuietRun(objects: seq<Object>, passes: seq<Pass>) {
    |objects| == |passes| + 1
    && forall n :: 0 <= n < |passes| ==>
         QuietPass(objects[n], objects[n + 1], passes[n].outcome, passes[n].finalizerWrites, passes[n].statusWrites)
  }

  /** All the while the platform keeps answering the same. */
  ghost predicate FixedAnswer(name: string, answer: Answer, objects: seq<Object>, passes: seq<Pass>) {
    |objects| > |passes|
    && forall n :: 0 <= n < |passes| && passes[n].outcome.Some? ==>
         passes[n].outcome.value == OutcomeOf(answer, name, objects[n])
  }

  /** One more quiet pass. */
  lemma {:induction false} QuietGrows(objects: seq<Object>, passes: seq<Pass>, o: Object, p: Pass)
    requires QuietRun(objects, passes)
    requires QuietPass(objects[|passes|], o, p.outcome, p.finalizerWrites, p.statusWrites)
    ensures QuietRun(objects + [o], passes + [p])
    ensures FinalizerWrites(passes + [p]) == FinalizerWrites(passes) + p.finalizerWrites
    ensures StatusWrites(passes + [p]) == StatusWrites(passes) + p.statusWrites
  {
    hide QuietPass;
    assert (passes + [p])[..|passes|] == passes;
    forall n | 0 <= n < |passes + [p]|
      ensures var q := (passes + [p])[n];
              QuietPass((objects + [o])[n], (objects + [o])[n + 1], q.outcome, q.finalizerWrites, q.statusWrites)
    {
      if n < |passes| {
        assert (passes + [p])[n] == passes[n];
      }
    }
  }

  function FinalizerWrites(passes: seq<Pass>): int {
    if passes == [] then 0 else FinalizerWrites(passes[..|passes| - 1]) + passes[|passes| - 1].finalizerWrites
  }

  function StatusWrites(passes: seq<Pass>): int {
    if passes == [] then 0 else StatusWrites(passes[..|passes| - 1]) + passes[|passes| - 1].statusWrites
  }

  /** However many passes: at most one finalizer write and at most one status write take
      effect, and after the one nothing is left to write. */
  lemma {:induction false} Quiescent(name: string, answer: Answer, objects: seq<Object>, passes: seq<Pass>)
    requires QuietRun(objects, passes) && FixedAnswer(name, answer, objects, passes)
    ensures 0 <= FinalizerWrites(passes) <= 1 && 0 <= StatusWrites(passes) <= 1
    ensures FinalizerWrites(passes) == 1 ==> Held(Some(objects[|passes|]))
    ensures StatusWrites(passes) == 1 ==>
              StatusUnchanged(objects[|passes|], OutcomeOf(answer, name, objects[|passes|]))
    ensures objects[|passes|].spec == objects[0].spec
  {
    hide StatusUnchanged, LeaseFinalizer, SyncedMessage, TargetOf, Interval;
    if passes != [] {
      var n := |passes| - 1;
      var before := objects[..n + 1];
      assert QuietRun(before, passes[..n]) && FixedAnswer(name, answer, before, passes[..n]);
      Quiescent(name, answer, before, passes[..n]);
      var o, o', p := objects[n], objects[n + 1], passes[n];
      assert before[n] == o;
      SameOutcome(answer, name, o, o', p);
    }
  }

  /** One more pass when the status already says the outcome, or just came to. */
  lemma {:induction false} SameOutcome(answer: Answer, name: string, o: Object, o': Object, p: Pass)
    requires QuietPass(o, o', p.outcome, p.finalizerWrites, p.statusWrites)
    requires p.outcome.Some? ==> p.outcome.value == OutcomeOf(answer, name, o)
    ensures StatusUnchanged(o, OutcomeOf(answer, name, o)) ==> p.statusWrites == 0
    ensures StatusUnchanged(o, OutcomeOf(answer, name, o)) || p.statusWrites == 1 ==>
              StatusUnchanged(o', OutcomeOf(answer, name, o'))
    ensures Held(Some(o)) ==> p.finalizerWrites == 0 && Held(Some(o'))
  {
    hide LeaseFinalizer, SyncedMessage, Interval;
    if p.statusWrites == 1 {
      assert OutcomeOf(answer, name, o') == OutcomeOf(answer, name, o);
    }
  }

  /** Quiet passes from one object to another, with so many writes of each kind. */
  ghost predicate QuietAccount(objects: seq<Object>, passes: seq<Pass>, before: Object, after: Object,
                               finalizerWrites: int, statusWrites: int) {
    QuietRun(objects, passes) && objects[0] == before && objects[|passes|] == after
    && FinalizerWrites(passes) == finalizerWrites && StatusWrites(passes) == statusWrites
  }

  lemma {:induction false} QuietStarts(o: Object)
    ensures QuietAccount([o], [], o, o, 0, 0)
  {
  }

  lemma {:induction false} QuietContinues(objects: seq<Object>, passes: seq<Pass>, before: Object, mid: Object,
                                          after: Object, finalizerWrites: int, statusWrites: int, p: Pass)
    requires QuietAccount(objects, passes, before, mid, finalizerWrites, statusWrites)
    requires QuietPass(mid, after, p.outcome, p.finalizerWrites, p.statusWrites)
    ensures QuietAccount(objects + [after], passes + [p], before, after,
                         finalizerWrites + p.finalizerWrites, statusWrites + p.statusWrites)
    ensures !after.deleting
  {
    assert !after.deleting;
    hide QuietPass;
    QuietGrows(objects, passes, after, p);
  }

  lemma {:induction false} QuietEnough(name: string, answer: Answer, objects: seq<Object>, passes: seq<Pass>,
                                       before: Object, after: Object, finalizerWrites: int, statusWrites: int)
    requires QuietAccount(objects, passes, before, after, finalizerWrites, statusWrites)
    ensures FixedAnswer(name, answer, objects, passes) ==> finalizerWrites <= 1 && statusWrites <= 1
  {
    hide QuietRun, FixedAnswer;
    if FixedAnswer(name, answer, objects, passes) {
      Quiescent(name, answer, objects, passes);
    }
  }

  // ---- ownership and last known good ----

  /** A write of a Secret, by a pass that had its bundle in full. */
  datatype OwnWrite = OwnWrite(a: Attempt, w: Write)

  ghost predicate Proper(x: OwnWrite) {
    ReadyToWrite(x.a.cr, x.a.dynamic, x.a.ids, x.a.p) && PassWrite(x.a.cr, x.w, x.a.p.data, x.a.p.next)
  }

  datatype Move = Ours(x: OwnWrite) | Theirs

  /** The states of one Secret: writes of the operator, and whatever others do. */
  ghost predicate SecretRun(states: seq<Option<Secret>>, moves: seq<Move>) {
    |states| == |moves| + 1
    && forall n :: 0 <= n < |moves| ==> Moved(moves[n], states[n], states[n + 1])
  }

  ghost predicate Moved(move: Move, before: Option<Secret>, after: Option<Secret>) {
    move.Ours? ==> Proper(move.x) && move.x.w.before == before && Some(move.x.w.after) == after
  }

  predicate SameOwners(before: Option<Secret>, after: Option<Secret>) {
    before.Some? && after.Some? && before.value.owners == after.value.owners
  }

  /** In this stretch others neither delete the Secret nor change its owners. */
  ghost predicate OwnersLeftAlone(states: seq<Option<Secret>>, moves: seq<Move>, i: nat, j: nat)
    requires |states| == |moves| + 1 && j <= |moves|
  {
    forall n :: i <= n < j && moves[n] == Theirs ==> SameOwners(states[n], states[n + 1])
  }

  lemma {:induction false} WrittenOwner(x: OwnWrite)
    requires Proper(x)
    ensures x.w.after.owners == [Owner(Kind(), x.a.cr.name, x.a.cr.uid)]
    ensures x.w.after.data == Selected(x.a.p.fetched.value + x.a.p.extra, x.a.cr.spec.keys)
    ensures x.w.before.Some? ==> OwnedBy(x.w.before.value, x.a.cr.name)
    ensures OwnedOnlyBy(x.w.after, x.a.cr.name)
  {
    hide WithLeaseIds, Kind, Synced, Selected;
    var s := x.w.after;
    assert s.owners == [Owner(Kind(), x.a.cr.name, x.a.cr.uid)];
    assert OwnedBy(s, x.a.cr.name) by {
      assert s.owners[0].kind == Kind() && s.owners[0].name == x.a.cr.name;
    }
  }

  /** Owned by this resource and no other. */
  ghost predicate OwnedOnlyBy(s: Secret, name: string) {
    forall n :: OwnedBy(s, n) <==> n == name
  }

  ghost predicate Unowned(s: Secret) {
    forall n :: !OwnedBy(s, n)
  }

  lemma {:induction false} OwnershipByOwners(a: Secret, b: Secret, name: string)
    requires a.owners == b.owners
    ensures OwnedOnlyBy(a, name) ==> OwnedOnlyBy(b, name)
    ensures Unowned(a) ==> Unowned(b)
  {
    assert forall n :: OwnedBy(a, n) <==> OwnedBy(b, n);
  }

  /** A Secret the operator does not own is not written by it, until somebody else deletes
      it or changes its owners. */
  lemma {:induction false} UnownedUntouched(states: seq<Option<Secret>>, moves: seq<Move>, i: nat, j: nat)
    requires SecretRun(states, moves) && i <= j < |moves| && OwnersLeftAlone(states, moves, i, j)
    requires states[i].Some? && Unowned(states[i].value)
    ensures moves[j] == Theirs && states[j].Some? && Unowned(states[j].value)
    decreases j - i
  {
    hide OwnedBy, Proper, PassWrite, ReadyToWrite;
    assert Moved(moves[j], states[j], states[j + 1]);
    if i < j {
      UnownedUntouched(states, moves, i, j - 1);
      assert states[j - 1 + 1] == states[j] && SameOwners(states[j - 1], states[j]);
      OwnershipByOwners(states[j - 1].value, states[j].value, "");
    }
    if moves[j].Ours? {
      WrittenOwner(moves[j].x);
      assert false;
    }
  }

  /** A Secret that one resource wrote, having been named as its owner if the Secret was
      there before, is from then on written by that resource only, until somebody else
      deletes it or changes its owners; and every write of the operator replaces the data by
      the selected keys of a bundle decrypted in full. */
  lemma {:induction false} OneOwner(states: seq<Option<Secret>>, moves: seq<Move>, i: nat, j: nat)
    requires SecretRun(states, moves) && i <= j < |moves| && moves[i].Ours? && OwnersLeftAlone(states, moves, i, j)
    ensures states[i].Some? ==> OwnedBy(states[i].value, moves[i].x.a.cr.name)
    ensures i < j ==> states[j].Some? && OwnedOnlyBy(states[j].value, moves[i].x.a.cr.name)
    ensures moves[j].Ours? ==>
              var x := moves[j].x;
              x.a.cr.name == moves[i].x.a.cr.name
              && states[j + 1].Some?
              && states[j + 1].value.data == Selected(x.a.p.fetched.value + x.a.p.extra, x.a.cr.spec.keys)
    decreases j - i
  {
    hide Proper, OwnedBy, Selected;
    assert Moved(moves[i], states[i], states[i + 1]) && Moved(moves[j], states[j], states[j + 1]);
    WrittenOwner(moves[i].x);
    if i < j {
      OneOwner(states, moves, i, j - 1);
      assert states[j - 1 + 1] == states[j] && Moved(moves[j - 1], states[j - 1], states[j]);
      if moves[j - 1].Ours? {
        WrittenOwner(moves[j - 1].x);
      } else {
        assert SameOwners(states[j - 1], states[j]);
        OwnershipByOwners(states[j - 1].value, states[j].value, moves[i].x.a.cr.name);
      }
      if moves[j].Ours? {
        WrittenOwner(moves[j].x);
      }
    }
  }

  /** The write is that of a pass on record. */
  ghost predicate WriteOnRecord(journal: seq<Entry>, w: Write) {
    exists k :: 0 <= k < |journal| && Proper(OwnWrite(journal[k].v.attempt, w))
  }

  ghost predicate WritesOnRecord(journal: seq<Entry>, writes: seq<Write>) {
    forall n :: 0 <= n < |writes| ==> WriteOnRecord(journal, writes[n])
  }

  lemma {:induction false} WritesGrow(journal: seq<Entry>, e: Entry, writes: seq<Write>, more: seq<Write>)
    requires WritesOnRecord(journal, writes)
    requires forall n :: 0 <= n < |more| ==> Proper(OwnWrite(e.v.attempt, more[n]))
    ensures WritesOnRecord(journal + [e], writes + more)
  {
    hide Proper;
    var longer := journal + [e];
    forall n | 0 <= n < |writes + more| ensures WriteOnRecord(longer, (writes + more)[n]) {
      if n < |writes| {
        var k :| 0 <= k < |journal| && Proper(OwnWrite(journal[k].v.attempt, writes[n]));
        assert longer[k] == journal[k];
      } else {
        assert longer[|journal|] == e;
      }
    }
  }

  // ---- an injective annotation ----

  /** What is recorded before each write of a run, each by a pass that read it, and after
      the last. */
  ghost predicate AnnotationRun(ids: seq<LeaseIds>, writes: seq<OwnWrite>) {
    |ids| == |writes| + 1 && forall n :: 0 <= n < |writes| ==> Recorder(writes[n], ids[n], ids[n + 1])
  }

  ghost predicate Recorder(x: OwnWrite, before: LeaseIds, after: LeaseIds) {
    Proper(x) && x.a.ids == IdsOf(x.w.before) == before && DecodeIds(x.w.after.annotations) == after
  }

  /** The ids the platform issued in the pass. */
  ghost function MintedBy(x: OwnWrite): set<string> {
    match x.a.p.run
    case None => {}
    case Some(run) => set s | s in run.steps && IsMint(s) :: s.id
  }

  /** Over the whole run the platform never issues an id twice, nor one recorded at first. */
  ghost predicate NeverReissuesOver(ids: LeaseIds, writes: seq<OwnWrite>) {
    forall n :: 0 <= n < |writes| ==>
      MintsOnce(writes[n])
      && MintedBy(writes[n]) !! ids.Values
      && forall m :: 0 <= m < n ==> MintedBy(writes[n]) !! MintedBy(writes[m])
  }

  ghost predicate MintsOnce(x: OwnWrite) {
    x.a.p.run.Some? ==>
      var steps := x.a.p.run.value.steps;
      forall i, j :: 0 <= i < j < |steps| && IsMint(steps[i]) && IsMint(steps[j]) ==> steps[i].id != steps[j].id
  }

  /** A write records only what was recorded before, and what its pass minted. */
  lemma {:induction false} RecordsOrMints(x: OwnWrite, before: LeaseIds, after: LeaseIds, k: string)
    requires Recorder(x, before, after) && k in after
    ensures after[k] in before.Values || after[k] in MintedBy(x)
  {
    hide PassWrite, DecodeIds, Selected, Synced, IsMint;
    var a := x.a;
    ReadsBack(a.cr, x.w, a.p.data, a.p.next);
    if a.dynamic && |a.p.next| > 0 {
      var run := a.p.run.value;
      var i := LeaseOrigin(a.cr.spec.projectId, a.cr.spec.environment, a.ids, run, a.p.extra, a.p.next, k);
      assert run.steps[i] in run.steps;
    }
  }

  lemma {:induction false} WhereFrom(ids: seq<LeaseIds>, writes: seq<OwnWrite>, n: nat, k: string)
    requires AnnotationRun(ids, writes) && n < |ids| && k in ids[n]
    ensures ids[n][k] in ids[0].Values || exists m :: 0 <= m < n && ids[n][k] in MintedBy(writes[m])
  {
    hide Recorder, MintedBy;
    if n > 0 {
      assert Recorder(writes[n - 1], ids[n - 1], ids[n - 1 + 1]);
      RecordsOrMints(writes[n - 1], ids[n - 1], ids[n], k);
      if ids[n][k] in ids[n - 1].Values {
        var k' :| k' in ids[n - 1] && ids[n - 1][k'] == ids[n][k];
        WhereFrom(ids, writes, n - 1, k');
      }
    }
  }

  lemma {:induction false} FreshInPass(ids: seq<LeaseIds>, writes: seq<OwnWrite>, n: nat)
    requires AnnotationRun(ids, writes) && NeverReissuesOver(ids[0], writes) && n < |writes|
    ensures writes[n].a.p.run.Some? ==> NeverReissues(ids[n], writes[n].a.p.run.value)
  {
    hide Recorder, IsMint;
    if writes[n].a.p.run.Some? {
      var steps := writes[n].a.p.run.value.steps;
      forall i | 0 <= i < |steps| && IsMint(steps[i]) ensures steps[i].id !in ids[n].Values {
        assert steps[i] in steps && steps[i].id in MintedBy(writes[n]);
        forall k | k in ids[n] ensures ids[n][k] != steps[i].id {
          WhereFrom(ids, writes, n, k);
        }
      }
      assert MintsOnce(writes[n]);
    }
  }

  /** No pass of such a run revokes an id it keeps. */
  lemma {:induction false} KeepsUnrevoked(x: OwnWrite, before: LeaseIds, after: LeaseIds, e: Event)
    requires Recorder(x, before, after) && x.a.dynamic && Injective(before) && NeverReissues(before, x.a.p.run.value)
    requires e in RunTrace(x.a.p.run.value) && IsRevoke(e)
    ensures e.request.leaseId !in x.a.p.next.Values
  {
    hide Synced, NeverReissues, PassWrite, Selected;
    NeverRevokesKept(x.a.cr.spec.projectId, x.a.cr.spec.environment, before, x.a.p.run.value, x.a.p.extra, x.a.p.next,
                     e);
  }

  /** The annotation stays injective over the whole run, and no pass revokes an id it keeps. */
  lemma {:induction false} StaysInjective(ids: seq<LeaseIds>, writes: seq<OwnWrite>, n: nat)
    requires AnnotationRun(ids, writes) && NeverReissuesOver(ids[0], writes) && n < |ids|
    requires Injective(ids[0])
    ensures Injective(ids[n])
    ensures n < |writes| && writes[n].a.dynamic && writes[n].a.p.run.Some? ==>
              forall e :: e in RunTrace(writes[n].a.p.run.value) && IsRevoke(e) ==>
                e.request.leaseId !in writes[n].a.p.next.Values
  {
    hide Injective, NeverReissues, NeverReissuesOver, PassWrite, Synced, Served, RunTrace;
    if n > 0 {
      StaysInjective(ids, writes, n - 1);
      FreshInPass(ids, writes, n - 1);
      var x := writes[n - 1];
      assert Recorder(x, ids[n - 1], ids[n - 1 + 1]);
      WriteKeepsInjective(x.a.cr, x.a.dynamic, x.a.ids, x.a.p, x.w);
    }
    if n < |writes| && writes[n].a.dynamic && writes[n].a.p.run.Some? {
      FreshInPass(ids, writes, n);
      assert Recorder(writes[n], ids[n], ids[n + 1]);
      forall e | e in RunTrace(writes[n].a.p.run.value) && IsRevoke(e)
        ensures e.request.leaseId !in writes[n].a.p.next.Values
      {
        KeepsUnrevoked(writes[n], ids[n], ids[n + 1], e);
      }
    }
  }

  // ---- the worker's turns ----

  /** What the worker, the API server and the platform have come to. */
  datatype World = World(
    name: string, dynamic: bool, trace: seq<Event>, journal: seq<Entry>,
    stored: Option<Object>, uids: nat, specs: map<(nat, nat), Spec>, verdicts: set<Verdict>,
    gets: seq<Option<Object>>, undecoded: nat, faults: nat, finalizerWrites: nat, statusWrites: nat, disturbances: nat,
    secrets: map<string, Secret>, touched: multiset<string>, failures: nat, writes: seq<Write>, denied: seq<Error>)

  /** One queued item: whether it is in scope, what was read of the object, whether that could
      be decoded, what was said; whether and as what the annotation was read; the pass, if there
      was one; and when to come back. */
  datatype Turn = Turn(
    accepted: bool, got: Option<Object>, decoded: bool, t: seq<Event>, readable: bool, read: LeaseIds,
    verdict: Option<Verdict>, requeueAfter: int)

  /** History only grows. */
  ghost predicate Chronicle(w: World, w': World, turn: Turn) {
    w'.name == w.name && w'.dynamic == w.dynamic && w'.trace == w.trace + turn.t
    && w.uids <= w'.uids && w.disturbances <= w'.disturbances && w.touched <= w'.touched
    && (forall k :: k in w.specs ==> k in w'.specs && w'.specs[k] == w.specs[k])
    && w'.failures >= w.failures + (if turn.readable then 0 else 1)
  }

  /** The object was asked for, if the item is in scope; and what could not be decoded was
      indeed no resource. */
  ghost predicate Reading(w: World, w': World, turn: Turn) {
    (if turn.accepted then
       |w.gets| < |w'.gets| && w.gets == w'.gets[..|w.gets|] && w'.gets[|w.gets|] == turn.got
     else turn.got == None && w'.stored == w.stored && turn.t == [])
    && (!turn.decoded ==> w.undecoded < w'.undecoded)
  }

  /** A pass is put on record, begun with the finalizer on and with all it said; without one
      no lease is requested. */
  ghost predicate Recording(w: World, w': World, turn: Turn) {
    match turn.verdict
    case None => w'.journal == w.journal && w'.verdicts == w.verdicts && NoLeaseRequests(turn.t)
    case Some(v) =>
      w'.journal == w.journal + [Entry(true, |w.trace|, v)] && w'.verdicts == w.verdicts + {v}
      && v.attempt.p.t == turn.t
  }

  /** The object that was read is seen to: a live one that has the finalizer gets a pass, and
      without a pass a write has failed; the outcome is heeded, and reported unless a write has
      failed; a deleted one is let go, unless something stood in the way; and the item is done
      with only if the object could not be read, or is free of the finalizer. */
  ghost predicate Heeding(w: World, w': World, turn: Turn) {
    (turn.verdict.Some? ==> turn.got.Some? && turn.requeueAfter == turn.verdict.value.outcome.requeueAfter)
    && (turn.accepted && turn.got.Some? && turn.decoded ==>
          if turn.got.value.deleting then
            turn.requeueAfter == 0 || w.faults < w'.faults || |w.denied| < |w'.denied|
            || exists error :: RevokingBroke(turn.read, turn.t, error)
          else
            (Held(turn.got) ==> turn.verdict.Some?)
            && (turn.verdict == None ==> w.faults < w'.faults)
            && (turn.verdict.Some? ==>
                  StatusUnchanged(turn.got.value, turn.verdict.value.outcome)
                  || w'.statusWrites == w.statusWrites + 1 || w.faults < w'.faults))
    && (turn.requeueAfter == 0 ==> !turn.accepted || turn.got == None || !Held(w'.stored))
  }

  /** A status that was written is what the pass came to, with its times moved as they
      should, and otherwise the status stays; generations reported grow. */
  ghost predicate Telling(w: World, w': World, turn: Turn) {
    ObservedGrows(w.stored, w.uids, w'.stored)
    && (w'.statusWrites == w.statusWrites ==> StatusKept(w.stored, w.uids, w'.stored))
    && (w'.statusWrites != w.statusWrites ==>
          turn.got.Some? && w'.stored.Some? && StatusKept(w.stored, w.uids, turn.got)
          && TimedSomehow(turn.got.value.status, w'.stored.value.status))
    && (w'.statusWrites != w.statusWrites ==>
          turn.verdict.Some? && w'.stored.Some?
          && Says(w'.stored.value.status, turn.verdict.value.outcome, turn.verdict.value.generation))
  }

  /** Nothing that is recorded is lost, and the finalizer comes off only once everything that
      was read is revoked. */
  ghost predicate Keeping(target: string, w: World, w': World, turn: Turn) {
    (Held(w.stored) && !Held(w'.stored) && w.dynamic ==> AllRevoked(turn.read, turn.t))
    && (turn.readable && w'.touched[target] == w.touched[target] && FixedTarget(w.name, w'.specs, target) ==>
          var before, after := RecordedIds(w.secrets, target), RecordedIds(w'.secrets, target);
          Accounted(before, after, turn.t)
          && (w.dynamic && Protected(w.stored, before, w.trace) ==> Protected(w'.stored, after, w'.trace)))
  }

  /** Left alone, a live object sees a quiet pass. */
  ghost predicate Quieting(w: World, w': World, turn: Turn) {
    w'.disturbances == w.disturbances && w.stored.Some? && !w.stored.value.deleting ==>
      w'.stored.Some?
      && QuietPass(w.stored.value, w'.stored.value, OutcomeIn(turn.verdict), w'.finalizerWrites - w.finalizerWrites,
                   w'.statusWrites - w.statusWrites)
  }

  /** At most one Secret is written, by the pass on record. */
  ghost predicate Writing(verdict: Option<Verdict>, writes: seq<Write>, writes': seq<Write>) {
    writes' == writes
    || (verdict.Some? && |writes'| == |writes| + 1 && writes == writes'[..|writes|]
        && Proper(OwnWrite(verdict.value.attempt, writes'[|writes|])))
  }

  ghost predicate TurnStep(target: string, w: World, w': World, turn: Turn) {
    Reading(w, w', turn) && Seeing(target, w, w', turn)
  }

  /** A turn but for the reading. */
  ghost predicate Seeing(target: string, w: World, w': World, turn: Turn) {
    Chronicle(w, w', turn) && Recording(w, w', turn) && Heeding(w, w', turn) && Telling(w, w', turn)
    && Keeping(target, w, w', turn) && Quieting(w, w', turn) && Writing(turn.verdict, w.writes, w'.writes)
  }

  /** What is left to do once the object has been read. */
  ghost predicate HandledAs(target: string, w: World, w': World, turn: Turn) {
    turn.accepted && turn.decoded && turn.got.Some? && turn.got == w.stored
    && |w.gets| <= |w'.gets| && w.gets == w'.gets[..|w.gets|]
    && Seeing(target, w, w', turn)
  }

  /** A run of the worker: turn after turn, with nothing in between but what a turn allows for. */
  ghost predicate WorldRun(target: string, worlds: seq<World>, turns: seq<Turn>) {
    |worlds| == |turns| + 1
    && forall n :: 0 <= n < |turns| ==> TurnStep(target, worlds[n], worlds[n + 1], turns[n])
  }

  /** A pass over a live object, or no pass at all, keeps what is recorded. */
  lemma {:induction false} LiveKeeps(target: string, own: string, w: World, w': World, turn: Turn)
    requires w'.trace == w.trace + turn.t
    requires FixedTarget(w.name, w'.specs, target) ==> own == target
    requires turn.readable && w'.touched[own] == w.touched[own] ==>
               Accounted(RecordedIds(w.secrets, own), RecordedIds(w'.secrets, own), turn.t)
    requires Held(w.stored) ==> Held(w'.stored)
    requires Held(w'.stored) || (turn.t == [] && w'.secrets == w.secrets)
    ensures Keeping(target, w, w', turn)
  {
    hide FixedTarget, Accounted, AllRevoked, RecordedIds, LeaseFinalizer;
    assert turn.t == [] ==> w'.trace == w.trace;
  }

  /** The rest of a turn over a live object. */
  lemma {:induction false} LiveSeen(target: string, own: string, w: World, w': World, turn: Turn)
    requires turn.accepted && turn.decoded && turn.got.Some? && turn.got == w.stored && !turn.got.value.deleting
    requires turn.requeueAfter > 0
    // what history keeps
    requires w'.name == w.name && w'.dynamic == w.dynamic && w'.trace == w.trace + turn.t
    requires w.uids <= w'.uids && w.disturbances <= w'.disturbances && w.touched <= w'.touched
    requires w'.failures >= w.failures + if turn.readable then 0 else 1
    requires forall k :: k in w.specs ==> k in w'.specs && w'.specs[k] == w.specs[k]
    requires |w.gets| <= |w'.gets| && w.gets == w'.gets[..|w.gets|]
    // the pass
    requires PassPut(w, w', turn.verdict)
    requires turn.verdict == None ==> turn.t == [] && !Held(turn.got) && w.faults < w'.faults && w'.secrets == w.secrets
    requires turn.verdict.Some? ==> PassOver(turn.verdict.value, turn.got.value, turn.t) && Held(w'.stored)
    requires turn.verdict.Some? ==> turn.requeueAfter == turn.verdict.value.outcome.requeueAfter
    requires turn.verdict.Some? ==>
               StatusUnchanged(turn.got.value, turn.verdict.value.outcome) || w'.statusWrites == w.statusWrites + 1
               || w.faults < w'.faults
    // what is recorded
    requires FixedTarget(w.name, w'.specs, target) ==> own == target
    requires turn.readable && w'.touched[own] == w.touched[own] ==>
               Accounted(RecordedIds(w.secrets, own), RecordedIds(w'.secrets, own), turn.t)
    // the status
    requires ObservedGrows(w.stored, w.uids, w'.stored)
    requires w'.statusWrites == w.statusWrites ==> StatusKept(w.stored, w.uids, w'.stored)
    requires w'.statusWrites != w.statusWrites ==>
               w'.stored.Some? && TimedSomehow(turn.got.value.status, w'.stored.value.status)
    requires w'.statusWrites != w.statusWrites ==>
               turn.verdict.Some? && w'.stored.Some?
               && Says(w'.stored.value.status, turn.verdict.value.outcome, turn.got.value.generation)
    requires Writing(turn.verdict, w.writes, w'.writes)
    requires w'.disturbances == w.disturbances ==>
               w'.stored.Some?
               && QuietPass(turn.got.value, w'.stored.value, OutcomeIn(turn.verdict),
                            w'.finalizerWrites - w.finalizerWrites, w'.statusWrites - w.statusWrites)
    ensures HandledAs(target, w, w', turn)
  {
    hide Keeping, Writing, QuietPass, ObservedGrows, StatusUnchanged, Says, LeaseFinalizer, FixedTarget, Accounted,
         RecordedIds, TimedSomehow;
    SameStatusObserved(w.stored, w.uids, turn.got);
    LiveKeeps(target, own, w, w', turn);
  }

  /** The pass is on record in journal and verdicts. */
  ghost predicate PassPut(w: World, w': World, verdict: Option<Verdict>) {
    match verdict
    case None => w'.journal == w.journal && w'.verdicts == w.verdicts
    case Some(v) => w'.journal == w.journal + [Entry(true, |w.trace|, v)] && w'.verdicts == w.verdicts + {v}
  }

  lemma {:induction false} NoPassPut(w: World, w': World)
    requires w'.journal == w.journal && w'.verdicts == w.verdicts && w'.writes == w.writes
    ensures PassPut(w, w', None) && Writing(None, w.writes, w'.writes)
  {
  }

  lemma {:induction false} PassPutOn(w: World, mid: World, w': World, v: Verdict)
    requires PassPut(mid, w', Some(v)) && mid.journal == w.journal && mid.verdicts == w.verdicts && mid.trace == w.trace
    ensures PassPut(w, w', Some(v))
  {
  }

  lemma {:induction false} OnePassPut(w: World, w': World, v: Verdict)
    requires w'.journal == w.journal + [Entry(true, |w.trace|, v)] && w'.verdicts == w.verdicts + {v}
    ensures PassPut(w, w', Some(v))
  {
  }

  /** The pass was over this object, and this was said in it. */
  predicate PassOver(v: Verdict, o: Object, t: seq<Event>) {
    v.attempt.p.t == t && v.generation == o.generation
  }

  /** Letting a deleted object go keeps what is recorded, and revokes it first. */
  lemma {:induction false} DeletedKeeps(target: string, own: string, w: World, w': World, turn: Turn)
    requires w'.trace == w.trace + turn.t && Spared(w.touched, w.secrets, w'.touched, w'.secrets)
    requires FixedTarget(w.name, w'.specs, target) ==> own == target
    requires Held(w.stored) && !Held(w'.stored) && w.dynamic ==> AllRevoked(turn.read, turn.t)
    requires turn.readable && w.dynamic && w'.touched[own] == w.touched[own] ==>
               turn.read == RecordedIds(w'.secrets, own)
    ensures Keeping(target, w, w', turn)
  {
    hide FixedTarget, AllRevoked, RecordedIds, Accounted, LeaseFinalizer, Spared;
    OnlyRead(target, w.touched, w.secrets, [], w'.touched, w'.secrets);
    KeptIsAccounted(RecordedIds(w.secrets, target), turn.t);
    AllRevokedGrows(RecordedIds(w.secrets, target), w.trace, turn.t);
    AllRevokedGrows(turn.read, w.trace, turn.t);
  }

  lemma {:induction false} RunBegins(target: string, w: World)
    ensures WorldRun(target, [w], [])
  {
  }

  /** An item out of scope is dropped. */
  lemma {:induction false} NoTurn(target: string, w: World, turn: Turn)
    requires turn == Turn(false, None, true, [], true, map[], None, 0)
    ensures TurnStep(target, w, w, turn)
  {
    hide RecordedIds, Accounted, FixedTarget, AllRevoked, ObservedGrows, StatusKept, QuietPass, LeaseFinalizer;
    NothingHappens(w.stored, w.uids, RecordedIds(w.secrets, target), w.trace);
  }

  /** What the API server may have done while it was asked for the object. */
  ghost predicate Meanwhile(w: World, w': World, clock: nat) {
    w' == w.(stored := w'.stored, uids := w'.uids, specs := w'.specs, disturbances := w'.disturbances, gets := w'.gets,
             undecoded := w'.undecoded)
    && Rely(w.stored, w'.stored, clock, w.uids) && w.uids <= w'.uids && w.disturbances <= w'.disturbances
    && w.undecoded <= w'.undecoded
    && (forall k :: k in w.specs ==> k in w'.specs && w'.specs[k] == w.specs[k])
    && |w'.gets| == |w.gets| + 1 && w.gets == w'.gets[..|w.gets|]
    && (w'.disturbances == w.disturbances ==> w'.stored == w.stored)
  }

  /** The object could not be read, or not be decoded. */
  lemma {:induction false} IdleTurn(target: string, w: World, w': World, turn: Turn, clock: nat)
    requires Meanwhile(w, w', clock) && turn.accepted && turn.got == w'.gets[|w.gets|]
    requires turn == Turn(true, turn.got, turn.decoded, [], true, map[], None, turn.requeueAfter)
    requires if turn.decoded then turn.got == None else w.undecoded < w'.undecoded && turn.requeueAfter != 0
    ensures TurnStep(target, w, w', turn)
  {
    hide RecordedIds, Accounted, FixedTarget, AllRevoked, ObservedGrows, StatusKept, QuietPass, LeaseFinalizer, Rely;
    var ids := RecordedIds(w.secrets, target);
    NothingHappens(w.stored, w.uids, ids, w.trace);
    RelyObserved(w.stored, w'.stored, clock, w.uids);
    AllRevokedGrows(ids, w.trace, []);
  }

  /** The object was read, and then seen to. */
  lemma {:induction false} HandledTurn(target: string, w: World, mid: World, w': World, turn: Turn, clock: nat)
    requires Meanwhile(w, mid, clock) && turn.got == mid.gets[|w.gets|] && HandledAs(target, mid, w', turn)
    ensures TurnStep(target, w, w', turn)
  {
    hide RecordedIds, Accounted, FixedTarget, AllRevoked, ObservedGrows, StatusKept, TimedSomehow, QuietPass,
         LeaseFinalizer, Rely, Proper,
         StatusUnchanged, Says, RevokingBroke, NoLeaseRequests;
    RelyObserved(w.stored, mid.stored, clock, w.uids);
    ObservedTransitive(w.stored, w.uids, mid.stored, mid.uids, w'.stored);
    if w'.statusWrites == w.statusWrites {
      KeptTransitive(w.stored, w.uids, mid.stored, mid.uids, w'.stored);
    }
    assert w'.gets[|w.gets|] == mid.gets[|w.gets|];
    assert w.gets == w'.gets[..|w.gets|];
  }

  lemma {:induction false} RunContinues(target: string, worlds: seq<World>, turns: seq<Turn>, w: World, turn: Turn)
    requires WorldRun(target, worlds, turns) && TurnStep(target, worlds[|turns|], w, turn)
    ensures WorldRun(target, worlds + [w], turns + [turn])
  {
    hide TurnStep;
    forall n | 0 <= n < |turns + [turn]|
      ensures TurnStep(target, (worlds + [w])[n], (worlds + [w])[n + 1], (turns + [turn])[n])
    {
      if n < |turns| {
        assert TurnStep(target, worlds[n], worlds[n + 1], turns[n]);
      }
    }
  }

  // ---- what follows for every run ----

  function SaidIn(turns: seq<Turn>): seq<Event> {
    if turns == [] then [] else SaidIn(turns[..|turns| - 1]) + turns[|turns| - 1].t
  }

  /** What a run has said, and that history has only grown. */
  lemma {:induction false} RunChronicle(target: string, worlds: seq<World>, turns: seq<Turn>, n: nat)
    requires WorldRun(target, worlds, turns) && n <= |turns|
    ensures var w, w' := worlds[0], worlds[n];
            w'.name == w.name && w'.dynamic == w.dynamic && w'.trace == w.trace + SaidIn(turns[..n])
            && w.uids <= w'.uids && w.disturbances <= w'.disturbances && w.touched <= w'.touched
            && forall k :: k in w.specs ==> k in w'.specs && w'.specs[k] == w.specs[k]
  {
    hide Reading, Recording, Heeding, Telling, Keeping, Quieting, Writing;
    if n > 0 {
      RunChronicle(target, worlds, turns, n - 1);
      assert TurnStep(target, worlds[n - 1], worlds[n - 1 + 1], turns[n - 1]);
      assert turns[..n][..n - 1] == turns[..n - 1];
    }
  }

  /** Every lease request is sent in a pass on record that began with the finalizer on, and
      the new verdicts are those of such passes; every write of a Secret is one of theirs. */
  lemma {:induction false} RunRecords(target: string, worlds: seq<World>, turns: seq<Turn>, n: nat)
    returns (entries: seq<Entry>, writes: seq<Write>)
    requires WorldRun(target, worlds, turns) && n <= |turns|
    ensures worlds[n].journal == worlds[0].journal + entries
    ensures worlds[n].verdicts == worlds[0].verdicts + VerdictsOf(entries)
    ensures Covers(entries, worlds[n].trace, |worlds[0].trace|)
    ensures worlds[n].writes == worlds[0].writes + writes && WritesOnRecord(entries, writes)
  {
    hide Reading, Heeding, Telling, Keeping, Quieting, Covers, VerdictsOf, NoLeaseRequests, WritesOnRecord, Proper;
    if n == 0 {
      NothingOnRecord(worlds[0].trace);
      entries, writes := [], [];
    } else {
      entries, writes := RunRecords(target, worlds, turns, n - 1);
      var w, w', turn := worlds[n - 1], worlds[n - 1 + 1], turns[n - 1];
      assert TurnStep(target, w, w', turn);
      var more := w'.writes[|w.writes|..];
      match turn.verdict
      case None =>
        CoversOn(entries, w.trace, |worlds[0].trace|, turn.t);
      case Some(v) =>
        CoversMore(entries, w.trace, |worlds[0].trace|, v);
        WritesGrow(entries, Entry(true, |w.trace|, v), writes, more);
        entries, writes := entries + [Entry(true, |w.trace|, v)], writes + more;
    }
  }

  lemma {:induction false} NothingOnRecord(trace: seq<Event>)
    ensures Covers([], trace, |trace|) && VerdictsOf([]) == {} && WritesOnRecord([], [])
  {
  }

  /** The generation that the status reports only grows. */
  lemma {:induction false} RunTells(target: string, worlds: seq<World>, turns: seq<Turn>, n: nat)
    requires WorldRun(target, worlds, turns) && n <= |turns|
    ensures ObservedGrows(worlds[0].stored, worlds[0].uids, worlds[n].stored)
  {
    hide Reading, Recording, Heeding, Keeping, Quieting, Writing;
    if n > 0 {
      RunTells(target, worlds, turns, n - 1);
      RunChronicle(target, worlds, turns, n - 1);
      var w, w' := worlds[n - 1], worlds[n - 1 + 1];
      assert TurnStep(target, w, w', turns[n - 1]);
      ObservedTransitive(worlds[0].stored, worlds[0].uids, w.stored, w.uids, w'.stored);
    }
  }

  /** While the object that is there stays and its Ready condition says the same, the time of
      its last transition stays, however often the status is written: it moves only in a turn
      that flips Ready, or finds no such condition. */
  lemma {:induction false} TransitionStays(target: string, w: World, w': World, turn: Turn)
    requires TurnStep(target, w, w', turn)
    requires w.stored.Some? && w'.stored.Some? && w'.stored.value.uid < w.uids
    requires ReadyCondition(w.stored.value.status.conditions).Some?
             && ReadyCondition(w'.stored.value.status.conditions).Some?
    requires ReadyCondition(w.stored.value.status.conditions).value.ready
             == ReadyCondition(w'.stored.value.status.conditions).value.ready
    requires turn.got.Some? ==> turn.got.value.uid == w'.stored.value.uid
    ensures Since(w') == Since(w)
    ensures !ReadyCondition(w'.stored.value.status.conditions).value.ready ==>
              w'.stored.value.status.lastSync == w.stored.value.status.lastSync
  {
    hide Reading, Chronicle, Recording, Heeding, Keeping, Quieting, Writing, ObservedGrows;
    if w'.statusWrites != w.statusWrites {
      var now :| Timed(turn.got.value.status, w'.stored.value.status, now);
      OneCondition(w'.stored.value.status.conditions);
    }
  }

  lemma {:induction false} OneCondition(conditions: seq<Condition>)
    requires |conditions| == 1 && ReadyCondition(conditions).Some?
    ensures ReadyCondition(conditions) == Some(conditions[0])
  {
  }

  /** Over a whole run: as long as Ready does not flip the time does not move. */
  lemma {:induction false} RunTransition(target: string, worlds: seq<World>, turns: seq<Turn>, n: nat, uid: nat,
                                         ready: bool)
    requires WorldRun(target, worlds, turns) && n <= |turns|
    requires uid < worlds[0].uids
    requires forall i :: 0 <= i <= n ==> Shows(worlds[i], uid, ready)
    requires forall i :: 0 <= i < n && turns[i].got.Some? ==> turns[i].got.value.uid == uid
    ensures Since(worlds[n]) == Since(worlds[0])
  {
    hide TurnStep, ReadyCondition;
    if n > 0 {
      RunTransition(target, worlds, turns, n - 1, uid, ready);
      RunChronicle(target, worlds, turns, n - 1);
      assert TurnStep(target, worlds[n - 1], worlds[n - 1 + 1], turns[n - 1]);
      assert Shows(worlds[n - 1], uid, ready) && Shows(worlds[n], uid, ready);
      TransitionStays(target, worlds[n - 1], worlds[n], turns[n - 1]);
    }
  }

  /** Since when its Ready condition says what it says. */
  function Since(w: World): Option<Instant> {
    if w.stored == None then None
    else match ReadyCondition(w.stored.value.status.conditions)
      case None => None
      case Some(c) => Some(c.transition)
  }

  /** This object is there, and its Ready condition says this. */
  ghost predicate Shows(w: World, uid: nat, ready: bool) {
    w.stored.Some? && w.stored.value.uid == uid
    && ReadyCondition(w.stored.value.status.conditions).Some?
    && ReadyCondition(w.stored.value.status.conditions).value.ready == ready
  }

  /** While every read of the annotation works and nobody else touches what is recorded for
      the target that all specs name, the turns make a ledger run: no recorded id is lost, and
      nothing is left to revoke whenever the finalizer is off. */
  lemma {:induction false} RunKeeps(target: string, worlds: seq<World>, turns: seq<Turn>, n: nat)
    returns (ledgers: seq<Ledger>)
    requires WorldRun(target, worlds, turns) && n <= |turns|
    requires forall i :: 0 <= i < n ==> turns[i].readable
    requires worlds[n].touched[target] == worlds[0].touched[target]
    requires FixedTarget(worlds[0].name, worlds[n].specs, target)
    ensures var before, after := RecordedIds(worlds[0].secrets, target), RecordedIds(worlds[n].secrets, target);
            LeaseAccount(ledgers, before, after, SaidIn(turns[..n])) && Accounted(before, after, SaidIn(turns[..n]))
            && (worlds[0].dynamic && Protected(worlds[0].stored, before, worlds[0].trace) ==>
                  Protected(worlds[n].stored, after, worlds[n].trace))
  {
    hide Reading, Recording, Heeding, Telling, Quieting, Writing, LeaseAccount, Accounted, Protected, RecordedIds,
         FixedTarget;
    var before := RecordedIds(worlds[0].secrets, target);
    if n == 0 {
      AccountStarts(before);
      ledgers := [Ledger(before, [])];
    } else {
      var w, w', turn := worlds[n - 1], worlds[n - 1 + 1], turns[n - 1];
      assert TurnStep(target, w, w', turn);
      RunChronicle(target, worlds, turns, n - 1);
      FixedBefore(w.name, w.specs, w'.specs, target);
      ledgers := RunKeeps(target, worlds, turns, n - 1);
      assert turns[..n][..n - 1] == turns[..n - 1];
      var mid, after, said := RecordedIds(w.secrets, target), RecordedIds(w'.secrets, target), SaidIn(turns[..n - 1]);
      AccountGrows(ledgers, before, mid, said, after, turn.t);
      ledgers := ledgers + [Ledger(after, said + turn.t)];
    }
    RunIsAccounted(ledgers, before, RecordedIds(worlds[n].secrets, target), SaidIn(turns[..n]));
  }

  /** While nobody touches a live object, the turns make a quiet run: with the platform
      answering the same all the time, at most one write of each kind takes effect. */
  lemma {:induction false} RunQuiets(target: string, worlds: seq<World>, turns: seq<Turn>, n: nat, answer: Answer)
    returns (objects: seq<Object>, passes: seq<Pass>)
    requires WorldRun(target, worlds, turns) && n <= |turns|
    requires worlds[n].disturbances == worlds[0].disturbances
    requires worlds[0].stored.Some? && !worlds[0].stored.value.deleting
    ensures worlds[n].stored.Some? && !worlds[n].stored.value.deleting && |passes| == n
    ensures forall i :: 0 <= i < n ==> passes[i].outcome == OutcomeIn(turns[i].verdict)
    ensures QuietAccount(objects, passes, worlds[0].stored.value, worlds[n].stored.value,
                         worlds[n].finalizerWrites - worlds[0].finalizerWrites,
                         worlds[n].statusWrites - worlds[0].statusWrites)
    ensures FixedAnswer(worlds[0].name, answer, objects, passes) ==>
              worlds[n].finalizerWrites <= worlds[0].finalizerWrites + 1
              && worlds[n].statusWrites <= worlds[0].statusWrites + 1
  {
    hide Reading, Recording, Heeding, Telling, Keeping, Writing, QuietPass, QuietAccount, FixedAnswer, LeaseFinalizer;
    var first := worlds[0].stored.value;
    if n == 0 {
      QuietStarts(first);
      objects, passes := [first], [];
    } else {
      var w, w', turn := worlds[n - 1], worlds[n - 1 + 1], turns[n - 1];
      assert TurnStep(target, w, w', turn);
      RunChronicle(target, worlds, turns, n - 1);
      objects, passes := RunQuiets(target, worlds, turns, n - 1, answer);
      var p := Pass(OutcomeIn(turn.verdict), w'.finalizerWrites - w.finalizerWrites, w'.statusWrites - w.statusWrites);
      QuietContinues(objects, passes, first, w.stored.value, w'.stored.value,
                     w.finalizerWrites - worlds[0].finalizerWrites, w.statusWrites - worlds[0].statusWrites, p);
      objects, passes := objects + [w'.stored.value], passes + [p];
    }
    QuietEnough(worlds[0].name, answer, objects, passes, first, worlds[n].stored.value,
                worlds[n].finalizerWrites - worlds[0].finalizerWrites, worlds[n].statusWrites - worlds[0].statusWrites);
  }
}
