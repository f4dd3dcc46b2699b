/** One KrypticSecret resource, behind an API server that users write to as well. */
module Resources {
  import opened Text
  import opened Reconcile

  function LeaseFinalizer(): string { "kryptic.dev/dynamic-leases" }

  function ReadyType(): string { "Ready" }

  type Instant = int

  datatype Condition = Condition(
    kind: string, ready: bool, reason: string, message: string, transition: Instant, observedGeneration: int)

  datatype Status = Status(
    observedGeneration: int, syncedKeyCount: int, conditions: seq<Condition>, lastSync: Option<Instant>)

  function NoStatus(): Status { Status(0, 0, [], None) }

  datatype Object = Object(
    uid: nat, version: nat, generation: nat, spec: Spec, finalizers: seq<string>, deleting: bool, status: Status)

  /** The operator's finalizer is on the stored object. */
  predicate Held(o: Option<Object>) { o.Some? && LeaseFinalizer() in o.value.finalizers }

  /** The outcome of a pass over this generation of this object. */
  datatype Verdict = Verdict(uid: nat, generation: nat, attempt: Attempt, outcome: Outcome)

  /** The pass was for this object, and came to this outcome. */
  ghost predicate Grounded(name: string, v: Verdict) {
    v.attempt.cr.name == name && v.attempt.cr.uid == v.uid && Reached(v.attempt, v.outcome)
  }

  /** The status reports the outcome. */
  predicate Says(status: Status, outcome: Outcome, generation: int) {
    status.observedGeneration == generation && status.syncedKeyCount == outcome.syncedKeys
    && |status.conditions| == 1
    && status.conditions[0].kind == ReadyType() && status.conditions[0].ready == outcome.ready
    && status.conditions[0].reason == outcome.reason && status.conditions[0].message == outcome.message
    && status.conditions[0].observedGeneration == generation
  }

  /** A status is empty, or the outcome of some generation not after the given one,
      reached by a pass over the spec that generation really had. */
  ghost predicate Honest(uid: nat, generation: nat, status: Status, specs: map<(nat, nat), Spec>,
                         verdicts: set<Verdict>) {
    status == NoStatus() || exists v :: v in verdicts && Backs(v, uid, generation, status, specs)
  }

  ghost predicate Backs(v: Verdict, uid: nat, generation: nat, status: Status, specs: map<(nat, nat), Spec>) {
    v.uid == uid && v.generation <= generation
    && (uid, v.generation) in specs && specs[(uid, v.generation)] == v.attempt.cr.spec
    && Says(status, v.outcome, v.generation)
  }

  lemma {:induction false} EmptyIsHonest(uid: nat, generation: nat, specs: map<(nat, nat), Spec>,
                                         verdicts: set<Verdict>)
    ensures Honest(uid, generation, NoStatus(), specs, verdicts)
  {
  }

  /** Honest stays honest, for a later generation too. */
  lemma {:induction false} HonestLater(uid: nat, generation: nat, status: Status, specs: map<(nat, nat), Spec>,
                                       verdicts: set<Verdict>, generation': nat, specs': map<(nat, nat), Spec>)
    requires Honest(uid, generation, status, specs, verdicts) && generation <= generation'
    requires forall k :: k in specs ==> k in specs' && specs'[k] == specs[k]
    ensures Honest(uid, generation', status, specs', verdicts)
  {
    hide Says;
    if status != NoStatus() {
      var v :| v in verdicts && Backs(v, uid, generation, status, specs);
      assert Backs(v, uid, generation', status, specs');
    }
  }

  /** What users may do to the object between two requests of the operator: anything,
      except that nobody else writes its status, and nobody else takes the operator's
      finalizer off - which is what keeps a held object in existence. `clock` and `uids`
      bound the versions and the uids handed out before. */
  ghost predicate Rely(before: Option<Object>, after: Option<Object>, clock: nat, uids: nat) {
    (before.Some? && after.Some? && after.value.uid == before.value.uid ==>
       var x, y := before.value, after.value;
       (y == x || y.version > clock)
       && y.generation >= x.generation && (y.generation == x.generation ==> y.spec == x.spec)
       && y.status == x.status && (x.deleting ==> y.deleting))
    && (Held(before) ==> Held(after) && after.value.uid == before.value.uid)
    && (after.Some? && (before == None || after.value.uid != before.value.uid) ==>
          after.value.uid >= uids && after.value.status == NoStatus() && after.value.version > clock)
  }

  lemma {:induction false} RelyTransitive(a: Option<Object>, b: Option<Object>, c: Option<Object>,
                                          clock: nat, uids: nat, clock': nat, uids': nat)
    requires Rely(a, b, clock, uids) && Rely(b, c, clock', uids') && clock <= clock' && uids <= uids'
    requires a.Some? ==> a.value.uid < uids
    ensures Rely(a, c, clock, uids)
  {
    hide LeaseFinalizer;
  }

  lemma {:induction false} RelyReflexive(a: Option<Object>, clock: nat, uids: nat)
    ensures Rely(a, a, clock, uids)
  {
  }

  /** What one action of a user is, and what it makes of the object: create, edit the spec,
      set the finalizers, delete. */
  datatype Choice = Create(spec: Spec, fs: seq<string>) | Edit(spec: Spec) | Finalizers(fs: seq<string>) | Delete

  function Acted(o: Option<Object>, choice: Choice, version: nat, uid: nat): Option<Object> {
    match (o, choice)
    case (None, Create(spec, fs)) => Some(Object(uid, version, 1, spec, fs, false, NoStatus()))
    case (None, _) => None
    case (Some(x), Create(_, _)) => o
    case (Some(x), Edit(spec)) => Some(x.(version := version, generation := x.generation + 1, spec := spec))
    case (Some(x), Finalizers(fs)) =>
      if LeaseFinalizer() in x.finalizers && LeaseFinalizer() !in fs then o
      else if x.deleting && fs == [] then None
      else Some(x.(version := version, finalizers := fs))
    case (Some(x), Delete) =>
      if x.finalizers == [] then None
      else Some(x.(version := version, generation := x.generation + 1, deleting := true))
  }

  lemma {:induction false} ActedFacts(o: Option<Object>, choice: Choice, version: nat, uid: nat)
    requires version > 0 && (o.Some? ==> o.value.version < version)
    ensures var next := Acted(o, choice, version, uid);
            Rely(o, next, version - 1, uid)
            && (o == None && next.Some? ==> next.value.uid == uid && next.value.status == NoStatus())
            && (next.Some? ==> next.value.version <= version)
            && (o.Some? && next.Some? ==>
                  next.value.uid == o.value.uid && next.value.status == o.value.status
                  && (next.value.generation == o.value.generation + 1
                      || (next.value.generation == o.value.generation && next.value.spec == o.value.spec)))
  {
    hide LeaseFinalizer;
  }

  /** A held object stays the object it is. */
  lemma {:induction false} HeldStays(a: Option<Object>, b: Option<Object>, clock: nat, uids: nat)
    requires Rely(a, b, clock, uids) && Held(a)
    ensures Held(b) && b.value.uid == a.value.uid && b.value.status == a.value.status
    ensures b.value.generation >= a.value.generation && (b.value == a.value || b.value.version > clock)
    ensures b.value.generation == a.value.generation ==> b.value.spec == a.value.spec
  {
    hide LeaseFinalizer;
  }

  /** An object still at the version that was read is the object that was read. */
  lemma {:induction false} Unmoved(before: Option<Object>, after: Option<Object>, clock: nat, uids: nat, was: Object)
    requires Rely(before, after, clock, uids) && before.Some? && before.value.uid == was.uid
    requires before.value == was || before.value.version > was.version
    requires before.value.version <= clock
    requires after.Some? && after.value.uid == was.uid && after.value.version == was.version
    ensures before == Some(was) && after == Some(was)
  {
    hide LeaseFinalizer;
  }

  datatype Fault = NotFound | Conflict | Trouble

  class Api {
    const name: string
    var stored: Option<Object>
    var clock: nat
    var uids: nat
    ghost var specs: map<(nat, nat), Spec>
    ghost var verdicts: set<Verdict>
    ghost var disturbances: nat
    /** The operator's writes that took effect. */
    ghost var finalizerWrites: nat
    ghost var statusWrites: nat
    /** What the operator was told of the object, in order; None when the request failed. */
    ghost var gets: seq<Option<Object>>
    /** How many of these it could not decode. */
    ghost var undecoded: nat
    /** How many writes of the operator it was told had failed. */
    ghost var faults: nat

    /** The books are in order, every verdict is that of a pass, and the stored status is
        honest. */
    ghost predicate Valid()
      reads this`specs, this`uids, this`verdicts, this`stored, this`clock
    {
      (forall k :: k in specs ==> k.0 < uids)
      && (forall v :: v in verdicts ==> Grounded(name, v))
      && (stored.Some? ==> Recorded(stored.value) && stored.value.version <= clock
                           && Honest(stored.value.uid, stored.value.generation, stored.value.status, specs, verdicts))
    }

    /** The object's generation is the latest of its uid, and its spec is on record. */
    ghost predicate Recorded(o: Object)
      reads this`specs
    {
      (o.uid, o.generation) in specs && specs[(o.uid, o.generation)] == o.spec
      && forall g: nat :: (o.uid, g) in specs ==> g <= o.generation
    }

    /** History only grows. */
    twostate predicate Extends()
      reads this
    {
      old(undecoded) <= undecoded && old(faults) <= faults
      && |old(gets)| <= |gets| && old(gets) == gets[..|old(gets)|] &&
      old(verdicts) <= verdicts && old(uids) <= uids && old(clock) <= clock && old(disturbances) <= disturbances
      && forall k :: k in old(specs) ==> k in specs && specs[k] == old(specs)[k]
    }

    constructor (name: string)
      ensures Valid() && stored == None && this.name == name
      ensures finalizerWrites == 0 && statusWrites == 0 && disturbances == 0
      ensures gets == [] && undecoded == 0 && faults == 0
    {
      this.name, stored, clock, uids := name, None, 0, 0;
      specs, verdicts := map[], {};
      disturbances, finalizerWrites, statusWrites := 0, 0, 0;
      gets, undecoded, faults := [], 0, 0;
    }

    /** One action of a user: create, edit the spec, change metadata, or delete. */
    method Act()
      requires Valid()
      modifies this
      ensures Valid() && Extends() && disturbances > old(disturbances)
      ensures Rely(old(stored), stored, old(clock), old(uids))
      ensures verdicts == old(verdicts) && finalizerWrites == old(finalizerWrites) && statusWrites == old(statusWrites)
      ensures gets == old(gets) && undecoded == old(undecoded) && faults == old(faults)
    {
      hide Grounded, Honest, Rely, Acted, Says;
      var choice: Choice := *;
      disturbances := disturbances + 1;
      clock := clock + 1;
      var next := Acted(stored, choice, clock, uids);
      ActedFacts(stored, choice, clock, uids);
      if next.Some? {
        var y := next.value;
        var generations := specs[(y.uid, y.generation) := y.spec];
        if stored.Some? {
          HonestLater(y.uid, stored.value.generation, y.status, specs, verdicts, y.generation, generations);
        } else {
          EmptyIsHonest(y.uid, y.generation, generations, verdicts);
        }
        specs := generations;
      }
      if stored == None {
        uids := uids + 1;
      }
      stored := next;
    }

    /** Any number of actions of users. */
    method Interfere()
      requires Valid()
      modifies this
      ensures Valid() && Extends()
      ensures Rely(old(stored), stored, old(clock), old(uids))
      ensures verdicts == old(verdicts) && finalizerWrites == old(finalizerWrites) && statusWrites == old(statusWrites)
      ensures gets == old(gets) && undecoded == old(undecoded) && faults == old(faults)
      ensures disturbances == old(disturbances) ==> stored == old(stored) && clock == old(clock)
    {
      hide Valid, Rely, LeaseFinalizer;
      var actions: int := *;
      RelyReflexive(stored, clock, uids);
      while actions > 0
        invariant Valid() && Extends()
        invariant Rely(old(stored), stored, old(clock), old(uids))
        invariant gets == old(gets) && undecoded == old(undecoded) && faults == old(faults)
        invariant verdicts == old(verdicts) && finalizerWrites == old(finalizerWrites)
                  && statusWrites == old(statusWrites)
        invariant disturbances == old(disturbances) ==> stored == old(stored) && clock == old(clock)
      {
        ghost var mid, clock', uids' := stored, clock, uids;
        Act();
        OldUid();
        RelyTransitive(old(stored), mid, stored, old(clock), old(uids), clock', uids');
        actions := actions - 1;
      }
    }

    twostate lemma OldUid()
      requires old(Valid())
      ensures old(stored).Some? ==> old(stored).value.uid < old(uids)
    {
    }

    /** The stored object, or an error of any kind. */
    method Get() returns (r: Option<Object>)
      requires Valid()
      modifies this
      ensures Valid() && Extends()
      ensures Rely(old(stored), stored, old(clock), old(uids))
      ensures verdicts == old(verdicts) && finalizerWrites == old(finalizerWrites) && statusWrites == old(statusWrites)
      ensures disturbances == old(disturbances) ==> stored == old(stored) && clock == old(clock)
      ensures r.Some? ==> stored == r
      ensures gets == old(gets) + [r] && undecoded == old(undecoded) && faults == old(faults)
    {
      Interfere();
      var fails: bool := *;
      r := if fails then None else stored;
      gets := gets + [r];
    }

    /** Whether the object, as read, is a resource at all. */
    method Decode(raw: Object) returns (ok: bool)
      requires Valid()
      modifies this`undecoded
      ensures Valid() && Extends() && undecoded == old(undecoded) + if ok then 0 else 1
    {
      ok := *;
      undecoded := undecoded + if ok then 0 else 1;
    }

    /** Writes the finalizers of the object as it was read, unless it has moved on. The
        last finalizer of a deleted object takes the object with it. The answer may get
        lost on the way back. */
    method Update(was: Object, finalizers: seq<string>) returns (fault: Option<Fault>)
      requires Valid() && stored == Some(was)
      modifies this
      ensures Valid() && Extends() && verdicts == old(verdicts) && statusWrites == old(statusWrites)
      ensures fault == None ==> finalizerWrites == old(finalizerWrites) + 1
      ensures faults == old(faults) + (if fault == None then 0 else 1)
      ensures gets == old(gets) && undecoded == old(undecoded)
      ensures finalizerWrites == old(finalizerWrites) ==> Rely(Some(was), stored, old(clock), old(uids))
      ensures finalizerWrites == old(finalizerWrites) && disturbances == old(disturbances) ==> stored == old(stored)
      ensures finalizerWrites != old(finalizerWrites) ==>
                finalizerWrites == old(finalizerWrites) + 1 && was.version < clock
                && stored == if was.deleting && finalizers == [] then None
                             else Some(was.(finalizers := finalizers, version := clock))
    {
      hide Valid, Honest, Rely, LeaseFinalizer;
      ghost var before, clock', uids' := stored, clock, uids;
      Bounds();
      Interfere();
      fault := Refusal(was);
      if fault == None {
        Unmoved(before, stored, clock', uids', was);
        Bounds();
        Place(if was.deleting && finalizers == [] then None
              else Some(was.(finalizers := finalizers, version := clock + 1)));
        finalizerWrites := finalizerWrites + 1;
        fault := Loss();
      }
      faults := faults + if fault == None then 0 else 1;
    }

    /** Stores the object with other finalizers or another status, under the next version. */
    method Place(next: Option<Object>)
      requires Valid() && stored.Some?
      requires next.Some? ==>
                 var x, y := stored.value, next.value;
                 y == x.(finalizers := y.finalizers, status := y.status, version := clock + 1)
                 && Honest(y.uid, y.generation, y.status, specs, verdicts)
      modifies this`clock, this`stored
      ensures Valid() && stored == next && clock == old(clock) + 1
    {
      hide Grounded, Honest;
      clock := clock + 1;
      stored := next;
    }

    lemma {:induction false} Bounds()
      requires Valid() && stored.Some?
      ensures stored.value.version <= clock
      ensures Honest(stored.value.uid, stored.value.generation, stored.value.status, specs, verdicts)
    {
      hide Grounded, Honest;
    }

    /** A write over a version is refused if the object is gone or has moved on, and may
        fail in any case. */
    method Refusal(was: Object) returns (fault: Option<Fault>)
      ensures fault == None ==> stored.Some? && stored.value.uid == was.uid && stored.value.version == was.version
      ensures fault == Some(Conflict) ==> stored.Some?
    {
      var fails: bool := *;
      if stored == None {
        return Some(NotFound);
      }
      if stored.value.uid != was.uid || stored.value.version != was.version {
        return Some(Conflict);
      }
      return if fails then Some(Trouble) else None;
    }

    /** The answer to a write that took effect may get lost. */
    method Loss() returns (fault: Option<Fault>)
      ensures fault == None || fault == Some(Trouble)
    {
      var lost: bool := *;
      return if lost then Some(Trouble) else None;
    }

    /** Writes the status over the version it was prepared for. */
    method UpdateStatus(was: Object, status: Status) returns (fault: Option<Fault>, version: nat)
      requires Valid() && stored.Some? && stored.value.uid == was.uid
      requires stored.value == was || stored.value.version > was.version
      requires Honest(was.uid, was.generation, status, specs, verdicts)
      modifies this
      ensures Valid() && Extends() && verdicts == old(verdicts) && finalizerWrites == old(finalizerWrites)
      ensures fault == None ==> statusWrites == old(statusWrites) + 1 && old(clock) < version == clock
      ensures faults == old(faults) + (if fault == None then 0 else 1)
      ensures gets == old(gets) && undecoded == old(undecoded)
      ensures fault == Some(Conflict) ==> statusWrites == old(statusWrites)
      ensures statusWrites == old(statusWrites) ==> Rely(old(stored), stored, old(clock), old(uids))
      ensures statusWrites == old(statusWrites) && disturbances == old(disturbances) ==> stored == old(stored)
      ensures statusWrites != old(statusWrites) ==>
                statusWrites == old(statusWrites) + 1 && old(stored) == Some(was)
                && stored == Some(was.(status := status, version := clock))
    {
      hide Valid, Honest, Rely;
      version := 0;
      Bounds();
      ghost var known, before, clock', uids' := specs, stored, clock, uids;
      Interfere();
      HonestLater(was.uid, was.generation, status, known, verdicts, was.generation, specs);
      fault := Refusal(was);
      if fault == None {
        Unmoved(before, stored, clock', uids', was);
        Place(Some(was.(status := status, version := clock + 1)));
        statusWrites := statusWrites + 1;
        version := clock;
        fault := Loss();
      }
      faults := faults + if fault == None then 0 else 1;
    }

    /** Records what a pass over an object, as read, came to. */
    ghost method Judge(v: Verdict)
      requires Valid() && Grounded(name, v)
      modifies this`verdicts
      ensures Valid() && Extends() && verdicts == old(verdicts) + {v}
    {
      hide Grounded;
      verdicts := verdicts + {v};
    }
  }
}
