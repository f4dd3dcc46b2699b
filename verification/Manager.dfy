/** The worker's side of the controller: one pass over one queued item. */
module Manager {
  import opened Text
  import opened Platform
  import opened Wire
  import opened Leases
  import opened Sync
  import opened Secrets
  import opened Reconcile
  import opened Resources
  import opened Status
  import opened Runs
  import Echo

  type Item = Echo.Item

  class Manager {
    const api: Api
    const reconciler: Reconciler
    const namespace: string
    const item: Item
    var lastStatusWrite: map<Item, nat>
    var statusWriteInFlight: set<Item>
    /** Every pass that was run, in order. */
    ghost var journal: seq<Entry>
    /** Every step of worker and watch, as steps of the machine in `Echo`. */
    ghost var echo: Echo.Log

    constructor (api: Api, reconciler: Reconciler, namespace: string, item: Item)
      ensures this.api == api && this.reconciler == reconciler && this.namespace == namespace && this.item == item
      ensures lastStatusWrite == map[] && statusWriteInFlight == {} && journal == []
      ensures Echoes() && Worker() == Echo.Idle && echo.actions == []
    {
      this.api, this.reconciler, this.namespace, this.item := api, reconciler, namespace, item;
      lastStatusWrite, statusWriteInFlight, journal := map[], {}, [];
      echo := Echo.Log([Echo.Initial(api.clock)], []);
    }

    /** Whether a namespace is watched; the empty scope is every namespace. */
    predicate Accepts(ns: string) { namespace == "" || namespace == ns }

    // ---- the memory shared with the watch, each method under the mutex ----

    ghost function Memory(): Echo.Memory
      reads this
    {
      Echo.Memory(lastStatusWrite, statusWriteInFlight)
    }

    ghost function Worker(): Echo.Worker
      reads this`echo
    {
      Echo.Last(echo).worker
    }

    /** The log is a run of `Echo`, and has come to the memory as it is. */
    ghost predicate Echoes()
      reads this`echo, this`lastStatusWrite, this`statusWriteInFlight, api`clock
    {
      Echo.Tracks(namespace, echo, Echo.Memory(lastStatusWrite, statusWriteInFlight), api.clock)
    }

    method RememberStatusWrite(i: Item, version: nat)
      requires Echoes() && Worker() == Echo.Written(i, version)
      modifies this`lastStatusWrite, this`echo
      ensures Echoes() && Worker() == Echo.Closing(i) && echo.actions == old(echo.actions) + [Echo.Record]
      ensures Memory() == Echo.Remembered(old(Memory()), i, version)
    {
      lastStatusWrite := lastStatusWrite[i := version];
      Echo.NotedIsRun(echo, namespace, Echo.Record);
      echo := Echo.Noted(echo, namespace, Echo.Record);
    }

    method MarkStatusWriteInFlight(i: Item)
      requires Echoes() && Worker() == Echo.Idle
      modifies this`statusWriteInFlight, this`echo
      ensures Echoes() && Worker() == Echo.Writing(i) && echo.actions == old(echo.actions) + [Echo.Mark(i)]
      ensures Memory() == Echo.Marked(old(Memory()), i)
    {
      statusWriteInFlight := statusWriteInFlight + {i};
      Echo.NotedIsRun(echo, namespace, Echo.Mark(i));
      echo := Echo.Noted(echo, namespace, Echo.Mark(i));
    }

    method ClearStatusWriteInFlight(i: Item)
      requires Echoes() && Worker() == Echo.Closing(i)
      modifies this`statusWriteInFlight, this`echo
      ensures Echoes() && Worker() == Echo.Idle && echo.actions == old(echo.actions) + [Echo.Clear]
      ensures Memory() == Echo.Cleared(old(Memory()), i)
    {
      statusWriteInFlight := statusWriteInFlight - {i};
      Echo.NotedIsRun(echo, namespace, Echo.Clear);
      echo := Echo.Noted(echo, namespace, Echo.Clear);
    }

    /** Notes what the API server answered to a status write begun at this clock. */
    ghost method Note(a: Echo.Action, clock: nat)
      requires Echo.Tracks(namespace, echo, Memory(), clock) && clock <= api.clock && Worker().Writing?
      requires match a
               case WriteAccepted(v) => clock < v <= api.clock
               case WriteConflict => true
               case WriteFailed => true
               case _ => false
      modifies this`echo
      ensures Echoes() && echo.actions == old(echo.actions) + [a]
      ensures Worker() == match a
                          case WriteAccepted(v) => Echo.Written(old(Worker()).item, v)
                          case WriteConflict => old(Worker())
                          case _ => Echo.Closing(old(Worker()).item)
    {
      Echo.NotedIsRun(echo, namespace, a);
      echo := Echo.Noted(echo, namespace, a);
    }

    method ForgetStatusWrite(i: Item)
      modifies this`lastStatusWrite, this`statusWriteInFlight
      ensures Memory() == Echo.Forgotten(old(Memory()), i)
    {
      lastStatusWrite := lastStatusWrite - {i};
      statusWriteInFlight := statusWriteInFlight - {i};
    }

    method IsOwnStatusWrite(i: Item, version: Option<nat>) returns (own: bool)
      ensures own == Echo.IsOwn(Memory(), i, version)
    {
      if i in statusWriteInFlight {
        return true;
      }
      return version.Some? && i in lastStatusWrite && lastStatusWrite[i] == version.value;
    }

    /** One event of the watch. */
    method Deliver(e: Echo.Event) returns (queue: seq<Item>)
      requires Echoes()
      modifies this`lastStatusWrite, this`statusWriteInFlight, this`echo
      ensures Echoes() && echo.actions == old(echo.actions) + [Echo.Deliver(e.kind, e.item, e.version)]
      ensures Echo.Last(echo) == Echo.Delivered(Echo.Last(old(echo)), namespace, e.kind, e.item, e.version)
      ensures Echo.Last(echo).queue == Echo.Last(old(echo)).queue + queue
    {
      Echo.NotedIsRun(echo, namespace, Echo.Deliver(e.kind, e.item, e.version));
      echo := Echo.Noted(echo, namespace, Echo.Deliver(e.kind, e.item, e.version));
      if e.kind == Echo.DELETED {
        ForgetStatusWrite(e.item);
        return [];
      }
      if !Accepts(e.item.namespace) {
        return [];
      }
      if e.kind == Echo.MODIFIED {
        var own := IsOwnStatusWrite(e.item, e.version);
        if own {
          return [];
        }
      }
      return [e.item];
    }

    /** The watch, over a stretch of events with no step of the worker in between: what it
        enqueues and remembers is what the machine does with their delivery. */
    method Watch(events: seq<Echo.Event>) returns (queue: seq<Item>)
      requires Echoes()
      modifies this`lastStatusWrite, this`statusWriteInFlight, this`echo
      ensures Echoes() && Worker() == old(Worker()) && echo.actions == old(echo.actions) + Echo.Deliveries(events)
      ensures Echo.Last(echo) == Echo.DeliverAll(Echo.Last(old(echo)), namespace, events)
      ensures (Memory(), queue) == Echo.Watched(old(Memory()), namespace, events)
    {
      hide Echo.Tracks, Echo.Delivered;
      queue := [];
      assert echo.actions == echo.actions + Echo.Deliveries(events[..0]);
      for n := 0 to |events|
        invariant Echoes() && echo.actions == old(echo.actions) + Echo.Deliveries(events[..n])
        invariant Echo.Last(echo) == Echo.DeliverAll(Echo.Last(old(echo)), namespace, events[..n])
        invariant Echo.Last(echo).queue == Echo.Last(old(echo)).queue + queue
      {
        assert events[..n + 1][..n] == events[..n];
        var more := Deliver(events[n]);
        queue := queue + more;
      }
      assert events[..|events|] == events;
      WatchTracks(old(echo), old(Memory()), old(api.clock), events);
      MemoryTracked();
      var queued := Echo.Last(old(echo)).queue;
      assert (queued + queue)[|queued|..] == queue;
      assert (queued + Echo.Watched(old(Memory()), namespace, events).1)[|queued|..]
          == Echo.Watched(old(Memory()), namespace, events).1;
    }

    lemma {:induction false} MemoryTracked()
      requires Echoes()
      ensures Echo.Last(echo).memory == Memory()
    {
    }

    lemma {:induction false} WatchTracks(log: Echo.Log, memory: Echo.Memory, clock: nat, events: seq<Echo.Event>)
      requires Echo.Tracks(namespace, log, memory, clock)
      ensures var s := Echo.DeliverAll(Echo.Last(log), namespace, events);
              s.worker == Echo.Last(log).worker && s.memory == Echo.Watched(memory, namespace, events).0
              && s.queue == Echo.Last(log).queue + Echo.Watched(memory, namespace, events).1
    {
      Echo.WatchedIsDelivered(Echo.Last(log), namespace, events);
    }

    // ---- writes ----

    /** Puts the finalizer on or takes it off, over the version that was read. */
    method SetFinalizer(raw: Object, add: bool) returns (fault: Option<Fault>)
      requires api.Valid() && api.stored == Some(raw)
      modifies api
      ensures api.Valid() && api.Extends() && api.verdicts == old(api.verdicts)
              && api.statusWrites == old(api.statusWrites)
      ensures api.finalizerWrites == old(api.finalizerWrites) ==>
                Rely(Some(raw), api.stored, old(api.clock), old(api.uids))
                && (fault == None ==> WithFinalizer(raw.finalizers, add) == raw.finalizers && api.stored == Some(raw))
      ensures fault.Some? ==> api.faults > old(api.faults)
      ensures api.finalizerWrites == old(api.finalizerWrites) && api.disturbances == old(api.disturbances) ==>
                api.stored == Some(raw)
      ensures api.finalizerWrites != old(api.finalizerWrites) ==>
                api.finalizerWrites == old(api.finalizerWrites) + 1 && raw.version < api.clock
                && api.stored == if raw.deleting && WithFinalizer(raw.finalizers, add) == [] then None
                                 else Some(raw.(finalizers := WithFinalizer(raw.finalizers, add), version := api.clock))
    {
      hide Rely;
      var next: seq<string> := [];
      for i := 0 to |raw.finalizers|
        invariant next == Foreign(raw.finalizers[..i])
      {
        assert raw.finalizers[..i + 1][..i] == raw.finalizers[..i];
        if raw.finalizers[i] != LeaseFinalizer() {
          next := next + [raw.finalizers[i]];
        }
      }
      assert raw.finalizers[..|raw.finalizers|] == raw.finalizers;
      if add {
        next := next + [LeaseFinalizer()];
      }
      if raw.finalizers == next {
        RelyReflexive(api.stored, api.clock, api.uids);
        return None;
      }
      fault := api.Update(raw, next);
    }

    /** The object has not moved on from the one that was read, but for what users may edit
        while the finalizer is on. */
    ghost predicate StillIs(raw: Object)
      reads api
    {
      api.stored.Some? && Held(api.stored) && api.stored.value.uid == raw.uid
      && (api.stored.value == raw || api.stored.value.version > raw.version)
      && raw.generation <= api.stored.value.generation && raw.status == api.stored.value.status
      && (raw.uid, raw.generation) in api.specs && api.specs[(raw.uid, raw.generation)] == raw.spec
    }

    /** One attempt to write the status prepared for `raw`, over the version `was`. */
    method WriteOver(was: Object, raw: Object, outcome: Outcome, now: Instant, ghost v: Verdict)
      returns (fault: Option<Fault>, version: nat)
      requires api.Valid() && StillIs(raw) && v in api.verdicts && Judges(v, raw, outcome)
      requires was.uid == raw.uid && raw.generation <= was.generation
      requires api.stored.value == was || api.stored.value.version > was.version
      modifies api
      ensures api.Valid() && api.Extends() && api.verdicts == old(api.verdicts)
              && api.finalizerWrites == old(api.finalizerWrites)
      ensures fault == None ==> api.statusWrites == old(api.statusWrites) + 1 && old(api.clock) < version == api.clock
      ensures fault.Some? ==> api.faults > old(api.faults)
      ensures fault == Some(Conflict) ==> api.statusWrites == old(api.statusWrites)
      ensures old(api.statusWrites) <= api.statusWrites <= old(api.statusWrites) + 1
      ensures api.statusWrites == old(api.statusWrites) ==> StillIs(raw)
      ensures Held(api.stored) && api.stored.value.uid == raw.uid && api.stored.value.generation >= raw.generation
      ensures api.stored.value.status ==
              if api.statusWrites == old(api.statusWrites) then raw.status else StatusFor(raw, outcome, now)
      ensures api.disturbances == old(api.disturbances) ==> OnlyStatus(old(api.stored), api.stored)
    {
      hide LeaseFinalizer, StatusFor, Says, Honest, Api.Valid, Rely;
      var status := StatusFor(raw, outcome, now);
      JudgedIsHonest(v, raw, outcome, now, was.generation, api.specs, api.verdicts);
      ghost var before, clock, uids := api.stored, api.clock, api.uids;
      StillBounded(raw);
      fault, version := api.UpdateStatus(was, status);
      if api.statusWrites == old(api.statusWrites) {
        HeldStays(before, api.stored, clock, uids);
      }
    }

    lemma {:induction false} StillBounded(raw: Object)
      requires api.Valid() && StillIs(raw)
      ensures raw.version <= api.clock
    {
      hide LeaseFinalizer, Honest, Grounded;
    }

    lemma {:induction false} StillAfter(raw: Object, finalizerWrites: int)
      requires OnlyFinalizer(raw, api.stored, finalizerWrites) && Held(api.stored)
      requires api.stored.value == raw || api.stored.value.version > raw.version
      requires (raw.uid, raw.generation) in api.specs && api.specs[(raw.uid, raw.generation)] == raw.spec
      ensures StillIs(raw)
    {
    }

    lemma {:induction false} StillMeans(raw: Object)
      requires StillIs(raw)
      ensures api.stored.Some? && Held(api.stored) && api.stored.value.uid == raw.uid
      ensures api.stored.value == raw || api.stored.value.version > raw.version
      ensures raw.generation <= api.stored.value.generation && raw.status == api.stored.value.status
    {
    }

    /** The latest object, to write the status over. */
    method Latest(raw: Object) returns (latest: Option<Object>)
      requires api.Valid() && StillIs(raw)
      modifies api
      ensures api.Valid() && api.Extends() && api.verdicts == old(api.verdicts)
      ensures api.finalizerWrites == old(api.finalizerWrites) && api.statusWrites == old(api.statusWrites)
      ensures StillIs(raw) && (latest.Some? ==> api.stored == latest)
      ensures api.disturbances == old(api.disturbances) ==> api.stored == old(api.stored)
    {
      hide LeaseFinalizer, Api.Valid, Rely;
      ghost var before, clock, uids := api.stored, api.clock, api.uids;
      StillBounded(raw);
      latest := api.Get();
      HeldStays(before, api.stored, clock, uids);
    }

    /** Writes the status, once more on the latest object after a conflict. */
    method WriteOrRetry(raw: Object, outcome: Outcome, now: Instant, ghost v: Verdict)
      returns (fault: Option<Fault>, version: nat, ghost conflicted: bool)
      requires api.Valid() && StillIs(raw) && v in api.verdicts && Judges(v, raw, outcome)
      requires Echoes() && Worker() == Echo.Writing(item)
      modifies api, this`echo
      ensures api.Valid() && api.Extends() && api.verdicts == old(api.verdicts)
              && api.finalizerWrites == old(api.finalizerWrites)
      ensures fault == None ==> api.statusWrites == old(api.statusWrites) + 1 && version == api.clock
      ensures fault.Some? ==> api.faults > old(api.faults)
      ensures old(api.statusWrites) <= api.statusWrites <= old(api.statusWrites) + 1
      ensures Held(api.stored) && api.stored.value.uid == raw.uid && api.stored.value.generation >= raw.generation
      ensures api.stored.value.status ==
              if api.statusWrites == old(api.statusWrites) then raw.status else StatusFor(raw, outcome, now)
      ensures api.disturbances == old(api.disturbances) ==> OnlyStatus(old(api.stored), api.stored)
      ensures Echoes()
      ensures Worker() == if fault == None then Echo.Written(item, version) else Echo.Closing(item)
      ensures echo.actions == old(echo.actions) + Answers(conflicted, fault, version)
    {
      hide StatusFor, Held, StillIs, Api.Valid, Echo.Tracks;
      StillMeans(raw);
      ghost var clock := api.clock;
      fault, version := WriteOver(raw, raw, outcome, now, v);
      conflicted := fault == Some(Conflict);
      Note(if fault == None then Echo.WriteAccepted(version) else if conflicted then Echo.WriteConflict
           else Echo.WriteFailed, clock);
      if fault != Some(Conflict) {
        return;
      }
      clock := api.clock;
      var latest := Latest(raw);
      StillMeans(raw);
      if latest == None {
        Note(Echo.WriteFailed, clock);
        return;
      }
      Echo.TracksLater(namespace, echo, Memory(), clock, api.clock);
      clock := api.clock;
      fault, version := WriteOver(latest.value, raw, outcome, now, v);
      Note(if fault == None then Echo.WriteAccepted(version) else Echo.WriteFailed, clock);
    }

    /** What the API server answered to the status writes. */
    ghost function Answers(conflicted: bool, fault: Option<Fault>, version: nat): seq<Echo.Action> {
      (if conflicted then [Echo.WriteConflict] else [])
      + if fault == None then [Echo.WriteAccepted(version)] else [Echo.WriteFailed]
    }

    /** Writes the outcome of reconciling `raw`. Whatever happens, the item is in flight
        while the status is written and not afterwards, and exactly a write known to have
        gone through is remembered. */
    method UpdateStatus(raw: Object, outcome: Outcome, ghost v: Verdict)
      returns (fault: Option<Fault>, ghost conflicted: bool, ghost now: Instant)
      requires api.Valid() && StillIs(raw) && v in api.verdicts && Judges(v, raw, outcome)
      requires Echoes() && Worker() == Echo.Idle
      modifies api, this`lastStatusWrite, this`statusWriteInFlight, this`echo
      ensures api.Valid() && api.Extends() && api.verdicts == old(api.verdicts)
              && api.finalizerWrites == old(api.finalizerWrites)
      ensures statusWriteInFlight == old(statusWriteInFlight) - {item}
      ensures lastStatusWrite == if fault == None then old(lastStatusWrite)[item := api.clock] else old(lastStatusWrite)
      ensures fault == None ==> api.statusWrites == old(api.statusWrites) + 1
      ensures fault.Some? ==> api.faults > old(api.faults)
      ensures old(api.statusWrites) <= api.statusWrites <= old(api.statusWrites) + 1
      ensures Held(api.stored) && api.stored.value.uid == raw.uid && api.stored.value.generation >= raw.generation
      ensures api.statusWrites == old(api.statusWrites) ==> api.stored.value.status == raw.status
      ensures api.statusWrites != old(api.statusWrites) ==>
                api.stored.value.status == StatusFor(raw, outcome, now)
                && Timed(raw.status, api.stored.value.status, now)
      ensures api.disturbances == old(api.disturbances) ==> OnlyStatus(old(api.stored), api.stored)
      ensures Echoes() && Worker() == Echo.Idle
      ensures echo.actions == old(echo.actions)
                              + Echo.WritePath(item, conflicted, if fault == None then Some(api.clock) else None)
    {
      hide StatusFor, Timed, Says, StatusUnchanged, LeaseFinalizer, Api.Valid, Echo.Tracks;
      var clock: Instant := *;
      now := clock;
      MarkStatusWriteInFlight(item);
      var version;
      fault, version, conflicted := WriteOrRetry(raw, outcome, clock, v);
      if api.statusWrites != old(api.statusWrites) {
        StatusForSays(raw, outcome, now, raw.(status := api.stored.value.status));
      }
      if fault == None {
        RememberStatusWrite(item, version);
      }
      ClearStatusWriteInFlight(item);
    }

    // ---- one pass ----

    /** The object is being deleted: revoke what is recorded, then let it go. `read` is
        what was read as recorded. */
    method HandleDeletion(raw: Object)
      returns (requeueAfter: int, ghost t: seq<Event>, ghost readable: bool, ghost read: LeaseIds)
      requires api.Valid() && api.stored == Some(raw) && raw.deleting && reconciler.store.Valid()
      modifies api, reconciler.c, reconciler.store
      ensures api.Valid() && api.Extends() && api.verdicts == old(api.verdicts) && reconciler.store.Valid()
      ensures requeueAfter == 0 || requeueAfter >= MIN_REFRESH
      ensures reconciler.c.trace == old(reconciler.c.trace) + t && NoLeaseRequests(t)
      ensures reconciler.store.writes == old(reconciler.store.writes)
      ensures Spared(old(reconciler.store.touched), old(reconciler.store.secrets),
                     reconciler.store.touched, reconciler.store.secrets)
      ensures api.statusWrites == old(api.statusWrites)
      ensures ObservedGrows(Some(raw), old(api.uids), api.stored) && StatusKept(Some(raw), old(api.uids), api.stored)
      // the item is done with only when the finalizer is off
      ensures requeueAfter == 0 ==> !Held(api.stored)
      // the finalizer comes off only once everything that was read has been revoked
      ensures Held(Some(raw)) && !Held(api.stored) && reconciler.dynamic ==> AllRevoked(read, t)
      ensures if reconciler.dynamic then
                |reconciler.store.answers| == |old(reconciler.store.answers)| + 1
                && ReadNext(old(reconciler.store.answers), reconciler.store.answers, TargetOf(api.name, raw.spec),
                            read, readable)
              else readable && read == map[]
      ensures readable && reconciler.dynamic && Untouched(TargetOf(api.name, raw.spec)) ==>
                read == RecordedIds(reconciler.store.secrets, TargetOf(api.name, raw.spec))
      // unless something stands in the way
      ensures requeueAfter != 0 ==>
                api.faults > old(api.faults) || |reconciler.store.denied| > |old(reconciler.store.denied)|
                || exists error :: RevokingBroke(read, t, error)
      ensures reconciler.store.failures >= old(reconciler.store.failures) + if readable then 0 else 1
    {
      hide LeaseFinalizer, Api.Valid, Rely, AllRevoked, RecordedIds, WithFinalizer, Spared, ObservedGrows, StatusKept,
           RevokingBroke, ReadNext;
      var err: Option<Error>;
      err, t, readable, read := reconciler.RevokeCrLeases(ResourceOf(api.name, raw));
      if err.Some? {
        SameStatusObserved(Some(raw), api.uids, api.stored);
        return ShortBackoff(DEFAULT_REFRESH), t, readable, read;
      }
      ghost var clock, uids := api.clock, api.uids;
      var fault := SetFinalizer(raw, false);
      ForeignKept(raw.finalizers, false);
      requeueAfter := if fault.Some? then ShortBackoff(DEFAULT_REFRESH) else 0;
      if api.finalizerWrites == old(api.finalizerWrites) {
        RelyObserved(Some(raw), api.stored, clock, uids);
      } else if api.stored.Some? {
        SameStatusObserved(Some(raw), uids, api.stored);
      } else {
        GoneIsObserved(Some(raw), uids);
      }
    }

    /** Nobody else changed what is recorded under this name. */
    twostate predicate Untouched(target: string)
      reads reconciler.store
    {
      reconciler.store.touched[target] == old(reconciler.store.touched[target])
    }

    /** Puts the finalizer on a live object that has none. */
    method EnsureFinalizer(raw: Object) returns (fault: Option<Fault>)
      requires api.Valid() && api.stored == Some(raw) && !raw.deleting && Echoes()
      modifies api
      ensures Echoes()
      ensures api.Valid() && api.Extends() && api.statusWrites == old(api.statusWrites)
              && api.verdicts == old(api.verdicts)
      ensures old(api.finalizerWrites) <= api.finalizerWrites <= old(api.finalizerWrites) + 1
      ensures ObservedGrows(Some(raw), old(api.uids), api.stored) && StatusKept(Some(raw), old(api.uids), api.stored)
      ensures Held(Some(raw)) ==>
                api.stored == Some(raw) && fault == None && api.finalizerWrites == old(api.finalizerWrites)
      ensures fault.Some? ==> api.faults > old(api.faults)
      ensures fault == None ==>
                Held(api.stored) && OnlyFinalizer(raw, api.stored, api.finalizerWrites - old(api.finalizerWrites))
                && (api.stored.value == raw || api.stored.value.version > raw.version)
      ensures api.disturbances == old(api.disturbances) || fault == None ==>
                OnlyFinalizer(raw, api.stored, api.finalizerWrites - old(api.finalizerWrites))
    {
      hide LeaseFinalizer, Api.Valid, Rely, WithFinalizer, ObservedGrows, StatusKept, Echo.Tracks;
      ghost var clock, uids := api.clock, api.uids;
      if LeaseFinalizer() in raw.finalizers {
        SameStatusObserved(Some(raw), uids, api.stored);
        return None;
      }
      fault := SetFinalizer(raw, true);
      Echo.TracksLater(namespace, echo, Memory(), clock, api.clock);
      ForeignKept(raw.finalizers, true);
      if api.finalizerWrites == old(api.finalizerWrites) {
        RelyObserved(Some(raw), api.stored, clock, uids);
      } else {
        SameStatusObserved(Some(raw), uids, api.stored);
      }
    }

    /** Writes the status unless nothing but its times would change; `v` is the pass the
        outcome comes from. */
    method Report(raw: Object, outcome: Outcome, ghost v: Verdict) returns (fault: Option<Fault>)
      requires api.Valid() && StillIs(raw) && Judges(v, raw, outcome) && Grounded(api.name, v)
      requires raw.status.observedGeneration <= raw.generation
      requires Echoes() && Worker() == Echo.Idle
      modifies api, this`lastStatusWrite, this`statusWriteInFlight, this`echo
      ensures api.Valid() && api.Extends() && api.finalizerWrites == old(api.finalizerWrites)
      ensures api.verdicts == old(api.verdicts) + {v}
      ensures old(api.statusWrites) <= api.statusWrites <= old(api.statusWrites) + 1
      ensures statusWriteInFlight == old(statusWriteInFlight)
              || statusWriteInFlight == old(statusWriteInFlight) - {item}
      ensures Held(api.stored) && api.stored.value.uid == raw.uid && ObservedGrows(Some(raw), old(api.uids), api.stored)
      ensures api.statusWrites == old(api.statusWrites) ==>
                api.stored.value.status == raw.status && StatusKept(Some(raw), old(api.uids), api.stored)
      ensures api.statusWrites != old(api.statusWrites) ==>
                !StatusUnchanged(raw, outcome) && Says(api.stored.value.status, outcome, raw.generation)
                && TimedSomehow(raw.status, api.stored.value.status)
                && api.stored.value.status.syncedKeyCount == outcome.syncedKeys
                && (api.stored.value.generation == raw.generation ==> StatusUnchanged(api.stored.value, outcome))
      ensures StatusUnchanged(raw, outcome) || api.statusWrites == old(api.statusWrites) + 1
              || api.faults > old(api.faults)
      ensures api.disturbances == old(api.disturbances) ==> OnlyStatus(old(api.stored), api.stored)
      ensures Echoes() && Worker() == Echo.Idle
    {
      hide LeaseFinalizer, Api.Valid, StatusFor, StatusUnchanged, ObservedGrows, StatusKept, Says, Grounded, Timed,
           TimedSomehow,
           Echo.Tracks,
           Echo.WritePath;
      api.Judge(v);
      if StatusUnchanged(raw, outcome) {
        SameStatusObserved(Some(raw), api.uids, api.stored);
        return None;
      }
      ghost var uids := api.uids;
      ghost var conflicted, now;
      fault, conflicted, now := UpdateStatus(raw, outcome, v);
      if api.statusWrites != old(api.statusWrites) {
        WrittenStatus(raw, outcome, now, uids, api.stored.value);
      } else {
        SameStatusObserved(Some(raw), uids, api.stored);
      }
    }

    /** The pass on record is the one over this object, as read, in which this was said. */
    ghost predicate OfPass(v: Verdict, raw: Object, t: seq<Event>) {
      Judges(v, raw, v.outcome) && v.attempt.cr == ResourceOf(api.name, raw) && v.attempt.p.t == t
      && v.attempt.dynamic == reconciler.dynamic
    }

    /** Reconciles the object as read, and puts the pass on record. */
    method RunPass(raw: Object) returns (result: Outcome, ghost t: seq<Event>, ghost readable: bool, ghost v: Verdict)
      requires reconciler.store.Valid()
      modifies this`journal, reconciler.c, reconciler.store
      ensures reconciler.store.Valid() && reconciler.c.trace == old(reconciler.c.trace) + t
      ensures OfPass(v, raw, t) && v.outcome == result && Grounded(api.name, v)
      ensures journal == old(journal) + [Entry(Held(api.stored), |old(reconciler.c.trace)|, v)]
      ensures result.requeueAfter >= MIN_REFRESH
      ensures reconciler.store.acked == old(reconciler.store.acked) + if result.ready then 1 else 0
      ensures Writing(Some(v), old(reconciler.store.writes), reconciler.store.writes)
      ensures old(reconciler.store.touched) <= reconciler.store.touched
      ensures reconciler.store.failures >= old(reconciler.store.failures) + if readable then 0 else 1
      ensures var target := TargetOf(api.name, raw.spec);
              readable && Untouched(target) ==>
                Accounted(RecordedIds(old(reconciler.store.secrets), target),
                          RecordedIds(reconciler.store.secrets, target), t)
    {
      hide LeaseFinalizer, PassWrite, ReadyToWrite, Reached, Accounted, RecordedIds, DecodeIds, LeasesBy, OwnedBy,
           TargetOf;
      var cr := ResourceOf(api.name, raw);
      ghost var p, ids;
      result, p, ids := reconciler.Reconcile(cr);
      t, readable := p.t, p.readable;
      v := Verdict(raw.uid, raw.generation, Attempt(cr, reconciler.dynamic, ids, p), result);
      ReachedMeans(v.attempt, result);
      if readable && Untouched(TargetName(cr)) {
        PassAccounted(v.attempt, old(reconciler.store.writes), reconciler.store.writes,
                      RecordedIds(old(reconciler.store.secrets), TargetName(cr)),
                      RecordedIds(reconciler.store.secrets, TargetName(cr)));
      }
      journal := journal + [Entry(Held(api.stored), |old(reconciler.c.trace)|, v)];
    }

    /** Reconciles the object as read, and reports the outcome. */
    method Attend(raw: Object) returns (result: Outcome, ghost t: seq<Event>, ghost readable: bool, ghost v: Verdict)
      requires api.Valid() && StillIs(raw) && raw.status.observedGeneration <= raw.generation
      requires reconciler.store.Valid() && Echoes() && Worker() == Echo.Idle
      modifies this, api, reconciler.c, reconciler.store
      ensures api.Valid() && api.Extends() && reconciler.store.Valid() && Echoes() && Worker() == Echo.Idle
      ensures reconciler.c.trace == old(reconciler.c.trace) + t
      ensures OfPass(v, raw, t) && v.outcome == result && result.requeueAfter >= MIN_REFRESH
      ensures PassPut(old(Snap()), Snap(), Some(v))
              && Writing(Some(v), old(reconciler.store.writes), reconciler.store.writes)
      ensures reconciler.store.acked == old(reconciler.store.acked) + if result.ready then 1 else 0
      ensures old(reconciler.store.touched) <= reconciler.store.touched
      ensures reconciler.store.failures >= old(reconciler.store.failures) + if readable then 0 else 1
      ensures var target := TargetOf(api.name, raw.spec);
              readable && Untouched(target) ==>
                Accounted(RecordedIds(old(reconciler.store.secrets), target),
                          RecordedIds(reconciler.store.secrets, target), t)
      ensures statusWriteInFlight == old(statusWriteInFlight)
              || statusWriteInFlight == old(statusWriteInFlight) - {item}
      ensures api.finalizerWrites == old(api.finalizerWrites)
      ensures Held(api.stored) && api.stored.value.uid == raw.uid
              && ObservedGrows(Some(raw), old(api.uids), api.stored)
      ensures old(api.statusWrites) <= api.statusWrites <= old(api.statusWrites) + 1
      ensures api.statusWrites == old(api.statusWrites) ==>
                api.stored.value.status == raw.status && StatusKept(Some(raw), old(api.uids), api.stored)
      ensures api.statusWrites != old(api.statusWrites) ==>
                !StatusUnchanged(raw, result) && Says(api.stored.value.status, result, raw.generation)
                && TimedSomehow(raw.status, api.stored.value.status)
                && api.stored.value.status.syncedKeyCount == result.syncedKeys
                && (api.stored.value.generation == raw.generation ==> StatusUnchanged(api.stored.value, result))
      ensures StatusUnchanged(raw, result) || api.statusWrites == old(api.statusWrites) + 1
              || api.faults > old(api.faults)
      ensures api.disturbances == old(api.disturbances) ==> OnlyStatus(old(api.stored), api.stored)
    {
      hide LeaseFinalizer, Api.Valid, StatusUnchanged, Grounded, Accounted, ObservedGrows, StatusKept, RecordedIds,
           Says,
           TimedSomehow,
           Echo.Tracks, TargetOf, Proper, PassPut, OfPass, Writing;
      ghost var w := Snap();
      StillMeans(raw);
      result, t, readable, v := RunPass(raw);
      OfPassJudges(v, raw, t);
      var fault := Report(raw, result, v);
      OnePassPut(w, Snap(), v);
    }

    /** The object is live: make sure of the finalizer, reconcile, report. */
    method HandleLive(raw: Object)
      returns (requeueAfter: int, ghost t: seq<Event>, ghost readable: bool, ghost verdict: Option<Verdict>)
      requires api.Valid() && api.stored == Some(raw) && !raw.deleting && reconciler.store.Valid()
      requires Echoes() && Worker() == Echo.Idle
      modifies this, api, reconciler.c, reconciler.store
      ensures api.Valid() && api.Extends() && reconciler.store.Valid()
      ensures requeueAfter >= MIN_REFRESH
      ensures reconciler.c.trace == old(reconciler.c.trace) + t
      ensures PassPut(old(Snap()), Snap(), verdict) && Echoes() && Worker() == Echo.Idle
      ensures statusWriteInFlight == old(statusWriteInFlight)
              || statusWriteInFlight == old(statusWriteInFlight) - {item}
      ensures ObservedGrows(Some(raw), old(api.uids), api.stored)
      ensures api.statusWrites == old(api.statusWrites) ==> StatusKept(Some(raw), old(api.uids), api.stored)
      // with the finalizer on, the pass is run, judged and heeded; what is written is what it came to
      ensures Held(Some(raw)) ==> verdict.Some?
      ensures verdict.Some? ==>
                OfPass(verdict.value, raw, t) && Held(api.stored)
                && requeueAfter == verdict.value.outcome.requeueAfter
                && reconciler.store.acked == old(reconciler.store.acked) + if verdict.value.outcome.ready then 1 else 0
      ensures api.statusWrites != old(api.statusWrites) ==>
                verdict.Some? && api.stored.Some?
                && Says(api.stored.value.status, verdict.value.outcome, raw.generation)
                && TimedSomehow(raw.status, api.stored.value.status)
      ensures verdict.Some? ==>
                StatusUnchanged(raw, verdict.value.outcome) || api.statusWrites == old(api.statusWrites) + 1
                || api.faults > old(api.faults)
      ensures Writing(verdict, old(reconciler.store.writes), reconciler.store.writes)
      // without a pass nothing was done that needs the finalizer
      ensures verdict == None ==>
                !Held(Some(raw)) && api.faults > old(api.faults) && t == [] && readable
                && reconciler.store.writes == old(reconciler.store.writes)
                && reconciler.store.secrets == old(reconciler.store.secrets)
                && reconciler.store.touched == old(reconciler.store.touched)
      // no recorded id gets lost
      ensures old(reconciler.store.touched) <= reconciler.store.touched
      ensures reconciler.store.failures >= old(reconciler.store.failures) + if readable then 0 else 1
      ensures var target := TargetOf(api.name, raw.spec);
              readable && Untouched(target) ==>
                Accounted(RecordedIds(old(reconciler.store.secrets), target),
                          RecordedIds(reconciler.store.secrets, target), t)
      // left alone, the pass is quiet
      ensures api.disturbances == old(api.disturbances) ==>
                api.stored.Some?
                && QuietPass(raw, api.stored.value, OutcomeIn(verdict), api.finalizerWrites - old(api.finalizerWrites),
                             api.statusWrites - old(api.statusWrites))
    {
      hide LeaseFinalizer, Api.Valid, StatusUnchanged, Grounded, Accounted, ObservedGrows, StatusKept, TimedSomehow,
           RecordedIds,
           QuietPass, Says,
           TargetOf, Proper, PassPut, OfPass, Writing, Echoes, Worker, AllRevoked, OnlyStatus, OnlyFinalizer, StillIs;
      ghost var w := Snap();
      t, readable, verdict := [], true, None;
      ghost var target := TargetOf(api.name, raw.spec);
      ghost var uids := api.uids;
      GenerationOnRecord(api, raw);
      var fault := EnsureFinalizer(raw);
      ghost var uids' := api.uids;
      if fault.Some? {
        KeptIsAccounted(RecordedIds(reconciler.store.secrets, target), t);
        if api.disturbances == old(api.disturbances) {
          QuietSoFar(raw, api.stored, api.finalizerWrites - old(api.finalizerWrites));
        }
        NoPassPut(w, Snap());
        return ShortBackoff(DEFAULT_REFRESH), t, readable, verdict;
      }
      ghost var done, finalizerWrites := api.stored, api.finalizerWrites - old(api.finalizerWrites);
      StillAfter(raw, finalizerWrites);
      ghost var v;
      var result;
      ghost var mid := Snap();
      result, t, readable, v := Attend(raw);
      verdict := Some(v);
      PassPutOn(w, mid, Snap(), v);
      EarlierBound(Some(raw), uids, uids', api.stored);
      requeueAfter := result.requeueAfter;
      if api.disturbances == old(api.disturbances) {
        QuietFrom(raw, done, api.stored, Some(result), finalizerWrites, api.statusWrites - old(api.statusWrites));
      }
    }

    /** One object, as read. */
    method Handle(raw: Object, ghost target: string)
      returns (requeueAfter: int, ghost t: seq<Event>, ghost readable: bool, ghost verdict: Option<Verdict>,
               ghost read: LeaseIds)
      requires api.Valid() && api.stored == Some(raw) && reconciler.store.Valid()
      requires Echoes() && Worker() == Echo.Idle
      modifies this, api, reconciler.c, reconciler.store
      ensures api.Valid() && api.Extends() && reconciler.store.Valid() && Echoes() && Worker() == Echo.Idle
      ensures requeueAfter == 0 || requeueAfter >= MIN_REFRESH
      ensures HandledAs(target, old(Snap()), Snap(),
                        Turn(true, Some(raw), true, t, readable, read, verdict, requeueAfter))
      ensures verdict.Some? ==> OfPass(verdict.value, raw, t)
    {
      hide HandledAs, Api.Valid, Store.Valid, Echo.Tracks, OfPass;
      if raw.deleting {
        requeueAfter, t, readable, verdict, read := HandleDeleted(raw, target);
      } else {
        requeueAfter, t, readable, verdict, read := HandleLiving(raw, target);
      }
    }

    method HandleDeleted(raw: Object, ghost target: string)
      returns (requeueAfter: int, ghost t: seq<Event>, ghost readable: bool, ghost verdict: Option<Verdict>,
               ghost read: LeaseIds)
      requires api.Valid() && api.stored == Some(raw) && reconciler.store.Valid() && raw.deleting
      requires Echoes() && Worker() == Echo.Idle
      modifies this, api, reconciler.c, reconciler.store
      ensures api.Valid() && api.Extends() && reconciler.store.Valid() && Echoes() && Worker() == Echo.Idle
      ensures requeueAfter == 0 || requeueAfter >= MIN_REFRESH
      ensures HandledAs(target, old(Snap()), Snap(),
                        Turn(true, Some(raw), true, t, readable, read, verdict, requeueAfter))
      ensures verdict.Some? ==> OfPass(verdict.value, raw, t)
    {
      hide LeaseFinalizer, Api.Valid, AllRevoked, RecordedIds, ObservedGrows, StatusKept, TimedSomehow, FixedTarget,
           QuietPass, Keeping,
           TargetOf, Echo.Tracks, Says, StatusUnchanged, RevokingBroke, ReadNext, Proper, OfPass, Spared;
      verdict := None;
      ghost var w, clock := Snap(), api.clock;
      GenerationOnRecord(api, raw);
      requeueAfter, t, readable, read := HandleDeletion(raw);
      OnlyRead(target, w.touched, w.secrets, [], reconciler.store.touched, reconciler.store.secrets);
      Echo.TracksLater(namespace, echo, Memory(), clock, api.clock);
      if FixedTarget(api.name, api.specs, target) {
        TargetIsFixed(api.name, api.specs, target, raw);
      }
      DeletedKeeps(target, TargetOf(api.name, raw.spec), w, Snap(),
                   Turn(true, Some(raw), true, t, readable, read, verdict, requeueAfter));
    }

    method HandleLiving(raw: Object, ghost target: string)
      returns (requeueAfter: int, ghost t: seq<Event>, ghost readable: bool, ghost verdict: Option<Verdict>,
               ghost read: LeaseIds)
      requires api.Valid() && api.stored == Some(raw) && reconciler.store.Valid() && !raw.deleting
      requires Echoes() && Worker() == Echo.Idle
      modifies this, api, reconciler.c, reconciler.store
      ensures api.Valid() && api.Extends() && reconciler.store.Valid() && Echoes() && Worker() == Echo.Idle
      ensures requeueAfter == 0 || requeueAfter >= MIN_REFRESH
      ensures HandledAs(target, old(Snap()), Snap(),
                        Turn(true, Some(raw), true, t, readable, read, verdict, requeueAfter))
      ensures verdict.Some? ==> OfPass(verdict.value, raw, t)
    {
      hide LeaseFinalizer, Api.Valid, AllRevoked, Accounted, RecordedIds, ObservedGrows, FixedTarget, QuietPass,
           Keeping,
           TargetOf, Echo.Tracks, Says, StatusUnchanged, OfPass, Writing, HandledAs, PassPut, PassOver, Accounted;
      read := map[];
      ghost var w := Snap();
      GenerationOnRecord(api, raw);
      requeueAfter, t, readable, verdict := HandleLive(raw);
      if verdict.Some? {
        assert OfPass(verdict.value, raw, t);
        SaidInPass(verdict.value, raw, t);
      }
      if FixedTarget(api.name, api.specs, target) {
        TargetIsFixed(api.name, api.specs, target, raw);
      }
      ghost var turn := Turn(true, Some(raw), true, t, readable, read, verdict, requeueAfter);
      LiveSeen(target, TargetOf(api.name, raw.spec), w, Snap(), turn);
    }

    lemma {:induction false} OfPassJudges(v: Verdict, raw: Object, t: seq<Event>)
      requires OfPass(v, raw, t)
      ensures Judges(v, raw, v.outcome)
    {
    }

    lemma {:induction false} SaidInPass(v: Verdict, raw: Object, t: seq<Event>)
      requires OfPass(v, raw, t)
      ensures PassOver(v, raw, t)
    {
    }

    /** The world as the worker leaves it. */
    ghost function Snap(): World
      reads this, api, reconciler.c, reconciler.store
    {
      World(api.name, reconciler.dynamic, reconciler.c.trace, journal,
            api.stored, api.uids, api.specs, api.verdicts,
            api.gets, api.undecoded, api.faults, api.finalizerWrites, api.statusWrites, api.disturbances,
            reconciler.store.secrets, reconciler.store.touched, reconciler.store.failures, reconciler.store.writes,
            reconciler.store.denied)
    }

    /** One queued item: a turn of the worker. `target` is the Secret all specs of the
        resource have named so far. */
    method ReconcileOne(i: Item, ghost target: string) returns (requeueAfter: int, ghost turn: Turn)
      requires i == item && api.Valid() && reconciler.store.Valid()
      requires Echoes() && Worker() == Echo.Idle
      modifies this, api, reconciler.c, reconciler.store
      ensures api.Valid() && api.Extends() && reconciler.store.Valid() && Echoes() && Worker() == Echo.Idle
      ensures requeueAfter == 0 || requeueAfter >= MIN_REFRESH
      ensures turn.accepted == (namespace == "" || i.namespace == namespace) && turn.requeueAfter == requeueAfter
      ensures TurnStep(target, old(Snap()), Snap(), turn)
      ensures turn.verdict.Some? ==> OfPass(turn.verdict.value, turn.got.value, turn.t)
    {
      hide Api.Valid, Store.Valid, Meanwhile, HandledAs, TurnStep, Echo.Tracks, OfPass;
      ghost var w := Snap();
      if !Accepts(i.namespace) {
        turn := Turn(false, None, true, [], true, map[], None, 0);
        NoTurn(target, w, turn);
        return 0, turn;
      }
      ghost var clock := api.clock;
      var got, decodes := Look();
      ghost var mid := Snap();
      if got == None {
        turn := Turn(true, got, true, [], true, map[], None, 0);
        IdleTurn(target, w, mid, turn, clock);
        return 0, turn;
      }
      if !decodes {
        turn := Turn(true, got, false, [], true, map[], None, 60);
        IdleTurn(target, w, mid, turn, clock);
        return 60, turn;
      }
      ghost var t, readable, verdict, read;
      requeueAfter, t, readable, verdict, read := Handle(got.value, target);
      turn := Turn(true, got, true, t, readable, read, verdict, requeueAfter);
      HandledTurn(target, w, mid, Snap(), turn, clock);
    }

    /** Reads the object and decodes it. */
    method Look() returns (got: Option<Object>, decodes: bool)
      requires api.Valid() && Echoes()
      modifies api
      ensures api.Valid() && api.Extends() && Echoes()
      ensures Meanwhile(old(Snap()), Snap(), old(api.clock)) && got == api.gets[|old(api.gets)|]
      ensures got.Some? ==> api.stored == got
      ensures !decodes ==> got.Some? && old(api.undecoded) < api.undecoded
    {
      hide Api.Valid, Rely, Echo.Tracks;
      ghost var clock := api.clock;
      got := api.Get();
      Echo.TracksLater(namespace, echo, Memory(), clock, api.clock);
      decodes := true;
      if got.Some? {
        decodes := api.Decode(got.value);
      }
    }

    /** The worker loop, over the items as they come out of the queue: it takes a turn for
        each. What holds of every such run is proved in `Runs`. */
    method Run(items: seq<Item>, ghost target: string) returns (ghost worlds: seq<World>, ghost turns: seq<Turn>)
      requires (forall i :: i in items ==> i == item) && api.Valid() && reconciler.store.Valid()
      requires Echoes() && Worker() == Echo.Idle
      modifies this, api, reconciler.c, reconciler.store
      ensures api.Valid() && api.Extends() && reconciler.store.Valid() && Echoes() && Worker() == Echo.Idle
      ensures WorldRun(target, worlds, turns) && worlds[0] == old(Snap()) && worlds[|turns|] == Snap()
      ensures |turns| == |items|
      ensures forall n :: 0 <= n < |turns| ==>
                turns[n].accepted == (namespace == "" || items[n].namespace == namespace)
    {
      hide Api.Valid, Store.Valid, TurnStep, WorldRun, Echo.Tracks, OfPass;
      worlds, turns := [Snap()], [];
      RunBegins(target, Snap());
      for n := 0 to |items|
        invariant api.Valid() && api.Extends() && reconciler.store.Valid() && Echoes() && Worker() == Echo.Idle
        invariant |worlds| == n + 1 && |turns| == n && WorldRun(target, worlds, turns)
        invariant worlds[0] == old(Snap()) && worlds[n] == Snap()
        invariant forall m :: 0 <= m < n ==> turns[m].accepted == Accepts(items[m].namespace)
      {
        assert items[n] in items;
        ghost var turn;
        var requeueAfter;
        requeueAfter, turn := ReconcileOne(items[n], target);
        RunContinues(target, worlds, turns, Snap(), turn);
        worlds, turns := worlds + [Snap()], turns + [turn];
      }
    }
  }
}
