/** The worker and the watch share a small memory of status writes, so that the event
    echoing the operator's own write does not start another pass. */
module Echo {
  import opened Text

  datatype Item = Item(namespace: string, name: string)

  // ---- the memory ----

  datatype Memory = Memory(last: map<Item, nat>, inFlight: set<Item>)

  function Marked(m: Memory, i: Item): Memory { m.(inFlight := m.inFlight + {i}) }

  function Cleared(m: Memory, i: Item): Memory { m.(inFlight := m.inFlight - {i}) }

  function Remembered(m: Memory, i: Item, version: nat): Memory { m.(last := m.last[i := version]) }

  function Forgotten(m: Memory, i: Item): Memory { Memory(m.last - {i}, m.inFlight - {i}) }

  /** The version is absent when the event carries none. */
  predicate IsOwn(m: Memory, i: Item, version: Option<nat>) {
    i in m.inFlight || (version.Some? && i in m.last && m.last[i] == version.value)
  }

  // ---- the two actors ----

  /** Where the worker is in writing an item's status. */
  datatype Worker = Idle | Writing(item: Item) | Written(item: Item, version: nat) | Closing(item: Item)

  datatype Kind = ADDED | MODIFIED | DELETED

  datatype Action =
    | Mark(item: Item)
    | WriteAccepted(version: nat)
    | WriteConflict
    | WriteFailed
    | Record
    | Clear
    | Deliver(kind: Kind, item: Item, carried: Option<nat>)

  /** `clock` bounds the versions the API server has handed out; `queue` is everything
      the watch ever enqueued; `accepted` are the operator's accepted status writes.
      `latest` is, for an item, the latest of them, as long as no DELETED event for the
      item was delivered since the worker marked it; `broken` are the items for which one
      was delivered since their mark. */
  datatype State = State(
    memory: Memory, worker: Worker, queue: seq<Item>, clock: nat,
    latest: map<Item, nat>, broken: set<Item>, accepted: set<(Item, nat)>)

  function Initial(clock: nat): State {
    State(Memory(map[], {}), Idle, [], clock, map[], {}, {})
  }

  /** Whether the watch looks at the namespace at all. */
  predicate InScope(scope: string, i: Item) { scope == "" || scope == i.namespace }

  /** What the watch does with an event: a DELETED one clears the memory; one outside the
      scope, or the MODIFIED echo of an own write, is dropped; the rest is enqueued. */
  function Delivered(s: State, scope: string, kind: Kind, i: Item, version: Option<nat>): State {
    if kind == DELETED then
      s.(memory := Forgotten(s.memory, i), latest := s.latest - {i}, broken := s.broken + {i})
    else if !InScope(scope, i) then s
    else if kind == MODIFIED && IsOwn(s.memory, i, version) then s
    else s.(queue := s.queue + [i])
  }

  /** One step. The API server may hand out versions to others at any time; events may be
      delivered late, repeatedly, or never; a write that failed may have been applied. */
  ghost predicate Next(scope: string, s: State, a: Action, s': State) {
    match a
    case Mark(i) =>
      s.worker == Idle
      && s' == s.(memory := Marked(s.memory, i), worker := Writing(i), broken := s.broken - {i})
    case WriteAccepted(v) =>
      s.worker.Writing? && v > s.clock
      && var i := s.worker.item;
         s' == s.(worker := Written(i, v), clock := v, accepted := s.accepted + {(i, v)},
                  latest := if i in s.broken then s.latest - {i} else s.latest[i := v])
    case WriteConflict =>
      s.worker.Writing? && s.clock <= s'.clock && s' == s.(clock := s'.clock)
    case WriteFailed =>
      s.worker.Writing? && s.clock <= s'.clock && s' == s.(clock := s'.clock, worker := Closing(s.worker.item))
    case Record =>
      s.worker.Written?
      && s' == s.(memory := Remembered(s.memory, s.worker.item, s.worker.version), worker := Closing(s.worker.item))
    case Clear =>
      s.worker.Closing? && s' == s.(memory := Cleared(s.memory, s.worker.item), worker := Idle)
    case Deliver(kind, i, version) =>
      s' == Delivered(s, scope, kind, i, version)
  }

  ghost predicate Run(scope: string, states: seq<State>, actions: seq<Action>) {
    |states| == |actions| + 1 && (exists clock :: states[0] == Initial(clock))
    && forall n :: 0 <= n < |actions| ==> Next(scope, states[n], actions[n], states[n + 1])
  }

  predicate Busy(s: State, i: Item) { !s.worker.Idle? && s.worker.item == i }

  /** A write in progress is in flight unless a DELETED event broke it; and the latest
      accepted write is remembered, or still in the worker's hands and in flight. */
  ghost predicate Inv(s: State) {
    (forall i :: Busy(s, i) && i !in s.broken ==> i in s.memory.inFlight)
    && (forall i :: i in s.latest ==>
          (i in s.memory.last && s.memory.last[i] == s.latest[i])
          || (s.worker == Written(i, s.latest[i]) && i !in s.broken))
    && (forall i :: i in s.memory.inFlight ==> Busy(s, i))
    && (forall i :: i in s.memory.last ==> (i, s.memory.last[i]) in s.accepted)
    && (s.worker.Written? ==>
          (s.worker.item, s.worker.version) in s.accepted
          && (s.worker.item in s.latest ==> s.latest[s.worker.item] == s.worker.version))
  }

  lemma {:induction false} StepKeepsInv(scope: string, s: State, a: Action, s': State)
    requires Inv(s) && Next(scope, s, a, s')
    ensures Inv(s')
  {
  }

  lemma {:induction false} RunKeepsInv(scope: string, states: seq<State>, actions: seq<Action>, n: nat)
    requires Run(scope, states, actions) && n <= |actions|
    ensures Inv(states[n])
  {
    hide Inv, Next;
    if n == 0 {
      InitialInv(states[0]);
    } else {
      RunKeepsInv(scope, states, actions, n - 1);
      StepKeepsInv(scope, states[n - 1], actions[n - 1], states[n]);
    }
  }

  lemma {:induction false} InitialInv(s: State)
    requires exists clock :: s == Initial(clock)
    ensures Inv(s)
  {
  }

  /** Under every interleaving, the MODIFIED event of an item's latest accepted status
      write is never enqueued, however late or often it is delivered - unless a DELETED
      event for the item was delivered since that write was begun. */
  lemma {:induction false} EchoNeverEnqueued(scope: string, states: seq<State>, actions: seq<Action>, n: nat)
    requires Run(scope, states, actions) && n < |actions|
    requires actions[n].Deliver? && actions[n].kind == MODIFIED
    requires actions[n].item in states[n].latest && actions[n].carried == Some(states[n].latest[actions[n].item])
    ensures states[n + 1].queue == states[n].queue
  {
    RunKeepsInv(scope, states, actions, n);
    assert Next(scope, states[n], actions[n], states[n + 1]);
  }

  /** Nothing else is held back for long: with no write of the item in progress, an event
      in scope is enqueued unless it is the echo of a status write of the operator. */
  lemma {:induction false} OthersEnqueued(scope: string, states: seq<State>, actions: seq<Action>, n: nat)
    requires Run(scope, states, actions) && n < |actions|
    requires actions[n].Deliver? && actions[n].kind != DELETED && (scope == "" || actions[n].item.namespace == scope)
    requires !Busy(states[n], actions[n].item)
    requires actions[n].kind == ADDED || actions[n].carried == None
             || (actions[n].item, actions[n].carried.value) !in states[n].accepted
    ensures states[n + 1].queue == states[n].queue + [actions[n].item]
  {
    RunKeepsInv(scope, states, actions, n);
    assert Next(scope, states[n], actions[n], states[n + 1]);
  }

  /** What happens outside the scope, and that something is deleted, is never enqueued. */
  lemma {:induction false} OutsideDropped(scope: string, states: seq<State>, actions: seq<Action>, n: nat)
    requires Run(scope, states, actions) && n < |actions| && actions[n].Deliver?
    requires actions[n].kind == DELETED || (scope != "" && actions[n].item.namespace != scope)
    ensures states[n + 1].queue == states[n].queue
  {
    assert Next(scope, states[n], actions[n], states[n + 1]);
  }

  /** The proviso is needed: a DELETED event delivered between mark and write lets the
      echo through. */
  lemma {:induction false} DeletedLetsEchoThrough(i: Item, clock: nat)
    ensures exists states: seq<State>, actions: seq<Action> ::
              Run("", states, actions) && |states| == 5
              && actions == [Mark(i), Deliver(DELETED, i, None), WriteAccepted(clock + 1),
                             Deliver(MODIFIED, i, Some(clock + 1))]
              && states[4].queue == [i]
  {
    var s0 := Initial(clock);
    var s1 := s0.(memory := Marked(s0.memory, i), worker := Writing(i), broken := s0.broken - {i});
    var s2 := Delivered(s1, "", DELETED, i, None);
    var s3 := s2.(worker := Written(i, clock + 1), clock := clock + 1, accepted := s2.accepted + {(i, clock + 1)},
                  latest := s2.latest - {i});
    var s4 := Delivered(s3, "", MODIFIED, i, Some(clock + 1));
    var states := [s0, s1, s2, s3, s4];
    var actions := [Mark(i), Deliver(DELETED, i, None), WriteAccepted(clock + 1),
                    Deliver(MODIFIED, i, Some(clock + 1))];
    assert Next("", states[0], actions[0], states[1]);
    assert Next("", states[1], actions[1], states[2]);
    assert Next("", states[2], actions[2], states[3]);
    assert Next("", states[3], actions[3], states[4]);
    assert Run("", states, actions);
  }

  /** And the flag is coarse: while a write is in flight, a user's edit is dropped too. */
  lemma {:induction false} EditDroppedInFlight(i: Item, clock: nat, version: nat)
    requires version > clock
    ensures exists states: seq<State>, actions: seq<Action> ::
              Run("", states, actions) && |states| == 3
              && actions == [Mark(i), Deliver(MODIFIED, i, Some(version))]
              && (i, version) !in states[2].accepted && states[2].queue == []
  {
    var s0 := Initial(clock);
    var s1 := s0.(memory := Marked(s0.memory, i), worker := Writing(i), broken := s0.broken - {i});
    var states, actions := [s0, s1, s1], [Mark(i), Deliver(MODIFIED, i, Some(version))];
    assert Next("", states[0], actions[0], states[1]);
    assert Next("", states[1], actions[1], states[2]);
    assert Run("", states, actions);
  }

  // ---- the watch ----

  datatype Event = Event(kind: Kind, item: Item, version: Option<nat>)

  /** What a stretch of events does to memory and queue. */
  function Watched(memory: Memory, scope: string, events: seq<Event>): (Memory, seq<Item>) {
    if events == [] then (memory, [])
    else
      var (m, q) := Watched(memory, scope, events[..|events| - 1]);
      var e := events[|events| - 1];
      if e.kind == DELETED then (Forgotten(m, e.item), q)
      else if !InScope(scope, e.item) || (e.kind == MODIFIED && IsOwn(m, e.item, e.version)) then (m, q)
      else (m, q + [e.item])
  }

  /** The same stretch as steps of the machine above. */
  function DeliverAll(s: State, scope: string, events: seq<Event>): State {
    if events == [] then s
    else
      var e := events[|events| - 1];
      Delivered(DeliverAll(s, scope, events[..|events| - 1]), scope, e.kind, e.item, e.version)
  }

  lemma {:induction false} WatchedIsDelivered(s: State, scope: string, events: seq<Event>)
    ensures DeliverAll(s, scope, events).memory == Watched(s.memory, scope, events).0
    ensures DeliverAll(s, scope, events).queue == s.queue + Watched(s.memory, scope, events).1
    ensures DeliverAll(s, scope, events).worker == s.worker
  {
    if events != [] {
      WatchedIsDelivered(s, scope, events[..|events| - 1]);
    }
  }

  // ---- a log of the steps taken ----

  datatype Log = Log(states: seq<State>, actions: seq<Action>)

  function Last(log: Log): State {
    if log.states == [] then Initial(0) else log.states[|log.states| - 1]
  }

  /** The log of a run that has come to this memory; `clock` bounds the versions so far. */
  ghost predicate Tracks(scope: string, log: Log, memory: Memory, clock: nat) {
    Run(scope, log.states, log.actions) && Last(log).memory == memory && Last(log).clock <= clock
  }

  predicate Enabled(s: State, a: Action) {
    match a
    case Mark(_) => s.worker.Idle?
    case WriteAccepted(v) => s.worker.Writing? && v > s.clock
    case WriteConflict => s.worker.Writing?
    case WriteFailed => s.worker.Writing?
    case Record => s.worker.Written?
    case Clear => s.worker.Closing?
    case Deliver(_, _, _) => true
  }

  /** The state after an enabled action, with no version handed out to others meanwhile. */
  function After(scope: string, s: State, a: Action): State
    requires Enabled(s, a)
  {
    match a
    case Mark(i) => s.(memory := Marked(s.memory, i), worker := Writing(i), broken := s.broken - {i})
    case WriteAccepted(v) =>
      var i := s.worker.item;
      s.(worker := Written(i, v), clock := v, accepted := s.accepted + {(i, v)},
         latest := if i in s.broken then s.latest - {i} else s.latest[i := v])
    case WriteConflict => s
    case WriteFailed => s.(worker := Closing(s.worker.item))
    case Record =>
      s.(memory := Remembered(s.memory, s.worker.item, s.worker.version), worker := Closing(s.worker.item))
    case Clear => s.(memory := Cleared(s.memory, s.worker.item), worker := Idle)
    case Deliver(kind, i, version) => Delivered(s, scope, kind, i, version)
  }

  function Noted(log: Log, scope: string, a: Action): Log
    requires Enabled(Last(log), a)
  {
    Log(log.states + [After(scope, Last(log), a)], log.actions + [a])
  }

  lemma {:induction false} NotedIsRun(log: Log, scope: string, a: Action)
    requires Run(scope, log.states, log.actions) && Enabled(Last(log), a)
    ensures var next := Noted(log, scope, a);
            Run(scope, next.states, next.actions) && Last(next) == After(scope, Last(log), a)
  {
    hide After;
    var next := Noted(log, scope, a);
    assert Next(scope, Last(log), a, After(scope, Last(log), a)) by { AfterIsNext(scope, Last(log), a); }
    forall n | 0 <= n < |next.actions| ensures Next(scope, next.states[n], next.actions[n], next.states[n + 1]) {
      if n < |log.actions| {
        assert Next(scope, log.states[n], log.actions[n], log.states[n + 1]);
      }
    }
  }

  lemma {:induction false} AfterIsNext(scope: string, s: State, a: Action)
    requires Enabled(s, a)
    ensures Next(scope, s, a, After(scope, s, a))
  {
  }

  lemma {:induction false} TracksLater(scope: string, log: Log, memory: Memory, clock: nat, clock': nat)
    requires Tracks(scope, log, memory, clock) && clock <= clock'
    ensures Tracks(scope, log, memory, clock')
  {
  }

  /** The events of a stretch, as actions. */
  function Deliveries(events: seq<Event>): seq<Action> {
    if events == [] then []
    else
      var e := events[|events| - 1];
      Deliveries(events[..|events| - 1]) + [Deliver(e.kind, e.item, e.version)]
  }

  /** What the worker does to write the status of an item, once it has been marked. */
  function Attempts(conflicted: bool, accepted: Option<nat>): seq<Action> {
    (if conflicted then [WriteConflict] else [])
    + match accepted case Some(v) => [WriteAccepted(v), Record] case None => [WriteFailed]
  }

  function WritePath(i: Item, conflicted: bool, accepted: Option<nat>): seq<Action> {
    [Mark(i)] + Attempts(conflicted, accepted) + [Clear]
  }
}
