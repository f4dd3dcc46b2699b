/** The cache of unwrap keys under interleaved calls: the mutex guards the lookup
    and the store, not the derivation between them. */
module UnwrapCache {
  import opened Text
  import opened Platform
  import opened Wire

  datatype Answer = Answer(call: Derivation, result: Result<UnwrapKey>)

  datatype State = State(cache: map<string, UnwrapKey>, pending: multiset<Derivation>, answers: seq<Answer>)

  datatype Action = Hit(call: Derivation) | Miss(call: Derivation) | Store(call: Derivation)

  ghost predicate Next(s: State, a: Action, s': State, versions: set<int>) {
    match a
    case Hit(d) =>
      CacheKey(d) in s.cache
      && s' == s.(answers := s.answers + [Answer(d, Ok(s.cache[CacheKey(d)]))])
    case Miss(d) =>
      CacheKey(d) !in s.cache && s' == s.(pending := s.pending + multiset{d})
    case Store(d) =>
      d in s.pending
      && var derived := Fresh(d, versions);
         s' == State(if derived.Ok? then s.cache[CacheKey(d) := derived.value] else s.cache,
                     s.pending - multiset{d},
                     s.answers + [Answer(d, derived)])
  }

  /** A run: any interleaving of any calls. */
  ghost predicate Run(states: seq<State>, actions: seq<Action>, versions: set<int>) {
    |states| == |actions| + 1 && states[0] == State(map[], multiset{}, [])
    && forall i :: 0 <= i < |actions| ==> Next(states[i], actions[i], states[i + 1], versions)
  }

  /** One sequential call, as the client makes it, is a hit, or a miss and its store. */
  lemma {:induction false} SequentialCall(d: Derivation, s: State, versions: set<int>) returns (s': State)
    ensures s'.cache == Remember(d, s.cache, versions)
    ensures s'.answers == s.answers + [Answer(d, Cached(d, s.cache, versions))]
    ensures Next(s, Hit(d), s', versions)
            || exists m :: Next(s, Miss(d), m, versions) && Next(m, Store(d), s', versions)
  {
    if CacheKey(d) in s.cache {
      s' := s.(answers := s.answers + [Answer(d, Ok(s.cache[CacheKey(d)]))]);
    } else {
      var m := s.(pending := s.pending + multiset{d});
      var derived := Fresh(d, versions);
      s' := State(if derived.Ok? then m.cache[CacheKey(d) := derived.value] else m.cache,
                  m.pending - multiset{d}, m.answers + [Answer(d, derived)]);
      assert Next(s, Miss(d), m, versions) && Next(m, Store(d), s', versions);
    }
  }

  // ---- when two calls may share an entry ----

  lemma {:induction false} ValidSaltHasNoColon(salt: string)
    requires DecodeSalt(salt).Some?
    ensures ':' !in salt
  {
    if ':' in salt {
      KeepsColon(salt);
    }
  }

  lemma {:induction false} KeepsColon(s: string)
    requires ':' in s
    ensures ':' in SkipBreaks(s)
  {
    if s[0] != ':' {
      KeepsColon(s[1..]);
    }
  }

  /** With a colon-free salt, the joined text has one reading only. */
  lemma {:induction false} JoinInjective(s1: string, t1: string, s2: string, t2: string)
    requires s1 + ":" + t1 == s2 + ":" + t2 && ':' !in t1 && ':' !in t2
    ensures s1 == s2 && t1 == t2
  {
    var a, b := s1 + ":" + t1, s2 + ":" + t2;
    assert a[|s1|] == ':' && b[|s2|] == ':';
    assert forall i :: |s1| < i < |a| ==> a[i] == t1[i - |s1| - 1];
    assert forall i :: |s2| < i < |b| ==> b[i] == t2[i - |s2| - 1];
    assert a[..|s1|] == s1 && b[..|s2|] == s2;
    assert a[|s1| + 1..] == t1 && b[|s2| + 1..] == t2;
  }

  /** A hit on an entry derived for `a` answers `b` as a fresh derivation would exactly
      when `b`'s salt holds no colon and the two ask for the same KDF version: the
      cache key leaves the version out. */
  lemma {:induction false} SharingExact(a: Derivation, b: Derivation, versions: set<int>)
    requires CacheKey(a) == CacheKey(b) && Fresh(a, versions).Ok?
    ensures Fresh(b, versions) == Fresh(a, versions) <==> ':' !in b.salt && b.version == a.version
  {
    ValidSaltHasNoColon(a.salt);
    if ':' !in b.salt {
      JoinInjective(a.secret, a.salt, b.secret, b.salt);
    } else if Fresh(b, versions).Ok? {
      ValidSaltHasNoColon(b.salt);
    }
  }

  /** Calls with valid salts, and one KDF version for each secret and salt. */
  ghost predicate Uniform(calls: set<Derivation>) {
    (forall d :: d in calls ==> ':' !in d.salt)
    && forall a, b :: a in calls && b in calls && a.secret == b.secret && a.salt == b.salt ==> a.version == b.version
  }

  /** Every entry is what a fresh derivation for one of the calls gives. */
  ghost predicate CacheSound(s: State, calls: set<Derivation>, versions: set<int>) {
    (forall k :: k in s.cache ==> exists d :: d in calls && CacheKey(d) == k && Fresh(d, versions) == Ok(s.cache[k]))
    && (forall d :: d in s.pending ==> d in calls)
    && forall i :: 0 <= i < |s.answers| ==> s.answers[i].result == Fresh(s.answers[i].call, versions)
  }

  lemma {:induction false} StepSound(s: State, a: Action, s': State, calls: set<Derivation>, versions: set<int>)
    requires Uniform(calls) && a.call in calls
    requires CacheSound(s, calls, versions) && Next(s, a, s', versions)
    ensures CacheSound(s', calls, versions)
  {
    hide Fresh, CacheKey;
    if a.Hit? {
      var k := CacheKey(a.call);
      var d :| d in calls && CacheKey(d) == k && Fresh(d, versions) == Ok(s.cache[k]);
      SharingExact(d, a.call, versions);
      SharesVersion(d, a.call, calls);
    } else if a.Store? {
      assert a.call in calls;
    }
  }

  lemma {:induction false} SharesVersion(a: Derivation, b: Derivation, calls: set<Derivation>)
    requires Uniform(calls) && a in calls && b in calls && CacheKey(a) == CacheKey(b)
    ensures a.version == b.version
  {
    JoinInjective(a.secret, a.salt, b.secret, b.salt);
  }

  /** The cache is transparent: over every run, however the calls interleave, each is
      answered as if there were no cache. */
  lemma {:induction false} CacheTransparent(states: seq<State>, actions: seq<Action>, calls: set<Derivation>,
                                            versions: set<int>)
    requires Run(states, actions, versions) && Uniform(calls)
    requires forall i :: 0 <= i < |actions| ==> actions[i].call in calls
    ensures forall s, i :: s in states && 0 <= i < |s.answers| ==>
              s.answers[i].result == Fresh(s.answers[i].call, versions)
  {
    for n := 0 to |actions|
      invariant forall j :: 0 <= j <= n ==> CacheSound(states[j], calls, versions)
    {
      StepSound(states[n], actions[n], states[n + 1], calls, versions);
    }
  }

  /** And only then: two calls that share an entry but not the version, and the second
      gets the first one's key. */
  lemma {:induction false} VersionIsIgnored(a: Derivation, b: Derivation, versions: set<int>)
    requires CacheKey(a) == CacheKey(b) && Fresh(a, versions).Ok? && (':' in b.salt || b.version != a.version)
    ensures exists states: seq<State>, actions: seq<Action> ::
              Run(states, actions, versions) && |states| == 4
              && states[3].answers == [Answer(a, Fresh(a, versions)), Answer(b, Fresh(a, versions))]
              && Fresh(b, versions) != Fresh(a, versions)
  {
    hide Fresh, CacheKey;
    var derived := Fresh(a, versions);
    var s0 := State(map[], multiset{}, []);
    var s1 := s0.(pending := s0.pending + multiset{a});
    var s2 := State(s1.cache[CacheKey(a) := derived.value], s1.pending - multiset{a},
                    s1.answers + [Answer(a, derived)]);
    var s3 := s2.(answers := s2.answers + [Answer(b, Ok(s2.cache[CacheKey(b)]))]);
    var states, actions := [s0, s1, s2, s3], [Miss(a), Store(a), Hit(b)];
    assert Next(states[0], actions[0], states[1], versions);
    assert Next(states[1], actions[1], states[2], versions);
    assert Next(states[2], actions[2], states[3], versions);
    assert Run(states, actions, versions);
    SharingExact(a, b, versions);
  }
}
