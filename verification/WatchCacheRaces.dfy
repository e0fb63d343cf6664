/** Interleavings that bound what can be promised of the cache. Each of the three
    disturbances, with no other, occurs in a run that no order of whole operations
    explains, and the error of a long-past seed can surface exactly when that seed failed
    transiently. */
module WatchCacheRaces {
  import opened Wrappers
  import opened Types
  import opened Cache
  import opened WatchCache
  import opened WatchCacheLinear

  // ------------------------------------------------- building runs

  /** Some run leads from s0 to s and disturbs the requests rs in no other way. */
  ghost predicate MildlyReaches(s0: State, s: State, rs: set<nat>, kinds: set<Disturbance>) {
    exists acts :: Runs(s0, acts) && Mild(s0, acts, rs, kinds) && Final(s0, acts) == s
  }

  lemma {:induction false} Joined(s: State, acts: seq<Action>, more: seq<Action>, rs: set<nat>, kinds: set<Disturbance>)
    requires Runs(s, acts) && Mild(s, acts, rs, kinds)
    requires Runs(Final(s, acts), more) && Mild(Final(s, acts), more, rs, kinds)
    ensures Runs(s, acts + more) && Mild(s, acts + more, rs, kinds)
    ensures Final(s, acts + more) == Final(Final(s, acts), more)
    ensures Moments(s, acts + more)[|acts|] == Final(s, acts)
    decreases |acts|
  {
    if acts == [] {
      assert acts + more == more;
    } else {
      Joined(Apply(s, acts[0]), acts[1..], more, rs, kinds);
      assert (acts + more)[1..] == acts[1..] + more;
    }
  }

  lemma Stay(s: State, rs: set<nat>, kinds: set<Disturbance>)
    ensures MildlyReaches(s, s, rs, kinds)
  {
    assert Runs(s, []) && Mild(s, [], rs, kinds) && Final(s, []) == s;
  }

  /** One more action of a run being built. */
  lemma TakeMildly(s0: State, s: State, a: Action, rs: set<nat>, kinds: set<Disturbance>) returns (s': State)
    requires MildlyReaches(s0, s, rs, kinds) && Enabled(s, a) && MildStep(s, a, rs, kinds)
    ensures s' == Apply(s, a) && MildlyReaches(s0, s', rs, kinds)
  {
    var acts :| Runs(s0, acts) && Mild(s0, acts, rs, kinds) && Final(s0, acts) == s;
    s' := Apply(s, a);
    assert [a][1..] == [] && Runs(s', []) && Mild(s', [], rs, kinds) && Runs(s, [a]) && Mild(s, [a], rs, kinds);
    Joined(s0, acts, [a], rs, kinds);
  }

  lemma MildlyIsSomehow(s0: State, s: State, rs: set<nat>, kinds: set<Disturbance>)
    requires MildlyReaches(s0, s, rs, kinds)
    ensures Reaches(s0, s)
  {
  }

  /** The poller takes a batch of three events and sends them. */
  lemma BatchOfThree(s0: State, s: State, rs: set<nat>, kinds: set<Disturbance>) returns (s': State)
    requires MildlyReaches(s0, s, rs, kinds)
    requires s.poller.Top? && !s.cancelled && s.channel == []
    requires Current(s).index > s.lastIndex && |Current(s).instances| == 3
    ensures MildlyReaches(s0, s', rs, kinds)
    ensures var batch := Current(s).instances;
            s' == s.(poller := Emitting([]), channel := batch, lastIndex := Current(s).index,
                     baselineAt := Now(s), batch := batch)
  {
    s' := TakeMildly(s0, s, Poll(CheckCancelled), rs, kinds);
    s' := TakeMildly(s0, s', Poll(Answer), rs, kinds);
    s' := TakeMildly(s0, s', Poll(Decide), rs, kinds);
    s' := SendThree(s0, s', rs, kinds);
  }

  lemma SendThree(s0: State, s: State, rs: set<nat>, kinds: set<Disturbance>) returns (s': State)
    requires MildlyReaches(s0, s, rs, kinds)
    requires s.channel == [] && s.poller.Emitting? && |s.poller.rest| == 3
    ensures MildlyReaches(s0, s', rs, kinds)
    ensures s' == s.(poller := Emitting([]), channel := s.poller.rest)
  {
    var rest := s.poller.rest;
    s' := TakeMildly(s0, s, Poll(Send), rs, kinds);
    s' := TakeMildly(s0, s', Poll(Send), rs, kinds);
    s' := TakeMildly(s0, s', Poll(Send), rs, kinds);
    assert rest[1..][1..][1..] == [] && [] + [rest[0]] + [rest[1]] + [rest[2]] == rest;
  }

  lemma EventReceived(s0: State, s: State, rs: set<nat>, kinds: set<Disturbance>) returns (s': State)
    requires MildlyReaches(s0, s, rs, kinds) && s.writer.Waiting? && s.channel != []
    ensures MildlyReaches(s0, s', rs, kinds)
    ensures s' == s.(channel := s.channel[1..], writer := Resolving) && Choices(s') == Choices(s)
  {
    s' := TakeMildly(s0, s, Work(Receive), rs, kinds);
  }

  /** The consumer takes an event, finds nothing healthy, and clears the cache. */
  lemma EventClears(s0: State, s: State, rs: set<nat>, kinds: set<Disturbance>) returns (s': State)
    requires MildlyReaches(s0, s, rs, kinds)
    requires s.writer.Waiting? && s.channel != [] && Choices(s) == []
    requires ClearedUnderHit in kinds || s.readers == map[]
    ensures MildlyReaches(s0, s', rs, kinds)
    ensures s' == s.(channel := s.channel[1..], cache := Cleared(s.cache), readAt := Now(s),
                     last := Some(Resolve(Now(s), Failed(ErrNoHealthyInstances))),
                     outcomes := s.outcomes + [Failed(ErrNoHealthyInstances)])
  {
    s' := EventReceived(s0, s, rs, kinds);
    s' := TakeMildly(s0, s', Work(ResolvesEmpty), rs, kinds);
    s' := ClearCompletes(s0, s', rs, kinds);
  }

  lemma ClearCompletes(s0: State, s: State, rs: set<nat>, kinds: set<Disturbance>) returns (s': State)
    requires MildlyReaches(s0, s, rs, kinds)
    requires s.writer == Updating(ClearAuthEmpty)
    requires ClearedUnderHit in kinds || s.readers == map[]
    ensures MildlyReaches(s0, s', rs, kinds)
    ensures s' == s.(writer := Waiting, cache := Cleared(s.cache))
  {
    s' := TakeMildly(s0, s, Work(WriteNext), rs, kinds);
    s' := TakeMildly(s0, s', Work(WriteNext), rs, kinds);
  }

  /** The consumer takes an event, finds svc, and has written `current` only. */
  lemma EventStartsStore(s0: State, s: State, svc: Service, rs: set<nat>, kinds: set<Disturbance>) returns (s': State)
    requires MildlyReaches(s0, s, rs, kinds)
    requires s.writer.Waiting? && s.channel != [] && Choices(s) == [svc]
    ensures MildlyReaches(s0, s', rs, kinds)
    ensures s' == s.(channel := s.channel[1..], cache := s.cache.(current := Some(svc)), readAt := Now(s),
                     last := Some(Resolve(Now(s), Ok(svc))), outcomes := s.outcomes + [Ok(svc)],
                     log := s.log + [Entry(svc, Now(s))], writer := Updating(StoreAuthEmpty))
  {
    s' := EventReceived(s0, s, rs, kinds);
    s' := EventFinds(s0, s', svc, rs, kinds);
    s' := TakeMildly(s0, s', Work(WriteNext), rs, kinds);
  }

  lemma EventFinds(s0: State, s: State, svc: Service, rs: set<nat>, kinds: set<Disturbance>) returns (s': State)
    requires MildlyReaches(s0, s, rs, kinds) && s.writer.Resolving? && Choices(s) == [svc]
    ensures MildlyReaches(s0, s', rs, kinds)
    ensures s' == s.(readAt := Now(s), last := Some(Resolve(Now(s), Ok(svc))), outcomes := s.outcomes + [Ok(svc)],
                     writer := Updating(StoreCurrent(svc)))
  {
    s' := TakeMildly(s0, s, Work(Resolves(0)), rs, kinds);
  }

  /** A request begins and makes its first load. */
  lemma RequestBegins(s0: State, s: State, r: nat, rs: set<nat>, kinds: set<Disturbance>) returns (s': State)
    requires MildlyReaches(s0, s, rs, kinds)
    requires WatchStarted(s) && r !in s.readers
    ensures MildlyReaches(s0, s', rs, kinds)
    ensures s' == s.(readers := s.readers[r := if s.cache.seeded then LoadCurrent(|s.log|) else LoadAuthEmpty(|s.log|)])
  {
    s' := TakeMildly(s0, s, Begin(r), rs, kinds);
    s' := TakeMildly(s0, s', Load(r), rs, kinds);
    assert s.readers[r := LoadSeeded(|s.log|)][r := s'.readers[r]] == s.readers[r := s'.readers[r]];
  }

  lemma StoreCompletes(s0: State, s: State, rs: set<nat>, kinds: set<Disturbance>) returns (s': State)
    requires MildlyReaches(s0, s, rs, kinds)
    requires s.writer == Updating(StoreAuthEmpty) && s.readers == map[]
    ensures MildlyReaches(s0, s', rs, kinds)
    ensures s' == s.(writer := Waiting, cache := s.cache.(authEmpty := false, seeded := true))
  {
    s' := TakeMildly(s0, s, Work(WriteNext), rs, kinds);
    s' := TakeMildly(s0, s', Work(WriteNext), rs, kinds);
  }

  // ------------------------------------------------- the runs

  /** An instance of the service that carries the tag. */
  function Passing(tag: string, id: string): Instance {
    Instance(ZERO_SERVICE.(id := id, tags := [tag]), true)
  }

  const OLD := "svc-a-1"

  /** An instance that neither OLD is nor the seed has found. */
  function New(o: Outcome): string {
    OLD + "+" + (if o.Ok? then o.svc.id else "")
  }

  lemma NewIsNew(o: Outcome)
    ensures New(o) != OLD && (o.Ok? ==> New(o) != o.svc.id)
  {
    assert |New(o)| > |OLD| && (o.Ok? ==> |New(o)| > |o.svc.id|);
  }

  /** A seed can have the outcome: what it finds carries the tag. */
  predicate Possible(tag: string, o: Outcome) {
    o.Ok? ==> tag == "" || tag in o.svc.tags
  }

  /** The catalogue before a seed with the outcome o. */
  function Offer(o: Outcome): Catalog {
    Catalog(1, if o.Ok? then [Instance(o.svc, true)] else [])
  }

  /** A resolver before a seed with the outcome o. */
  function Start(tag: string, o: Outcome): State {
    Init(tag, Offer(o))
  }

  lemma SomeAreHealthy(tag: string, i: Instance)
    requires i.passing && (tag == "" || tag in i.svc.tags)
    ensures Healthy([], tag) == [] && Healthy([i], tag) == [i.svc]
  {
    assert [i][..0] == [];
  }

  /** The catalogue changes. */
  function Changed(s: State, instances: seq<Instance>): State {
    s.(history := s.history + [Catalog(Current(s).index + 1, instances)])
  }

  lemma CatalogChanges(s0: State, s: State, instances: seq<Instance>, rs: set<nat>, kinds: set<Disturbance>)
    returns (s': State)
    requires MildlyReaches(s0, s, rs, kinds)
    ensures s' == Changed(s, instances) && MildlyReaches(s0, s', rs, kinds)
    ensures Choices(s') == Healthy(instances, s.tag)
  {
    s' := TakeMildly(s0, s, Change(Catalog(Current(s).index + 1, instances)), rs, kinds);
  }

  /** Where the runs begin: seeded with the outcome o, the watch about to be opened. */
  predicate SeededWith(s: State, tag: string, o: Outcome) {
    && s.tag == tag && s.writer.Opening? && s.poller.Unborn? && s.channel == [] && s.readers == map[]
    && s.lastIndex == 0 && !s.cancelled && s.seed == Some(o) && s.outcomes == []
    && s.cache == Seeded(EMPTY_FLAGS, o)
  }

  lemma SeedFinds(tag: string, o: Outcome, rs: set<nat>, kinds: set<Disturbance>) returns (s: State)
    requires Possible(tag, o) && o.Ok?
    ensures MildlyReaches(Start(tag, o), s, rs, kinds) && SeededWith(s, tag, o)
  {
    var s0 := Start(tag, o);
    SomeAreHealthy(tag, Instance(o.svc, true));
    Stay(s0, rs, kinds);
    s := TakeMildly(s0, s0, Work(SeedResolves(0)), rs, kinds);
    s := TakeMildly(s0, s, Work(WriteNext), rs, kinds);
    s := TakeMildly(s0, s, Work(WriteNext), rs, kinds);
    s := TakeMildly(s0, s, Work(WriteNext), rs, kinds);
  }

  lemma SeedMisses(tag: string, o: Outcome, rs: set<nat>, kinds: set<Disturbance>) returns (s: State)
    requires o.Failed?
    ensures MildlyReaches(Start(tag, o), s, rs, kinds) && SeededWith(s, tag, o)
  {
    var s0 := Start(tag, o);
    Stay(s0, rs, kinds);
    if o.error == ErrNoHealthyInstances {
      s := TakeMildly(s0, s0, Work(SeedEmpty), rs, kinds);
    } else {
      s := TakeMildly(s0, s0, Work(SeedFails(o.error)), rs, kinds);
    }
  }

  /** The watch is open, and three events wait. */
  predicate ReadyWith(s: State, tag: string, o: Outcome) {
    && s.tag == tag && s.writer.Waiting? && |s.channel| == 3 && s.readers == map[]
    && s.seed == Some(o) && s.outcomes == [] && s.cache == Seeded(EMPTY_FLAGS, o)
  }

  lemma ThreeEventsWait(tag: string, o: Outcome, rs: set<nat>, kinds: set<Disturbance>) returns (s: State)
    requires Possible(tag, o)
    ensures MildlyReaches(Start(tag, o), s, rs, kinds) && ReadyWith(s, tag, o)
  {
    var s0, i := Start(tag, o), Passing(tag, OLD);
    if o.Ok? {
      s := SeedFinds(tag, o, rs, kinds);
    } else {
      s := SeedMisses(tag, o, rs, kinds);
    }
    s := TakeMildly(s0, s, Work(OpenWatch), rs, kinds);
    s := CatalogChanges(s0, s, [i, i, i], rs, kinds);
    s := BatchOfThree(s0, s, rs, kinds);
  }

  /** The first event stores the old instance. */
  lemma OldIsStored(tag: string, o: Outcome, rs: set<nat>, kinds: set<Disturbance>) returns (s: State)
    requires Possible(tag, o)
    ensures MildlyReaches(Start(tag, o), s, rs, kinds)
    ensures s.tag == tag && s.writer.Waiting? && |s.channel| == 2 && s.readers == map[]
    ensures s.seed == Some(o) && s.outcomes == [Ok(Passing(tag, OLD).svc)] && s.cache.seeded
  {
    var s0 := Start(tag, o);
    SomeAreHealthy(tag, Passing(tag, OLD));
    s := ThreeEventsWait(tag, o, rs, kinds);
    s := CatalogChanges(s0, s, [Passing(tag, OLD)], rs, kinds);
    s := EventStartsStore(s0, s, Passing(tag, OLD).svc, rs, kinds);
    s := StoreCompletes(s0, s, rs, kinds);
  }

  /** From there request 0 finds the cache seeded; it is cleared, and a store of the new
      instance has written `current`: request 0 returns that. */
  lemma HitOfAnUnfinishedStore(tag: string, o: Outcome, m: State) returns (s: State)
    requires m.tag == tag && m.writer.Waiting? && |m.channel| == 2 && m.readers == map[]
    requires m.seed == Some(o) && m.outcomes == [Ok(Passing(tag, OLD).svc)] && m.cache.seeded
    ensures MildlyReaches(m, s, {0, 1}, {ClearedUnderHit})
    ensures s.writer == Updating(StoreAuthEmpty) && s.seed == Some(o)
    ensures s.outcomes == [Ok(Passing(tag, OLD).svc), Failed(ErrNoHealthyInstances), Ok(Passing(tag, New(o)).svc)]
    ensures !s.cache.seeded && s.cache.authEmpty
    ensures s.readers.Keys == {0} && s.readers[0].Finished? && s.readers[0].reading == Hit(Passing(tag, New(o)).svc)
  {
    var rs, kinds := {0, 1}, {ClearedUnderHit};
    SomeAreHealthy(tag, Passing(tag, New(o)));
    s := HitMeetsClear(m, rs, kinds);
    s := CatalogChanges(m, s, [Passing(tag, New(o))], rs, kinds);
    s := EventStartsStore(m, s, Passing(tag, New(o)).svc, rs, kinds);
    s := TakeMildly(m, s, Load(0), rs, kinds);
  }

  /** Request 0 finds the cache seeded, and then it is cleared. */
  lemma HitMeetsClear(m: State, rs: set<nat>, kinds: set<Disturbance>) returns (s: State)
    requires ClearedUnderHit in kinds && m.writer.Waiting? && |m.channel| == 2 && m.readers == map[] && m.cache.seeded
    ensures MildlyReaches(m, s, rs, kinds)
    ensures s.tag == m.tag && s.writer.Waiting? && |s.channel| == 1 && s.seed == m.seed
    ensures s.outcomes == m.outcomes + [Failed(ErrNoHealthyInstances)] && s.cache == Cleared(m.cache)
    ensures s.readers == map[0 := LoadCurrent(|m.log|)]
  {
    Stay(m, rs, kinds);
    s := RequestBegins(m, m, 0, rs, kinds);
    s := CatalogChanges(m, s, [], rs, kinds);
    s := EventClears(m, s, rs, kinds);
  }

  /** The seed fails, the first event clears the cache for good reason, and two events
      wait. */
  lemma ClearedAfterFailedSeed(tag: string, e: Error, rs: set<nat>, kinds: set<Disturbance>) returns (s: State)
    requires Transient(Failed(e))
    ensures MildlyReaches(Start(tag, Failed(e)), s, rs, kinds) && ClearedWith(s, tag, e)
  {
    var s0 := Start(tag, Failed(e));
    s := ThreeEventsWait(tag, Failed(e), rs, kinds);
    s := CatalogChanges(s0, s, [], rs, kinds);
    s := EventClears(s0, s, rs, kinds);
  }

  predicate ClearedWith(s: State, tag: string, e: Error) {
    && s.tag == tag && s.writer.Waiting? && |s.channel| == 2 && s.readers == map[]
    && s.seed == Some(Failed(e)) && s.outcomes == [Failed(ErrNoHealthyInstances)]
    && s.cache == Flags(None, false, true, Some(e))
  }

  /** From there request 0 finds the cache unseeded, and a store has lowered `authEmpty`
      but not yet raised `seeded`. */
  lemma MissMeetsStore(tag: string, e: Error, mid: State, kinds: set<Disturbance>) returns (s: State)
    requires Transient(Failed(e)) && ClearedWith(mid, tag, e)
    ensures MildlyReaches(mid, s, {0}, kinds)
    ensures s.writer == Updating(StoreSeeded) && s.readers.Keys == {0} && s.readers[0].LoadAuthEmpty?
    ensures s.seed == Some(Failed(e)) && s.outcomes == [Failed(ErrNoHealthyInstances), Ok(Passing(tag, OLD).svc)]
    ensures s.cache == Flags(Some(Passing(tag, OLD).svc), false, false, Some(e))
  {
    var rs := {0};
    SomeAreHealthy(tag, Passing(tag, OLD));
    Stay(mid, rs, kinds);
    s := RequestBegins(mid, mid, 0, rs, kinds);
    s := CatalogChanges(mid, s, [Passing(tag, OLD)], rs, kinds);
    s := EventStartsStore(mid, s, Passing(tag, OLD).svc, rs, kinds);
    s := TakeMildly(mid, s, Work(WriteNext), rs, kinds);
  }

  /** The rest of request 0's loads, in the middle of the store or after it: it surfaces
      the seed's error. */
  lemma SeedErrorSurfaces(tag: string, e: Error, mid: State, duringStore: bool) returns (s: State)
    requires Transient(Failed(e)) && ClearedWith(mid, tag, e)
    ensures MildlyReaches(mid, s, {0}, {if duringStore then StaleLoad else StoredUnderMiss})
    ensures s.seed == Some(Failed(e)) && s.outcomes == [Failed(ErrNoHealthyInstances), Ok(Passing(tag, OLD).svc)]
    ensures 0 in s.readers && s.readers[0].Finished? && s.readers[0].reading == Miss(e)
  {
    var rs, kinds := {0}, {if duringStore then StaleLoad else StoredUnderMiss};
    s := MissMeetsStore(tag, e, mid, kinds);
    if !duringStore {
      s := TakeMildly(mid, s, Work(WriteNext), rs, kinds);
    }
    s := MissFinishes(mid, s, e, rs, kinds);
  }

  lemma MissFinishes(s0: State, s: State, e: Error, rs: set<nat>, kinds: set<Disturbance>) returns (s': State)
    requires MildlyReaches(s0, s, rs, kinds) && (StaleLoad in kinds || !s.writer.Updating?)
    requires 0 in s.readers && s.readers[0].LoadAuthEmpty? && !s.cache.authEmpty && s.cache.seedErr == Some(e)
    ensures MildlyReaches(s0, s', rs, kinds)
    ensures (s'.seed, s'.outcomes) == (s.seed, s.outcomes)
    ensures 0 in s'.readers && s'.readers[0].Finished? && s'.readers[0].reading == Miss(e)
  {
    s' := TakeMildly(s0, s, Load(0), rs, kinds);
    s' := TakeMildly(s0, s', Load(0), rs, kinds);
  }

  // ------------------------------------------------- no explanation

  /** No order of whole operations gives the answers and respects real time at m. */
  ghost predicate Inexplicable(m: State, end: State, rs: set<nat>) {
    forall k :: !(Yields(end, rs, k) && InOrder(m, end, rs, k))
  }

  lemma InexplicableRun(s0: State, m: State, end: State, rs: set<nat>, kinds: set<Disturbance>)
    returns (acts: seq<Action>)
    requires MildlyReaches(s0, m, rs, kinds) && MildlyReaches(m, end, rs, kinds) && Inexplicable(m, end, rs)
    ensures Runs(s0, acts) && Mild(s0, acts, rs, kinds) && Final(s0, acts) == end && !Linearizable(s0, acts, rs)
  {
    var first :| Runs(s0, first) && Mild(s0, first, rs, kinds) && Final(s0, first) == m;
    var second :| Runs(m, second) && Mild(m, second, rs, kinds) && Final(m, second) == end;
    Joined(s0, first, second, rs, kinds);
    acts := first + second;
    NotExplained(Moments(s0, acts), |first|, m, end, rs);
  }

  lemma NotExplained(ms: seq<State>, i: nat, m: State, end: State, rs: set<nat>)
    requires i < |ms| && ms[i] == m && ms[|ms| - 1] == end && Inexplicable(m, end, rs)
    ensures !exists k :: Explains(ms, rs, k)
  {
    forall k
      ensures !Explains(ms, rs, k)
    {
      assert !(Yields(end, rs, k) && InOrder(m, end, rs, k));
    }
  }

  /** The sequential resolver of the runs above. */
  lemma AfterTwo(s: State, seed: Outcome, o1: Outcome, o2: Outcome)
    requires s.seed == Some(seed) && |s.outcomes| >= 2 && s.outcomes[0] == o1 && s.outcomes[1] == o2
    ensures var c := Seeded(EMPTY_FLAGS, seed);
            After(s, 0) == c && After(s, 1) == Updated(c, o1) && After(s, 2) == Updated(Updated(c, o1), o2)
  {
    var c := Seeded(EMPTY_FLAGS, seed);
    assert s.outcomes[..0] == [] && s.outcomes[..1] == [o1] && s.outcomes[..2] == [o1, o2];
    assert [o1][..0] == [] && [o1, o2][..1] == [o1];
    assert AfterUpdates(c, [o1]) == Updated(c, o1);
  }

  /** Request 1 then begins, and finds nothing. */
  lemma MissAfterIt(tag: string, m: State) returns (s: State)
    requires m.writer == Updating(StoreAuthEmpty) && !m.cache.seeded && m.cache.authEmpty && m.readers.Keys == {0}
    ensures MildlyReaches(m, s, {0, 1}, {ClearedUnderHit})
    ensures (s.seed, s.outcomes) == (m.seed, m.outcomes)
    ensures 0 in s.readers && s.readers[0] == m.readers[0]
    ensures 1 in s.readers && s.readers[1].Finished? && s.readers[1].reading == Miss(ErrNoHealthyInstances)
  {
    var rs, kinds := {0, 1}, {ClearedUnderHit};
    Stay(m, rs, kinds);
    s := RequestBegins(m, m, 1, rs, kinds);
    s := TakeMildly(m, s, Load(1), rs, kinds);
  }

  /** A hit overtaken by a clear, whatever the seed's outcome: request 0 returns the new
      instance, stored by nothing but the last operation; request 1, begun after that,
      finds nothing, as only the one before leaves it. */
  lemma HitsAreNotLinearizable(tag: string, o: Outcome) returns (acts: seq<Action>)
    requires Possible(tag, o)
    ensures Runs(Start(tag, o), acts) && Mild(Start(tag, o), acts, {0, 1}, {ClearedUnderHit})
    ensures Final(Start(tag, o), acts).seed == Some(o)
    ensures !Linearizable(Start(tag, o), acts, {0, 1})
  {
    var rs, kinds := {0, 1}, {ClearedUnderHit};
    var before := OldIsStored(tag, o, rs, kinds);
    var m := HitOfAnUnfinishedStore(tag, o, before);
    MildlyThen(Start(tag, o), before, m, rs, kinds);
    var s := MissAfterIt(tag, m);
    NothingAfterTheNew(tag, o, m, s);
    acts := InexplicableRun(Start(tag, o), m, s, rs, kinds);
  }

  lemma MildlyThen(s0: State, m: State, s: State, rs: set<nat>, kinds: set<Disturbance>)
    requires MildlyReaches(s0, m, rs, kinds) && MildlyReaches(m, s, rs, kinds)
    ensures MildlyReaches(s0, s, rs, kinds)
  {
    var first :| Runs(s0, first) && Mild(s0, first, rs, kinds) && Final(s0, first) == m;
    var second :| Runs(m, second) && Mild(m, second, rs, kinds) && Final(m, second) == s;
    Joined(s0, first, second, rs, kinds);
  }

  lemma NothingAfterTheNew(tag: string, o: Outcome, m: State, s: State)
    requires s.seed == Some(o)
    requires s.outcomes == [Ok(Passing(tag, OLD).svc), Failed(ErrNoHealthyInstances), Ok(Passing(tag, New(o)).svc)]
    requires Done(m, 0) && Done(s, 0) && Done(s, 1) && 1 !in m.readers
    requires s.readers[0].reading == Hit(Passing(tag, New(o)).svc) && s.readers[1].reading == Miss(ErrNoHealthyInstances)
    ensures Inexplicable(m, s, {0, 1})
  {
    NewIsNew(o);
    AfterTwo(s, o, Ok(Passing(tag, OLD).svc), Failed(ErrNoHealthyInstances));
    assert s.outcomes[..3] == s.outcomes && s.outcomes[..3][..2] == s.outcomes[..2];
    assert After(s, 3) == Updated(After(s, 2), s.outcomes[2]);
    assert Passing(tag, OLD).svc.id == OLD && Passing(tag, New(o)).svc.id == New(o);
  }

  /** A miss overtaken by a store, or one that meets it in the middle: begun after the
      clear was over, it surfaces the seed's error, which no operation leaves from then
      on. */
  lemma MissesAreNotLinearizable(tag: string, e: Error, duringStore: bool) returns (acts: seq<Action>)
    requires Transient(Failed(e))
    ensures var kind := if duringStore then StaleLoad else StoredUnderMiss;
            Runs(Start(tag, Failed(e)), acts) && Mild(Start(tag, Failed(e)), acts, {0}, {kind})
    ensures Final(Start(tag, Failed(e)), acts).seed == Some(Failed(e))
    ensures !Linearizable(Start(tag, Failed(e)), acts, {0})
  {
    var rs, kinds := {0}, {if duringStore then StaleLoad else StoredUnderMiss};
    var m := ClearedAfterFailedSeed(tag, e, rs, kinds);
    var s := SeedErrorSurfaces(tag, e, m, duringStore);
    assert Done(s, 0) && 0 !in m.readers && Over(m) == 1;
    AfterTwo(s, Failed(e), Failed(ErrNoHealthyInstances), Ok(Passing(tag, OLD).svc));
    assert Inexplicable(m, s, rs);
    acts := InexplicableRun(Start(tag, Failed(e)), m, s, rs, kinds);
  }

  lemma {:induction false} MildlierIsMild(s: State, acts: seq<Action>, rs: set<nat>, few: set<Disturbance>, kinds: set<Disturbance>)
    requires Runs(s, acts) && Mild(s, acts, rs, few) && few <= kinds
    ensures Mild(s, acts, rs, kinds)
    decreases |acts|
  {
    if acts != [] {
      MildlierIsMild(Apply(s, acts[0]), acts[1..], rs, few, kinds);
    }
  }

  /** Whether, in every run whose seed has the outcome o, requests that are disturbed in no
      other way than these are linearizable. */
  ghost predicate AlwaysLinearizableAfter(tag: string, o: Outcome, kinds: set<Disturbance>) {
    forall c: Catalog, acts: seq<Action>, rs: set<nat> ::
      && Runs(Init(tag, c), acts) && Final(Init(tag, c), acts).seed == Some(o)
      && Mild(Init(tag, c), acts, rs, kinds)
      ==> Linearizable(Init(tag, c), acts, rs)
  }

  /** Without a seed error to show, only a clear can disturb a request. */
  lemma {:induction false} OnlyClearsDisturb(s: State, acts: seq<Action>, rs: set<nat>, kinds: set<Disturbance>)
    requires s.readers != map[] ==> WatchStarted(s)
    requires Runs(s, acts) && Mild(s, acts, rs, kinds) && ClearedUnderHit !in kinds
    requires Final(s, acts).seed.Some? && !Transient(Final(s, acts).seed.value)
    ensures Mild(s, acts, rs, {})
    decreases |acts|
  {
    if acts != [] {
      var a, s' := acts[0], Apply(s, acts[0]);
      ReadersComeLate(s, a);
      OnlyClearsDisturb(s', acts[1..], rs, kinds);
      if s.readers != map[] { SeedStays(s, acts); }
      assert MildStep(s, a, rs, {});
    }
  }

  lemma ReadersComeLate(s: State, a: Action)
    requires (s.readers != map[] ==> WatchStarted(s)) && Enabled(s, a)
    ensures Apply(s, a).readers != map[] ==> WatchStarted(Apply(s, a))
    ensures WatchStarted(s) ==> Apply(s, a).seed == s.seed && WatchStarted(Apply(s, a))
  {
    match a {
      case Work(w) => WorkFrame(s, w);
      case Poll(p) => PollFrame(s, p);
      case _ =>
    }
  }

  lemma {:induction false} SeedStays(s: State, acts: seq<Action>)
    requires s.readers != map[] && WatchStarted(s) && Runs(s, acts)
    ensures Final(s, acts).seed == s.seed
    decreases |acts|
  {
    if acts != [] {
      ReadersComeLate(s, acts[0]);
      ReadersStay(s, acts[0]);
      SeedStays(Apply(s, acts[0]), acts[1..]);
    }
  }

  lemma ReadersStay(s: State, a: Action)
    requires s.readers != map[] && Enabled(s, a)
    ensures Apply(s, a).readers != map[]
  {
    var r :| r in s.readers;
    assert r in Apply(s, a).readers by {
      match a {
        case Work(w) => WorkFrame(s, w);
        case Poll(p) => PollFrame(s, p);
        case _ =>
      }
    }
  }

  /** A run that shows it, when some disturbance that the seed's outcome allows is in
      `kinds`. */
  lemma NotLinearizableAfter(tag: string, o: Outcome, kinds: set<Disturbance>)
    requires Possible(tag, o) && kinds != {} && (Transient(o) || ClearedUnderHit in kinds)
    ensures !AlwaysLinearizableAfter(tag, o, kinds)
  {
    var rs, acts, kind := {0, 1}, [], ClearedUnderHit;
    if ClearedUnderHit in kinds {
      acts := HitsAreNotLinearizable(tag, o);
    } else {
      kind :| kind in kinds;
      rs := {0};
      acts := MissesAreNotLinearizable(tag, o.error, kind == StaleLoad);
    }
    MildlierIsMild(Start(tag, o), acts, rs, {kind}, kinds);
  }

  /** No other seed is possible. */
  lemma ImpossibleSeeds(tag: string, o: Outcome, c: Catalog, acts: seq<Action>)
    requires Runs(Init(tag, c), acts) && Final(Init(tag, c), acts).seed == Some(o)
    ensures Possible(tag, o)
  {
    SeedsArePossible(Init(tag, c), acts);
  }

  lemma {:induction false} SeedsArePossible(s: State, acts: seq<Action>)
    requires Runs(s, acts) && (s.seed.Some? ==> Possible(s.tag, s.seed.value))
    ensures Final(s, acts).tag == s.tag
    ensures Final(s, acts).seed.Some? ==> Possible(s.tag, Final(s, acts).seed.value)
    decreases |acts|
  {
    if acts != [] {
      SeedIsPossible(s, acts[0]);
      SeedsArePossible(Apply(s, acts[0]), acts[1..]);
    }
  }

  lemma SeedIsPossible(s: State, a: Action)
    requires Enabled(s, a) && (s.seed.Some? ==> Possible(s.tag, s.seed.value))
    ensures Apply(s, a).tag == s.tag
    ensures Apply(s, a).seed.Some? ==> Possible(s.tag, Apply(s, a).seed.value)
  {
    match a {
      case Work(w) =>
        WorkFrame(s, w);
        if w.SeedResolves? { HealthyCarryTag(Current(s).instances, s.tag, w.k); }
      case Poll(p) => PollFrame(s, p);
      case _ =>
    }
  }

  lemma {:induction false} HealthyCarryTag(instances: seq<Instance>, tag: string, k: nat)
    requires k < |Healthy(instances, tag)|
    ensures tag == "" || tag in Healthy(instances, tag)[k].tags
  {
    var before := instances[..|instances| - 1];
    if k < |Healthy(before, tag)| {
      HealthyCarryTag(before, tag, k);
    }
  }

  /** Exactly when the cache is linearizable, by what the seed found, a fact known before
      any request: requests disturbed in no other way than `kinds` are linearizable in
      every run if and only if no way is allowed, or the seed cannot have this outcome, or
      it did not fail transiently and no clear may overtake a hit. */
  lemma LinearizableExactly(tag: string, o: Outcome, kinds: set<Disturbance>)
    ensures AlwaysLinearizableAfter(tag, o, kinds)
            <==> kinds == {} || !Possible(tag, o) || (!Transient(o) && ClearedUnderHit !in kinds)
  {
    if kinds == {} || !Possible(tag, o) || (!Transient(o) && ClearedUnderHit !in kinds) {
      forall c: Catalog, acts: seq<Action>, rs: set<nat> |
        && Runs(Init(tag, c), acts) && Final(Init(tag, c), acts).seed == Some(o)
        && Mild(Init(tag, c), acts, rs, kinds)
        ensures Linearizable(Init(tag, c), acts, rs)
      {
        ImpossibleSeeds(tag, o, c, acts);
        if kinds != {} { OnlyClearsDisturb(Init(tag, c), acts, rs, kinds); }
        UndisturbedRequestsAreLinearizable(tag, c, acts, rs);
      }
    } else {
      NotLinearizableAfter(tag, o, kinds);
    }
  }

  // ------------------------------------------------- the stale seed error

  /** Some request that began on a cache cleared authoritatively, after the seed had the
      outcome o, surfaces another error than that of an empty catalogue. */
  ghost predicate SurfacesStaleError(tag: string, o: Outcome) {
    exists c: Catalog, m: State, s: State, r: nat, e: Error ::
      && Reaches(Init(tag, c), m) && Reaches(m, s)
      && m.seed == Some(o) && m.writer.Waiting? && !m.cache.seeded && m.cache.authEmpty
      && r !in m.readers && r in s.readers && s.readers[r].Finished?
      && s.readers[r].reading == Miss(e) && e != ErrNoHealthyInstances
  }

  /** Every error comes from an empty catalogue or is that of the seed. */
  predicate ErrorsOk(s: State) {
    && (s.writer.Seeding? ==> s.cache.seedErr == None)
    && (s.cache.seedErr.Some? ==> s.seed == Some(Failed(s.cache.seedErr.value)))
    && (s.readers != map[] ==> WatchStarted(s))
    && forall r :: r in s.readers && s.readers[r].Finished? && s.readers[r].reading.Miss? ==>
         var e := s.readers[r].reading.error;
         e == ErrNoHealthyInstances || s.seed == Some(Failed(e))
  }

  /** The writer says nothing new once requests may read. */
  lemma WorkKeepsErrors(s: State, w: WorkStep)
    requires ErrorsOk(s) && WorkEnabled(s, w)
    ensures var s' := WorkNext(s, w);
            && (s'.writer.Seeding? ==> s'.cache.seedErr == None)
            && (s'.cache.seedErr.Some? ==> s'.seed == Some(Failed(s'.cache.seedErr.value)))
            && (WatchStarted(s) ==> s'.seed == s.seed && WatchStarted(s'))
  {
  }

  lemma StepKeepsErrors(s: State, a: Action)
    requires ErrorsOk(s) && Enabled(s, a)
    ensures ErrorsOk(Apply(s, a))
    ensures WatchStarted(s) ==> Apply(s, a).seed == s.seed && WatchStarted(Apply(s, a))
  {
    match a {
      case Work(w) => WorkKeepsErrors(s, w); WorkFrame(s, w);
      case Poll(p) => PollFrame(s, p);
      case _ =>
    }
  }

  lemma {:induction false} RunKeepsErrors(s: State, acts: seq<Action>)
    requires ErrorsOk(s) && Runs(s, acts)
    ensures ErrorsOk(Final(s, acts))
    ensures WatchStarted(s) ==> Final(s, acts).seed == s.seed
    decreases |acts|
  {
    if acts != [] {
      StepKeepsErrors(s, acts[0]);
      RunKeepsErrors(Apply(s, acts[0]), acts[1..]);
    }
  }

  /** In every run each error is that of an empty catalogue or the seed's. */
  lemma ErrorsAreTheSeeds(tag: string, c: Catalog, m: State, s: State, r: nat)
    requires Reaches(Init(tag, c), m) && m.writer.Waiting? && Reaches(m, s)
    requires r in s.readers && s.readers[r].Finished? && s.readers[r].reading.Miss?
    ensures var e := s.readers[r].reading.error;
            e == ErrNoHealthyInstances || m.seed == Some(Failed(e))
  {
    var first :| Runs(Init(tag, c), first) && Final(Init(tag, c), first) == m;
    var second :| Runs(m, second) && Final(m, second) == s;
    RunKeepsErrors(Init(tag, c), first);
    RunKeepsErrors(m, second);
  }

  lemma TransientSeedsSurface(tag: string, e: Error)
    requires Transient(Failed(e))
    ensures SurfacesStaleError(tag, Failed(e))
  {
    var m := ClearedAfterFailedSeed(tag, e, {0}, {StaleLoad});
    var s := SeedErrorSurfaces(tag, e, m, true);
    MildlyIsSomehow(Start(tag, Failed(e)), m, {0}, {StaleLoad});
    MildlyIsSomehow(m, s, {0}, {StaleLoad});
    assert s.readers[0].reading == Miss(e);
  }

  /** Exactly when the promise of an empty cache is kept: a request begun after an
      authoritative clear can surface an error other than ErrNoHealthyInstances if and
      only if the seed failed transiently. */
  lemma StaleErrorExactly(tag: string, o: Outcome)
    ensures SurfacesStaleError(tag, o) <==> Transient(o)
  {
    if SurfacesStaleError(tag, o) {
      var c: Catalog, m: State, s: State, r: nat, e: Error :|
        && Reaches(Init(tag, c), m) && Reaches(m, s)
        && m.seed == Some(o) && m.writer.Waiting? && !m.cache.seeded && m.cache.authEmpty
        && r !in m.readers && r in s.readers && s.readers[r].Finished?
        && s.readers[r].reading == Miss(e) && e != ErrNoHealthyInstances;
      ErrorsAreTheSeeds(tag, c, m, s, r);
    }
    if Transient(o) {
      TransientSeedsSurface(tag, o.error);
    }
  }
}
