/** Which requests of the concurrent protocol are explained by one order of whole
    operations, and the three ways in which a write can spoil that. */
module WatchCacheLinear {
  import opened Wrappers
  import opened Types
  import opened Cache
  import opened WatchCache
  import opened WatchCacheReads
  import opened WatchCacheRefines

  // ------------------------------------------------- sequential explanations

  /** The sequential resolver after the seed and the first n outcomes. */
  function After(s: State, n: nat): Flags
    requires n <= |s.outcomes|
  {
    AfterUpdates(if s.seed.Some? then Seeded(EMPTY_FLAGS, s.seed.value) else EMPTY_FLAGS, s.outcomes[..n])
  }

  /** How many updates are over, their writes included. */
  function Over(s: State): nat {
    if s.writer.Updating? && s.outcomes != [] then |s.outcomes| - 1 else |s.outcomes|
  }

  predicate Done(s: State, r: nat) {
    r in s.readers && s.readers[r].Finished?
  }

  /** The states of a run, from first to last. */
  function Moments(s: State, acts: seq<Action>): (ms: seq<State>)
    requires Runs(s, acts)
    ensures |ms| == |acts| + 1 && ms[0] == s && ms[|acts|] == Final(s, acts)
    decreases |acts|
  {
    if acts == [] then [s] else [s] + Moments(Apply(s, acts[0]), acts[1..])
  }

  /** Real time at the moment m of a run that finishes in end, for the requests rs: one
      that has not begun comes after every update that is over, one that has finished
      comes before every update not yet begun, and before the ones that have not begun. */
  predicate InOrder(m: State, end: State, rs: set<nat>, k: map<nat, nat>) {
    && (forall r :: r in rs && r in k && Done(end, r) && r !in m.readers ==> Over(m) <= k[r])
    && (forall r :: r in rs && r in k && Done(m, r) ==> k[r] <= |m.outcomes|)
    && (forall q, r :: q in rs && r in rs && q in k && r in k ==>
          Done(m, q) && Done(end, r) && r !in m.readers ==> k[q] <= k[r])
  }

  /** Every answer is what the sequential resolver says after k[r] updates. */
  predicate Yields(end: State, rs: set<nat>, k: map<nat, nat>) {
    forall r :: r in rs && Done(end, r) ==>
      r in k && k[r] <= |end.outcomes| && end.readers[r].reading == Observe(After(end, k[r]))
  }

  /** Putting each finished request r of rs between update number k[r] and the next gives
      an order of whole operations that respects real time and yields every answer. */
  predicate Explains(ms: seq<State>, rs: set<nat>, k: map<nat, nat>)
    requires ms != []
  {
    var end := ms[|ms| - 1];
    && Yields(end, rs, k)
    && (forall i :: 0 <= i < |ms| ==> InOrder(ms[i], end, rs, k))
  }

  /** The requests rs of a run are linearizable. */
  ghost predicate Linearizable(s: State, acts: seq<Action>, rs: set<nat>)
    requires Runs(s, acts)
  {
    exists k :: Explains(Moments(s, acts), rs, k)
  }

  // ------------------------------------------------- disturbances

  /** What can come between the loads of a request: the last write of a clear, between
      the loads of a hit; or, after a seed that failed transiently, the last write of a
      store, between the loads of a miss, or a miss that looks at `authEmpty` when a store
      has lowered it again after a clear but has not raised `seeded`. */
  datatype Disturbance = ClearedUnderHit | StoredUnderMiss | StaleLoad

  /** The seed left an error that an empty cache can show. */
  predicate SeedErrorToShow(s: State) {
    s.seed.Some? && Transient(s.seed.value)
  }

  /** A store is about to raise `seeded` after an authoritative clear, and the seed's
      error is there to be seen. */
  predicate Stale(s: State) {
    && s.writer == Updating(StoreSeeded) && s.outcomes != [] && SeedErrorToShow(s)
    && (var before := After(s, |s.outcomes| - 1); before.authEmpty && !before.seeded)
  }

  /** The step a disturbs the request r in the way d. */
  predicate Disturbs(s: State, a: Action, r: nat, d: Disturbance) {
    r in s.readers && (
      match d
      case ClearedUnderHit =>
        a == Work(WriteNext) && s.writer == Updating(ClearSeeded) && s.readers[r].LoadCurrent?
      case StoredUnderMiss =>
        a == Work(WriteNext) && s.writer == Updating(StoreSeeded) && s.readers[r].LoadAuthEmpty? && SeedErrorToShow(s)
      case StaleLoad =>
        a == Load(r) && s.readers[r].LoadAuthEmpty? && Stale(s))
  }

  /** In one step the requests rs are disturbed in no other way than these. */
  predicate MildStep(s: State, a: Action, rs: set<nat>, kinds: set<Disturbance>) {
    forall r, d: Disturbance :: r in rs && Disturbs(s, a, r, d) ==> d in kinds
  }

  predicate Mild(s: State, acts: seq<Action>, rs: set<nat>, kinds: set<Disturbance>)
    requires Runs(s, acts)
    decreases |acts|
  {
    acts == [] || (MildStep(s, acts[0], rs, kinds) && Mild(Apply(s, acts[0]), acts[1..], rs, kinds))
  }

  // ------------------------------------------------- where an update takes effect

  /** An update in progress has taken effect for those who look from now on. */
  predicate TookEffect(c: Flags, p: Pending) {
    match p
    case StoreCurrent(_) => false
    case StoreAuthEmpty => c.seeded
    case StoreSeeded => c.seeded
    case ClearAuthEmpty => false
    case ClearSeeded => !c.seeded
  }

  /** How many updates have taken effect. */
  function InEffect(s: State): nat {
    if s.writer.Updating? && s.outcomes != [] && !TookEffect(s.cache, s.writer.next)
    then |s.outcomes| - 1 else |s.outcomes|
  }

  /** The cache c is what the writes before p of the update o have made of `before`. */
  predicate PartWay(before: Flags, o: Outcome, c: Flags, p: Pending) {
    match p
    case StoreCurrent(svc) => o == Ok(svc) && c == before
    case StoreAuthEmpty => o.Ok? && c == before.(current := Some(o.svc))
    case StoreSeeded => o.Ok? && c == before.(current := Some(o.svc), authEmpty := false)
    case ClearAuthEmpty => o == Failed(ErrNoHealthyInstances) && c == before
    case ClearSeeded => o == Failed(ErrNoHealthyInstances) && c == before.(authEmpty := true)
  }

  predicate PartWayInv(s: State) {
    s.writer.Updating? ==>
      && s.outcomes != []
      && PartWay(After(s, |s.outcomes| - 1), s.outcomes[|s.outcomes| - 1], s.cache, s.writer.next)
  }

  /** The first load of an undisturbed request is still true of the cache. */
  predicate LoadsHold(s: State, rs: set<nat>) {
    forall r :: r in s.readers ==>
      && WatchStarted(s)
      && (r in rs && s.readers[r].LoadCurrent? ==> s.cache.seeded)
      && (r in rs && s.readers[r].LoadAuthEmpty? && SeedErrorToShow(s) ==> !s.cache.seeded)
  }

  /** The error in the cache is the seed's. */
  predicate SeedErrInv(s: State) {
    s.cache.seedErr.Some? ==> s.seed == Some(Failed(s.cache.seedErr.value))
  }

  predicate LinearInv(s: State, rs: set<nat>) {
    RefinesInv(s) && PartWayInv(s) && SeedErrInv(s) && LoadsHold(s, rs)
  }

  lemma ResolvedIsPartWay(s: State, o: Outcome)
    requires RefinesInv(s) && s.writer.Resolving?
    ensures PartWayInv(Resolved(s, o))
  {
    var s', n := Resolved(s, o), |s.outcomes|;
    assert s'.outcomes[..n] == s.outcomes;
    assert After(s', n) == Sequential(s) == s.cache;
  }

  lemma WrittenIsPartWay(s: State)
    requires PartWayInv(s) && (s.writer.SeedStoring? || s.writer.Updating?)
    ensures PartWayInv(Written(s))
  {
    var s' := Written(s);
    assert s'.outcomes == s.outcomes && s'.seed == s.seed;
  }

  lemma WorkKeepsPartWay(s: State, w: WorkStep)
    requires RefinesInv(s) && PartWayInv(s) && WorkEnabled(s, w)
    ensures PartWayInv(WorkNext(s, w))
  {
    match w {
      case Resolves(k) => ResolvedIsPartWay(s, Ok(Choices(s)[k]));
      case ResolvesEmpty => ResolvedIsPartWay(s, Failed(ErrNoHealthyInstances));
      case ResolveFails(e) => ResolvedIsPartWay(s, Failed(e));
      case WriteNext => WrittenIsPartWay(s);
      case _ => assert !WorkNext(s, w).writer.Updating?;
    }
  }

  lemma StepKeepsLoads(s: State, a: Action, rs: set<nat>)
    requires LoadsHold(s, rs) && Enabled(s, a) && MildStep(s, a, rs, {})
    ensures LoadsHold(Apply(s, a), rs)
  {
    var s' := Apply(s, a);
    forall r | r in s'.readers
      ensures WatchStarted(s')
      ensures r in rs && s'.readers[r].LoadCurrent? ==> s'.cache.seeded
      ensures r in rs && s'.readers[r].LoadAuthEmpty? && SeedErrorToShow(s') ==> !s'.cache.seeded
    {
      if r in rs && a == Work(WriteNext) {
        assert !Disturbs(s, a, r, ClearedUnderHit) && !Disturbs(s, a, r, StoredUnderMiss);
      }
      match a {
        case Work(w) => WorkFrame(s, w);
        case Poll(p) => PollFrame(s, p);
        case _ =>
      }
    }
  }

  lemma WorkKeepsSeedErr(s: State, w: WorkStep)
    requires RefinesInv(s) && SeedErrInv(s) && WorkEnabled(s, w)
    ensures SeedErrInv(WorkNext(s, w))
  {
  }

  lemma StepKeepsLinear(s: State, a: Action, rs: set<nat>)
    requires LinearInv(s, rs) && Enabled(s, a) && MildStep(s, a, rs, {})
    ensures LinearInv(Apply(s, a), rs)
  {
    StepKeepsLoads(s, a, rs);
    match a {
      case Work(w) => WorkRefines(s, w); WorkKeepsPartWay(s, w); WorkKeepsSeedErr(s, w);
      case Poll(p) => PollFrame(s, p);
      case _ =>
    }
  }

  // ------------------------------------------------- deciding loads

  /** The request has made the load that decides its answer. A miss is decided by finding
      the cache unseeded when there is but one error to show. */
  predicate Decided(s: State, r: nat) {
    r in s.readers &&
      (s.readers[r].Finished? || s.readers[r].LoadSeedErr? || (s.readers[r].LoadAuthEmpty? && !SeedErrorToShow(s)))
  }

  /** The answer it will give. */
  function Verdict(s: State, r: nat): Reading
    requires Decided(s, r)
  {
    match s.readers[r]
    case Finished(_, reading, _) => reading
    case _ => Miss(if s.cache.seedErr.Some? then s.cache.seedErr.value else ErrNoHealthyInstances)
  }

  lemma {:induction false} UpdatesKeepSeedErr(c: Flags, outcomes: seq<Outcome>)
    ensures AfterUpdates(c, outcomes).seedErr == c.seedErr
  {
    if outcomes != [] {
      UpdatesKeepSeedErr(c, outcomes[..|outcomes| - 1]);
    }
  }

  /** Away from the stale window, the cache reads as the sequential resolver does after
      the updates that have taken effect. */
  lemma CacheReadsAsInEffect(s: State)
    requires RefinesInv(s) && PartWayInv(s) && WatchStarted(s) && !Stale(s)
    ensures Observe(s.cache) == Observe(After(s, InEffect(s)))
  {
    var n := |s.outcomes|;
    assert s.outcomes[..n] == s.outcomes;
    if s.writer.Updating? {
      var o := s.outcomes[n - 1];
      assert s.outcomes[..n][..n - 1] == s.outcomes[..n - 1];
      assert After(s, n) == Updated(After(s, n - 1), o);
      UpdatesKeepSeedErr(Seeded(EMPTY_FLAGS, s.seed.value), s.outcomes[..n - 1]);
    } else {
      assert After(s, n) == Sequential(s);
    }
  }

  /** An undisturbed deciding load gives the answer of the updates in effect then. */
  lemma DecidingLoad(s: State, r: nat, rs: set<nat>)
    requires LinearInv(s, rs) && r in rs && Enabled(s, Load(r)) && MildStep(s, Load(r), rs, {})
    requires !Decided(s, r) && Decided(Apply(s, Load(r)), r)
    ensures Verdict(Apply(s, Load(r)), r) == Observe(After(s, InEffect(s)))
  {
    assert !Disturbs(s, Load(r), r, StaleLoad);
    assert Stale(s) ==> !s.cache.seeded;
    CacheReadsAsInEffect(s);
  }

  // ------------------------------------------------- later moments of a run

  ghost predicate Later(s: State, m: State) {
    && InEffect(s) <= InEffect(m) && s.outcomes <= m.outcomes
    && s.readers.Keys <= m.readers.Keys
    && (s.readers != map[] ==> m.seed == s.seed)
    && (forall r :: Decided(s, r) ==> Decided(m, r) && Verdict(m, r) == Verdict(s, r))
  }

  lemma WorkIsLater(s: State, w: WorkStep, rs: set<nat>)
    requires LinearInv(s, rs) && WorkEnabled(s, w)
    ensures var s' := WorkNext(s, w);
            && InEffect(s) <= InEffect(s') && s.outcomes <= s'.outcomes
            && (s.readers != map[] ==> s'.seed == s.seed && s'.cache.seedErr == s.cache.seedErr)
  {
    if s.readers != map[] {
      var r :| r in s.readers;
    }
  }

  lemma StepIsLater(s: State, a: Action, rs: set<nat>)
    requires LinearInv(s, rs) && Enabled(s, a)
    ensures Later(s, Apply(s, a))
  {
    match a {
      case Work(w) => WorkIsLater(s, w, rs); WorkFrame(s, w);
      case Poll(p) => PollFrame(s, p);
      case _ =>
    }
  }

  lemma {:induction false} RunIsLater(s: State, acts: seq<Action>, rs: set<nat>, i: nat)
    requires LinearInv(s, rs) && Runs(s, acts) && Mild(s, acts, rs, {}) && i <= |acts|
    ensures Later(s, Moments(s, acts)[i])
    decreases |acts|
  {
    if i > 0 {
      StepIsLater(s, acts[0], rs);
      StepKeepsLinear(s, acts[0], rs);
      RunIsLater(Apply(s, acts[0]), acts[1..], rs, i - 1);
    }
  }

  // ------------------------------------------------- the explanation of a run

  /** A request of rs that decides between s and end. */
  predicate Decides(s: State, end: State, rs: set<nat>, r: nat) {
    r in rs && Decided(end, r) && !Decided(s, r)
  }

  /** k has an answer for every request that decides between s and end, at a moment in
      between. */
  ghost predicate Answers(s: State, end: State, rs: set<nat>, k: map<nat, nat>) {
    forall r :: Decides(s, end, rs, r) ==>
      && r in k && InEffect(s) <= k[r] <= |end.outcomes|
      && Verdict(end, r) == Observe(After(end, k[r]))
  }

  /** At the moment m those that have not begun are still to take effect, and those that
      have decided already have. */
  ghost predicate Fits(s: State, m: State, end: State, rs: set<nat>, k: map<nat, nat>) {
    forall r :: Decides(s, end, rs, r) && r in k ==>
      && (r !in m.readers ==> InEffect(m) <= k[r])
      && (Decided(m, r) ==> k[r] <= InEffect(m))
  }

  /** The requests that the step decides take the updates now in effect. */
  function WithDecided(s: State, a: Action, k: map<nat, nat>): map<nat, nat>
    requires Enabled(s, a)
  {
    if a.Load? && !Decided(s, a.r) && Decided(Apply(s, a), a.r) then k[a.r := InEffect(s)] else k
  }

  lemma StepAnswers(s: State, a: Action, acts: seq<Action>, rs: set<nat>, k: map<nat, nat>)
    requires LinearInv(s, rs) && Enabled(s, a) && MildStep(s, a, rs, {})
    requires Runs(Apply(s, a), acts) && Mild(Apply(s, a), acts, rs, {})
    requires Answers(Apply(s, a), Final(Apply(s, a), acts), rs, k)
    ensures Answers(s, Final(Apply(s, a), acts), rs, WithDecided(s, a, k))
  {
    var s', end, k' := Apply(s, a), Final(Apply(s, a), acts), WithDecided(s, a, k);
    StepIsLater(s, a, rs);
    StepKeepsLinear(s, a, rs);
    RunIsLater(s', acts, rs, |acts|);
    forall r | Decides(s, end, rs, r)
      ensures r in k' && InEffect(s) <= k'[r] <= |end.outcomes| && Verdict(end, r) == Observe(After(end, k'[r]))
    {
      if Decided(s', r) {
        DecidesOnlyByLoading(s, a, r);
        DecidingLoad(s, r, rs);
        assert s.outcomes[..InEffect(s)] == end.outcomes[..InEffect(s)];
      } else {
        assert Decides(s', end, rs, r);
      }
    }
  }

  lemma DecidesOnlyByLoading(s: State, a: Action, r: nat)
    requires Enabled(s, a) && !Decided(s, r) && Decided(Apply(s, a), r)
    requires s.readers != map[] ==> Apply(s, a).seed == s.seed
    ensures a == Load(r) && r in s.readers
  {
    match a {
      case Work(w) => WorkFrame(s, w);
      case Poll(p) => PollFrame(s, p);
      case _ =>
    }
  }

  /** A moment m later than the step: a request that the step decides fits there too. */
  lemma MomentFits(s: State, a: Action, m: State, end: State, rs: set<nat>, k: map<nat, nat>)
    requires Enabled(s, a) && Later(s, Apply(s, a)) && Later(Apply(s, a), m)
    requires Fits(Apply(s, a), m, end, rs, k)
    ensures Fits(s, m, end, rs, WithDecided(s, a, k))
  {
    var s', k' := Apply(s, a), WithDecided(s, a, k);
    forall r | Decides(s, end, rs, r) && r in k'
      ensures r !in m.readers ==> InEffect(m) <= k'[r]
      ensures Decided(m, r) ==> k'[r] <= InEffect(m)
    {
      if Decided(s', r) {
        DecidesOnlyByLoading(s, a, r);
        assert r in s'.readers;
      } else {
        assert Decides(s', end, rs, r);
      }
    }
  }

  /** Where the run starts, nothing that is yet to decide has. */
  lemma StartFits(s: State, a: Action, end: State, rs: set<nat>, k: map<nat, nat>)
    requires Enabled(s, a) && Answers(s, end, rs, WithDecided(s, a, k))
    ensures Fits(s, s, end, rs, WithDecided(s, a, k))
  {
  }

  lemma StepFits(s: State, a: Action, acts: seq<Action>, rs: set<nat>, k: map<nat, nat>, i: nat)
    requires LinearInv(s, rs) && Enabled(s, a) && MildStep(s, a, rs, {})
    requires Runs(Apply(s, a), acts) && Mild(Apply(s, a), acts, rs, {})
    requires i <= |acts| && Fits(Apply(s, a), Moments(Apply(s, a), acts)[i], Final(Apply(s, a), acts), rs, k)
    ensures Fits(s, Moments(Apply(s, a), acts)[i], Final(Apply(s, a), acts), rs, WithDecided(s, a, k))
  {
    StepIsLater(s, a, rs);
    StepKeepsLinear(s, a, rs);
    RunIsLater(Apply(s, a), acts, rs, i);
    MomentFits(s, a, Moments(Apply(s, a), acts)[i], Final(Apply(s, a), acts), rs, k);
  }

  lemma FitsAlong(s: State, acts: seq<Action>, rs: set<nat>, k: map<nat, nat>, i: nat)
    requires LinearInv(s, rs) && Runs(s, acts) && Mild(s, acts, rs, {}) && acts != [] && i <= |acts|
    requires Answers(s, Final(s, acts), rs, WithDecided(s, acts[0], k))
    requires i > 0 ==> Fits(Apply(s, acts[0]), Moments(Apply(s, acts[0]), acts[1..])[i - 1], Final(s, acts), rs, k)
    ensures Fits(s, Moments(s, acts)[i], Final(s, acts), rs, WithDecided(s, acts[0], k))
  {
    if i == 0 {
      StartFits(s, acts[0], Final(s, acts), rs, k);
    } else {
      StepFits(s, acts[0], acts[1..], rs, k, i - 1);
    }
  }

  lemma {:induction false} RunIsAnswered(s: State, acts: seq<Action>, rs: set<nat>) returns (k: map<nat, nat>)
    requires LinearInv(s, rs) && Runs(s, acts) && Mild(s, acts, rs, {})
    ensures Answers(s, Final(s, acts), rs, k)
    ensures forall i :: 0 <= i <= |acts| ==> Fits(s, Moments(s, acts)[i], Final(s, acts), rs, k)
    decreases |acts|
  {
    if acts == [] {
      k := map[];
    } else {
      var a, rest := acts[0], acts[1..];
      StepKeepsLinear(s, a, rs);
      var later := RunIsAnswered(Apply(s, a), rest, rs);
      StepAnswers(s, a, rest, rs, later);
      k := WithDecided(s, a, later);
      forall i | 0 <= i <= |acts|
        ensures Fits(s, Moments(s, acts)[i], Final(s, acts), rs, k)
      {
        FitsAlong(s, acts, rs, later, i);
      }
    }
  }

  /** In every run, the requests that are disturbed in none of the three ways are
      linearizable together, whatever happens to the others: one order of whole updates
      and reads, in keeping with real time, gives all their answers. */
  lemma UndisturbedRequestsAreLinearizable(tag: string, c: Catalog, acts: seq<Action>, rs: set<nat>)
    requires Runs(Init(tag, c), acts) && Mild(Init(tag, c), acts, rs, {})
    ensures Linearizable(Init(tag, c), acts, rs)
  {
    var s := Init(tag, c);
    var k := RunIsAnswered(s, acts, rs);
    var ms, end := Moments(s, acts), Final(s, acts);
    forall r | r in rs && Done(end, r)
      ensures Decides(s, end, rs, r)
    {
    }
    forall i | 0 <= i < |ms|
      ensures InOrder(ms[i], end, rs, k)
    {
      forall r | Done(ms[i], r) ensures Done(end, r) { DoneStays(s, acts, i, r); }
      FitsInOrder(s, ms[i], end, rs, k);
    }
    assert Explains(ms, rs, k);
  }

  lemma {:induction false} DoneStays(s: State, acts: seq<Action>, i: nat, r: nat)
    requires Runs(s, acts) && i <= |acts| && Done(Moments(s, acts)[i], r)
    ensures Done(Final(s, acts), r)
    decreases i
  {
    if i == 0 {
      FinishedStays(s, acts, r);
    } else {
      DoneStays(Apply(s, acts[0]), acts[1..], i - 1, r);
    }
  }

  lemma FitsInOrder(s: State, m: State, end: State, rs: set<nat>, k: map<nat, nat>)
    requires s.readers == map[] && Fits(s, m, end, rs, k)
    requires forall r :: Done(m, r) ==> Done(end, r)
    ensures InOrder(m, end, rs, k)
  {
    forall r | r in rs && Done(end, r)
      ensures Decides(s, end, rs, r)
    {
    }
  }
}
