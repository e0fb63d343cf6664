/** What concurrent requests can read from the cache, in every run of the protocol. */
module WatchCacheReads {
  import opened Wrappers
  import opened Types
  import opened Cache
  import opened WatchCache

  /** Every stored value was an instance some catalogue really offered. */
  predicate Genuine(s: State, e: Entry) {
    && 0 <= e.at < |s.history|
    && Offered(e.svc, s.history[e.at].instances, s.tag)
  }

  predicate LogIsGenuine(s: State) {
    && s.history != []
    && (forall i :: 0 <= i < |s.log| ==> Genuine(s, s.log[i]))
    && ((s.writer.SeedStoring? || s.writer.Updating?) && s.writer.next.StoreCurrent? ==>
          Genuine(s, Entry(s.writer.next.svc, s.readAt)))
  }

  /** `current` is the newest stored value, and `seeded` is never raised without one. */
  predicate CurrentIsNewest(s: State) {
    && s.cache.current == (if s.log == [] then None else Some(s.log[|s.log| - 1].svc))
    && (s.cache.seeded ==> s.log != [])
    && ((s.writer.SeedStoring? || s.writer.Updating?) && (s.writer.next.StoreAuthEmpty? || s.writer.next.StoreSeeded?) ==>
          s.log != [])
  }

  /** A request's view of the log so far. */
  predicate ReaderOk(s: State, rd: Reader) {
    && rd.floor <= |s.log|
    && (rd.LoadCurrent? ==> s.log != [])
    && (rd.Finished? ==> rd.floor <= rd.version <= |s.log|)
    && (rd.Finished? && rd.reading.Hit? ==>
          1 <= rd.version && rd.reading.svc == s.log[rd.version - 1].svc)
  }

  predicate ReadersOk(s: State) {
    forall r :: r in s.readers ==> ReaderOk(s, s.readers[r])
  }

  predicate ReadInv(s: State) {
    LogIsGenuine(s) && CurrentIsNewest(s) && ReadersOk(s)
  }

  lemma ChoiceIsGenuine(s: State, k: nat)
    requires s.history != [] && k < |Choices(s)|
    ensures Genuine(s, Entry(Choices(s)[k], Now(s)))
  {
    ReadsWhatIsOffered(Current(s).instances, s.tag);
  }

  lemma WrittenKeepsLog(s: State)
    requires LogIsGenuine(s) && CurrentIsNewest(s) && (s.writer.SeedStoring? || s.writer.Updating?)
    ensures LogIsGenuine(Written(s)) && CurrentIsNewest(Written(s))
    ensures s.log <= Written(s).log
  {
    var s' := Written(s);
    forall i | 0 <= i < |s'.log|
      ensures Genuine(s', s'.log[i])
    {
      if i < |s.log| { assert Genuine(s, s.log[i]); }
    }
  }

  lemma WorkKeepsLog(s: State, w: WorkStep)
    requires LogIsGenuine(s) && CurrentIsNewest(s) && WorkEnabled(s, w)
    ensures LogIsGenuine(WorkNext(s, w)) && CurrentIsNewest(WorkNext(s, w))
    ensures s.log <= WorkNext(s, w).log
  {
    if w.WriteNext? {
      WrittenKeepsLog(s);
    } else {
      WorkFrame(s, w);
      if w.SeedResolves? || w.Resolves? { ChoiceIsGenuine(s, w.k); }
      var s' := WorkNext(s, w);
      forall i | 0 <= i < |s'.log|
        ensures Genuine(s', s'.log[i])
      {
        assert Genuine(s, s.log[i]);
      }
    }
  }

  lemma StepKeepsLog(s: State, a: Action)
    requires LogIsGenuine(s) && CurrentIsNewest(s) && Enabled(s, a)
    ensures LogIsGenuine(Apply(s, a)) && CurrentIsNewest(Apply(s, a))
    ensures s.log <= Apply(s, a).log
  {
    var s' := Apply(s, a);
    match a {
      case Work(w) => WorkKeepsLog(s, w);
      case Poll(p) => PollFrame(s, p); SameHistoryKeepsLog(s, s');
      case _ => SameHistoryKeepsLog(s, s');
    }
  }

  /** Only the writer's part of the state matters, and the history may grow. */
  lemma SameHistoryKeepsLog(s: State, s': State)
    requires LogIsGenuine(s) && CurrentIsNewest(s)
    requires s.history <= s'.history && s'.tag == s.tag
    requires (s'.writer, s'.cache, s'.log, s'.readAt) == (s.writer, s.cache, s.log, s.readAt)
    ensures LogIsGenuine(s') && CurrentIsNewest(s')
  {
    forall i | 0 <= i < |s.log|
      ensures Genuine(s', s'.log[i])
    {
      assert Genuine(s, s.log[i]);
    }
  }

  lemma LoadKeepsReader(s: State, rd: Reader)
    requires CurrentIsNewest(s) && ReaderOk(s, rd)
    ensures ReaderOk(s, Loaded(s, rd)) && Loaded(s, rd).floor == rd.floor
  {
  }

  /** A request changes only by its own loads, and starts with the log as it is. */
  lemma StepKeepsReader(s: State, a: Action, r: nat)
    requires CurrentIsNewest(s) && Enabled(s, a)
    requires r in s.readers ==> ReaderOk(s, s.readers[r])
    ensures r in s.readers ==> r in Apply(s, a).readers && Apply(s, a).readers[r].floor == s.readers[r].floor
    ensures r in Apply(s, a).readers ==>
              && (r !in s.readers ==> Apply(s, a).readers[r].floor == |s.log|)
              && (s.log <= Apply(s, a).log ==> ReaderOk(Apply(s, a), Apply(s, a).readers[r]))
  {
    match a {
      case Work(w) => WorkFrame(s, w);
      case Poll(p) => PollFrame(s, p);
      case Load(l) => if l == r { LoadKeepsReader(s, s.readers[r]); }
      case _ =>
    }
  }

  lemma StepKeepsReaders(s: State, a: Action)
    requires ReadInv(s) && Enabled(s, a)
    ensures ReadersOk(Apply(s, a))
  {
    var s' := Apply(s, a);
    StepKeepsLog(s, a);
    forall r | r in s'.readers
      ensures ReaderOk(s', s'.readers[r])
    {
      assert r in s.readers ==> ReaderOk(s, s.readers[r]);
      StepKeepsReader(s, a, r);
    }
  }

  lemma {:induction false} RunKeepsReads(s: State, acts: seq<Action>)
    requires ReadInv(s) && Runs(s, acts)
    ensures ReadInv(Final(s, acts)) && s.log <= Final(s, acts).log
    decreases |acts|
  {
    if acts != [] {
      StepKeepsLog(s, acts[0]);
      StepKeepsReaders(s, acts[0]);
      RunKeepsReads(Apply(s, acts[0]), acts[1..]);
    }
  }

  /** Read safety: in every run, whatever a request finished with as a hit is an
      instance that some catalogue of the run offered under the tag, and not a zero
      value; it is at least as new as the newest value stored when the request began. */
  lemma HitsAreGenuine(tag: string, c: Catalog, acts: seq<Action>, r: nat)
    requires Runs(Init(tag, c), acts)
    requires var s := Final(Init(tag, c), acts); r in s.readers && s.readers[r].Finished? && s.readers[r].reading.Hit?
    ensures var s := Final(Init(tag, c), acts);
            var rd := s.readers[r];
            && 1 <= rd.version <= |s.log| && rd.floor <= rd.version
            && rd.reading.svc == s.log[rd.version - 1].svc
            && 0 <= s.log[rd.version - 1].at < |s.history|
            && s.tag == tag
            && exists i :: i in s.history[s.log[rd.version - 1].at].instances
                           && i.svc == rd.reading.svc && i.passing && (tag == "" || tag in i.svc.tags)
  {
    RunKeepsReads(Init(tag, c), acts);
    RunKeepsTag(Init(tag, c), acts);
    var s := Final(Init(tag, c), acts);
    assert ReaderOk(s, s.readers[r]);
    assert Genuine(s, s.log[s.readers[r].version - 1]);
  }

  lemma {:induction false} RunKeepsTag(s: State, acts: seq<Action>)
    requires Runs(s, acts)
    ensures Final(s, acts).tag == s.tag
    decreases |acts|
  {
    if acts != [] {
      match acts[0] {
        case Poll(p) => PollFrame(s, p);
        case Work(w) => WorkFrame(s, w);
        case _ =>
      }
      RunKeepsTag(Apply(s, acts[0]), acts[1..]);
    }
  }

  /** A request that begins during a run starts with every value stored before it. */
  lemma {:induction false} LateReadersStartHigh(s: State, acts: seq<Action>, r: nat, n: nat)
    requires ReadInv(s) && Runs(s, acts)
    requires n <= |s.log| && (r in s.readers ==> n <= s.readers[r].floor)
    requires r in Final(s, acts).readers
    ensures n <= Final(s, acts).readers[r].floor
    decreases |acts|
  {
    if acts != [] {
      StepKeepsLog(s, acts[0]);
      StepKeepsReaders(s, acts[0]);
      assert r in s.readers ==> ReaderOk(s, s.readers[r]);
      StepKeepsReader(s, acts[0], r);
      LateReadersStartHigh(Apply(s, acts[0]), acts[1..], r, n);
    }
  }

  /** A finished request keeps what it returned. */
  lemma {:induction false} FinishedStays(s: State, acts: seq<Action>, r: nat)
    requires Runs(s, acts) && r in s.readers && s.readers[r].Finished?
    ensures r in Final(s, acts).readers && Final(s, acts).readers[r] == s.readers[r]
    decreases |acts|
  {
    if acts != [] {
      FinishedStays(Apply(s, acts[0]), acts[1..], r);
    }
  }

  /** Freshness over whole runs: take any point of any run. A request begun after it
      that hits returns a value stored no earlier than the newest one at that point, and
      no earlier than what any request finished by then had returned. */
  lemma LaterHitsAreNeverOlder(tag: string, c: Catalog, before: seq<Action>, after: seq<Action>, r1: nat, r2: nat)
    requires Runs(Init(tag, c), before)
    requires Runs(Final(Init(tag, c), before), after)
    requires var mid := Final(Init(tag, c), before);
             r1 in mid.readers && mid.readers[r1].Finished? && r2 !in mid.readers
    requires var end := Final(Final(Init(tag, c), before), after);
             r2 in end.readers && end.readers[r2].Finished? && end.readers[r2].reading.Hit?
    ensures var mid := Final(Init(tag, c), before);
            var end := Final(mid, after);
            && r1 in end.readers && end.readers[r1] == mid.readers[r1]
            && mid.readers[r1].version <= |mid.log| <= end.readers[r2].version
  {
    var mid := Final(Init(tag, c), before);
    var end := Final(mid, after);
    RunKeepsReads(Init(tag, c), before);
    RunKeepsReads(mid, after);
    assert ReaderOk(mid, mid.readers[r1]);
    assert ReaderOk(end, end.readers[r2]);
    FinishedStays(mid, after, r1);
    LateReadersStartHigh(mid, after, r2, |mid.log|);
  }

  // ------------------------------------------------- truthful reads

  /** A read that is not a transient failure tells the truth about a catalogue of the run. */
  predicate TrueOnce(s: State, o: Outcome) {
    Transient(o) || exists at :: 0 <= at < |s.history| && TrueAt(s, o, at)
  }

  predicate TrueAt(s: State, o: Outcome, at: nat)
    requires at < |s.history|
  {
    match o
    case Ok(svc) => Offered(svc, s.history[at].instances, s.tag)
    case Failed(_) => NoneOffered(s.history[at].instances, s.tag)
  }

  predicate TruthInv(s: State) {
    && s.history != []
    && (s.seed.Some? ==> TrueOnce(s, s.seed.value))
    && (forall k :: 0 <= k < |s.outcomes| ==> TrueOnce(s, s.outcomes[k]))
  }

  lemma TruthStays(s: State, s': State, o: Outcome)
    requires TrueOnce(s, o) && s.history <= s'.history && s'.tag == s.tag
    ensures TrueOnce(s', o)
  {
    if !Transient(o) {
      var at :| 0 <= at < |s.history| && TrueAt(s, o, at);
      assert TrueAt(s', o, at);
    }
  }

  /** What a step reads, if it reads, is so now. */
  lemma WorkReadsTheTruth(s: State, w: WorkStep)
    requires s.history != [] && WorkEnabled(s, w)
    ensures var s' := WorkNext(s, w);
            && (s'.seed == s.seed || (s'.seed.Some? && TrueOnce(s, s'.seed.value)))
            && (s'.outcomes == s.outcomes
                || (exists o :: s'.outcomes == s.outcomes + [o] && TrueOnce(s, o)))
  {
    ReadsWhatIsOffered(Current(s).instances, s.tag);
    var s' := WorkNext(s, w);
    if s'.seed != s.seed {
      assert Transient(s'.seed.value) || TrueAt(s, s'.seed.value, |s.history| - 1);
    }
    if s'.outcomes != s.outcomes {
      var o := s'.outcomes[|s.outcomes|];
      assert s'.outcomes == s.outcomes + [o];
      assert Transient(o) || TrueAt(s, o, |s.history| - 1);
    }
  }

  lemma StepKeepsTruth(s: State, a: Action)
    requires TruthInv(s) && Enabled(s, a)
    ensures TruthInv(Apply(s, a))
  {
    var s' := Apply(s, a);
    match a {
      case Work(w) => WorkFrame(s, w); WorkReadsTheTruth(s, w);
      case Poll(p) => PollFrame(s, p);
      case _ =>
    }
    if s'.seed.Some? {
      TruthStays(s, s', s'.seed.value);
    }
    forall k | 0 <= k < |s'.outcomes|
      ensures TrueOnce(s', s'.outcomes[k])
    {
      assert k < |s.outcomes| ==> TrueOnce(s, s.outcomes[k]);
      TruthStays(s, s', s'.outcomes[k]);
    }
  }

  lemma {:induction false} RunKeepsTruth(s: State, acts: seq<Action>)
    requires TruthInv(s) && Runs(s, acts)
    ensures TruthInv(Final(s, acts))
    decreases |acts|
  {
    if acts != [] {
      StepKeepsTruth(s, acts[0]);
      RunKeepsTruth(Apply(s, acts[0]), acts[1..]);
    }
  }

  /** In every run, each read of the seed and of the consumer that was not a transient
      failure tells the truth about a catalogue of the run: what it found was passing there
      and carried the tag, or, when it found none, there was none. */
  lemma ReadsAreTruthful(tag: string, c: Catalog, acts: seq<Action>, o: Outcome)
    requires Runs(Init(tag, c), acts) && !Transient(o)
    requires var s := Final(Init(tag, c), acts); s.seed == Some(o) || o in s.outcomes
    ensures var s := Final(Init(tag, c), acts);
            exists at :: 0 <= at < |s.history| &&
              match o
              case Ok(svc) => Offered(svc, s.history[at].instances, tag)
              case Failed(e) => e == ErrNoHealthyInstances && NoneOffered(s.history[at].instances, tag)
  {
    RunKeepsTruth(Init(tag, c), acts);
    RunKeepsTag(Init(tag, c), acts);
    var s := Final(Init(tag, c), acts);
    assert TrueOnce(s, o);
    var at :| 0 <= at < |s.history| && TrueAt(s, o, at);
  }

  /** The registry spreads its answers: any service now offered can be what the seed or
      the consumer reads next, and any transient error can be what it gets. */
  lemma EveryReadIsPossible(s: State, o: Outcome)
    requires match o
             case Ok(svc) => Offered(svc, Current(s).instances, s.tag)
             case Failed(e) => Transient(o) || NoneOffered(Current(s).instances, s.tag)
    ensures s.writer.Seeding? ==> exists w: WorkStep :: WorkEnabled(s, w) && WorkNext(s, w).seed == Some(o)
    ensures s.writer.Resolving? ==>
              exists w: WorkStep :: WorkEnabled(s, w) && WorkNext(s, w).outcomes == s.outcomes + [o]
  {
    ReadsWhatIsOffered(Current(s).instances, s.tag);
    match o {
      case Ok(svc) =>
        var k :| 0 <= k < |Choices(s)| && Choices(s)[k] == svc;
        assert s.writer.Seeding? ==> WorkEnabled(s, SeedResolves(k)) && WorkNext(s, SeedResolves(k)).seed == Some(o);
        assert s.writer.Resolving? ==> WorkEnabled(s, Resolves(k)) && WorkNext(s, Resolves(k)).outcomes == s.outcomes + [o];
      case Failed(e) =>
        var w1 := if Transient(o) then SeedFails(e) else SeedEmpty;
        var w2 := if Transient(o) then ResolveFails(e) else ResolvesEmpty;
        assert s.writer.Seeding? ==> WorkEnabled(s, w1) && WorkNext(s, w1).seed == Some(o);
        assert s.writer.Resolving? ==> WorkEnabled(s, w2) && WorkNext(s, w2).outcomes == s.outcomes + [o];
    }
  }

  // ------------------------------------------------- undisturbed requests

  /** An action that leaves the cache alone. */
  predicate Quiet(a: Action) {
    a.Work? ==> !a.work.WriteNext? && !a.work.SeedEmpty? && !a.work.SeedFails?
  }

  predicate QuietRun(acts: seq<Action>) {
    forall i :: 0 <= i < |acts| ==> Quiet(acts[i])
  }

  /** A request's progress agrees with a fixed cache. */
  predicate Consistent(c: Flags, rd: Reader) {
    match rd
    case LoadSeeded(_) => true
    case LoadCurrent(_) => c.seeded
    case LoadAuthEmpty(_) => !c.seeded
    case LoadSeedErr(_) => !c.seeded && !c.authEmpty
    case Finished(_, reading, _) => reading == Observe(c)
  }

  lemma QuietStep(s: State, a: Action, r: nat)
    requires Enabled(s, a) && Quiet(a)
    requires r in s.readers ==> Consistent(s.cache, s.readers[r])
    ensures Apply(s, a).cache == s.cache
    ensures r in Apply(s, a).readers ==> Consistent(s.cache, Apply(s, a).readers[r])
  {
    match a {
      case Work(w) => WorkFrame(s, w);
      case Poll(p) => PollFrame(s, p);
      case _ =>
    }
  }

  /** While nobody writes, a request that begins and finishes gets exactly the
      sequential reading of the cache. */
  lemma {:induction false} QuietReadsObserve(s: State, acts: seq<Action>, r: nat)
    requires Runs(s, acts) && QuietRun(acts)
    requires r in s.readers ==> Consistent(s.cache, s.readers[r])
    requires r in Final(s, acts).readers
    ensures Consistent(s.cache, Final(s, acts).readers[r])
    ensures Final(s, acts).readers[r].Finished? ==> Final(s, acts).readers[r].reading == Observe(s.cache)
    decreases |acts|
  {
    if acts != [] {
      assert Quiet(acts[0]);
      QuietStep(s, acts[0], r);
      assert QuietRun(acts[1..]) by {
        forall i | 0 <= i < |acts| - 1 ensures Quiet(acts[1..][i]) { assert Quiet(acts[i + 1]); }
      }
      QuietReadsObserve(Apply(s, acts[0]), acts[1..], r);
    }
  }
}
