/** When the cache agrees with the catalogue it stands for. */
module WatchCacheAgreement {
  import opened Wrappers
  import opened Types
  import opened Cache
  import opened WatchCache

  /** The registry moves its (positive) index on every change, away from the index the
      poller holds. */
  predicate HonestStep(s: State, a: Action) {
    a.Change? ==> a.c.index > 0 && a.c.index != s.lastIndex
  }

  predicate HonestRun(s: State, acts: seq<Action>)
    decreases |acts|
  {
    acts == [] || (Enabled(s, acts[0]) && HonestStep(s, acts[0]) && HonestRun(Apply(s, acts[0]), acts[1..]))
  }

  /** Some honest run leads from s0 to s. */
  ghost predicate HonestlyReaches(s0: State, s: State) {
    exists acts :: HonestRun(s0, acts) && Runs(s0, acts) && Final(s0, acts) == s
  }

  lemma HonestStart(s: State)
    ensures HonestlyReaches(s, s)
  {
    assert HonestRun(s, []) && Runs(s, []) && Final(s, []) == s;
  }

  lemma {:induction false} HonestRunThen(s: State, acts: seq<Action>, a: Action)
    requires HonestRun(s, acts) && Runs(s, acts)
    requires Enabled(Final(s, acts), a) && HonestStep(Final(s, acts), a)
    ensures HonestRun(s, acts + [a])
    decreases |acts|
  {
    if acts == [] {
      assert [a][1..] == [];
      assert HonestRun(Apply(s, a), []);
    } else {
      HonestRunThen(Apply(s, acts[0]), acts[1..], a);
      assert (acts + [a])[1..] == acts[1..] + [a];
    }
  }

  /** One more action of an honest run being built. */
  lemma TakeHonestly(s0: State, s: State, a: Action) returns (s': State)
    requires HonestlyReaches(s0, s) && Enabled(s, a) && HonestStep(s, a)
    ensures s' == Apply(s, a) && HonestlyReaches(s0, s')
  {
    var acts :| HonestRun(s0, acts) && Runs(s0, acts) && Final(s0, acts) == s;
    RunsThen(s0, acts, a);
    HonestRunThen(s0, acts, a);
    s' := Apply(s, a);
  }

  /** An event is somewhere between the poller and the consumer's next registry read. */
  predicate EventPending(s: State) {
    (s.poller.Emitting? && s.poller.rest != []) || s.channel != [] || s.writer.Resolving?
  }

  /** The cache shows an outcome of a re-resolve. */
  predicate Shows(c: Flags, o: Outcome) {
    match o
    case Ok(svc) => c.seeded && c.current == Some(svc)
    case Failed(_) => !c.seeded && c.authEmpty
  }

  /** An outcome that is not transient tells the truth about a list of instances. */
  predicate Truthful(o: Outcome, instances: seq<Instance>, tag: string) {
    match o
    case Ok(svc) => Offered(svc, instances, tag)
    case Failed(e) => e == ErrNoHealthyInstances ==> NoneOffered(instances, tag)
  }

  /** While the poller holds the registry's index, nothing changed since it took it. */
  predicate BaselineInv(s: State) {
    && s.history != [] && Current(s).index > 0
    && s.baselineAt <= Now(s)
    && (s.lastIndex == Current(s).index ==> s.baselineAt == Now(s))
    && (s.poller.Unborn? ==> s.lastIndex == 0)
    && (!WatchStarted(s) ==> s.poller.Unborn? && s.channel == [] && s.last.None?)
  }

  /** Once the last batch is used up, the consumer has re-resolved since it was taken. */
  predicate CoveredInv(s: State) {
    s.lastIndex > 0 && s.batch != [] && !s.poller.Stopped? && !EventPending(s) ==>
      s.last.Some? && s.last.value.at >= s.baselineAt
  }

  /** The last re-resolve was truthful, and the cache shows it or is about to. */
  predicate ShownInv(s: State) {
    && (s.last.Some? ==>
          && 0 <= s.last.value.at < |s.history|
          && Truthful(s.last.value.outcome, s.history[s.last.value.at].instances, s.tag))
    && (s.writer.Updating? ==>
          && s.last.Some? && !Transient(s.last.value.outcome)
          && Shows(Completed(s.cache, s.writer.next), s.last.value.outcome))
    && (s.last.Some? && !Transient(s.last.value.outcome) && !s.writer.Updating? ==>
          Shows(s.cache, s.last.value.outcome))
  }

  predicate AgreeInv(s: State) {
    BaselineInv(s) && CoveredInv(s) && ShownInv(s)
  }

  lemma PollKeepsAgree(s: State, p: PollStep)
    requires AgreeInv(s) && PollEnabled(s, p)
    ensures AgreeInv(PollNext(s, p))
  {
    PollFrame(s, p);
  }

  /** An outcome's writes lead to a cache that shows it; without writes it is transient. */
  lemma OutcomeWillShow(c: Flags, o: Outcome)
    ensures match FirstWrite(o)
            case Some(p) => !Transient(o) && Shows(Completed(c, p), o)
            case None => Transient(o)
  {
    WritesMakeTheOperation(c, o);
  }

  lemma ResolvedKeepsAgree(s: State, o: Outcome)
    requires AgreeInv(s) && s.writer.Resolving?
    requires Truthful(o, Current(s).instances, s.tag)
    ensures AgreeInv(Resolved(s, o))
  {
    OutcomeWillShow(s.cache, o);
  }

  lemma WrittenKeepsAgree(s: State)
    requires AgreeInv(s) && (s.writer.SeedStoring? || s.writer.Updating?)
    ensures AgreeInv(Written(s))
  {
  }

  /** A step of the writer that neither resolves nor writes the cache's three flags. */
  lemma PlainWorkKeepsAgree(s: State, w: WorkStep)
    requires AgreeInv(s) && WorkEnabled(s, w)
    requires !w.Resolves? && !w.ResolvesEmpty? && !w.ResolveFails? && !w.WriteNext?
    ensures AgreeInv(WorkNext(s, w))
  {
    WorkFrame(s, w);
    assert WorkNext(s, w).last == s.last;
  }

  lemma WorkKeepsAgree(s: State, w: WorkStep)
    requires AgreeInv(s) && WorkEnabled(s, w)
    ensures AgreeInv(WorkNext(s, w))
  {
    ReadsWhatIsOffered(Current(s).instances, s.tag);
    match w {
      case Resolves(k) => ResolvedKeepsAgree(s, Ok(Choices(s)[k]));
      case ResolvesEmpty => ResolvedKeepsAgree(s, Failed(ErrNoHealthyInstances));
      case ResolveFails(e) => ResolvedKeepsAgree(s, Failed(e));
      case WriteNext => WrittenKeepsAgree(s);
      case _ => PlainWorkKeepsAgree(s, w);
    }
  }

  lemma StepKeepsAgree(s: State, a: Action)
    requires AgreeInv(s) && Enabled(s, a) && HonestStep(s, a)
    ensures AgreeInv(Apply(s, a))
  {
    match a {
      case Poll(p) => PollKeepsAgree(s, p);
      case Work(w) => WorkKeepsAgree(s, w);
      case _ =>
    }
  }

  lemma {:induction false} RunKeepsAgree(s: State, acts: seq<Action>)
    requires AgreeInv(s) && HonestRun(s, acts) && Runs(s, acts)
    ensures AgreeInv(Final(s, acts))
    decreases |acts|
  {
    if acts != [] {
      StepKeepsAgree(s, acts[0]);
      RunKeepsAgree(Apply(s, acts[0]), acts[1..]);
    }
  }

  // ---------------------------------------------------------------- agreement

  /** Nothing is on its way: the running poller holds the registry's index, no event is
      pending and the consumer waits. */
  predicate Quiescent(s: State) {
    && !s.poller.Stopped? && !s.poller.Unborn?
    && s.lastIndex == Current(s).index
    && !EventPending(s)
    && s.writer.Waiting?
  }

  /** Moreover the consumer's last re-resolve, if any, was not transient. */
  predicate AtRest(s: State) {
    && Quiescent(s)
    && (s.last.Some? ==> !Transient(s.last.value.outcome))
  }

  /** The cache serves a passing instance with the tag, or is empty exactly because
      there is none. */
  predicate Agrees(s: State) {
    match Observe(s.cache)
    case Hit(svc) => Offered(svc, Current(s).instances, s.tag)
    case Miss(e) => e == ErrNoHealthyInstances && NoneOffered(Current(s).instances, s.tag)
  }

  /** The cache agrees at rest after any honest run whose last batch was not empty. */
  lemma AgreementAtRest(tag: string, c: Catalog, s: State)
    requires c.index > 0 && HonestlyReaches(Init(tag, c), s)
    requires AtRest(s) && s.batch != []
    ensures Agrees(s)
    ensures match Observe(s.cache)
            case Hit(svc) =>
              exists i :: i in Current(s).instances && i.svc == svc && i.passing && (s.tag == "" || s.tag in svc.tags)
            case Miss(_) =>
              forall i :: i in Current(s).instances ==> !(i.passing && (s.tag == "" || s.tag in i.svc.tags))
  {
    var acts :| HonestRun(Init(tag, c), acts) && Runs(Init(tag, c), acts) && Final(Init(tag, c), acts) == s;
    RunKeepsAgree(Init(tag, c), acts);
  }

  /** Whether every honest run that comes to rest with b as its last batch agrees. */
  ghost predicate AlwaysAgrees(tag: string, b: seq<Instance>) {
    forall c: Catalog, s: State ::
      c.index > 0 && HonestlyReaches(Init(tag, c), s) && AtRest(s) && s.batch == b ==> Agrees(s)
  }

  // ------------------------------------------------- the batch that emits nothing

  /** The only instance of the service, until it leaves. */
  function LastOne(tag: string): Instance {
    Instance(ZERO_SERVICE.(id := "svc-b-1", tags := [tag]), true)
  }

  lemma LastOneIsHealthy(tag: string)
    ensures Healthy([LastOne(tag)], tag) == [LastOne(tag).svc]
    ensures Healthy([], tag) == []
  {
    assert [LastOne(tag)][..0] == [];
  }

  /** A seed that stored the only instance, and an open watch. */
  lemma SeededRun(tag: string) returns (s: State)
    ensures s == Init(tag, Catalog(1, [LastOne(tag)])).(
                   poller := Top, writer := Waiting,
                   cache := Flags(Some(LastOne(tag).svc), true, false, None),
                   log := [Entry(LastOne(tag).svc, 0)], seed := Some(Ok(LastOne(tag).svc)))
    ensures HonestlyReaches(Init(tag, Catalog(1, [LastOne(tag)])), s)
  {
    LastOneIsHealthy(tag);
    var s0 := Init(tag, Catalog(1, [LastOne(tag)]));
    HonestStart(s0);
    s := TakeHonestly(s0, s0, Work(SeedResolves(0)));
    s := TakeHonestly(s0, s, Work(WriteNext));
    s := TakeHonestly(s0, s, Work(WriteNext));
    s := TakeHonestly(s0, s, Work(WriteNext));
    s := TakeHonestly(s0, s, Work(OpenWatch));
  }

  /** The catalogue changes to a batch, and the poller is about to emit it. */
  lemma BatchRun(tag: string, batch: seq<Instance>) returns (s: State)
    ensures s == Init(tag, Catalog(1, [LastOne(tag)])).(
                   history := [Catalog(1, [LastOne(tag)]), Catalog(2, batch)],
                   poller := Emitting(batch), lastIndex := 2, writer := Waiting,
                   cache := Flags(Some(LastOne(tag).svc), true, false, None),
                   log := [Entry(LastOne(tag).svc, 0)], baselineAt := 1, batch := batch,
                   seed := Some(Ok(LastOne(tag).svc)))
    ensures HonestlyReaches(Init(tag, Catalog(1, [LastOne(tag)])), s)
  {
    var s0 := Init(tag, Catalog(1, [LastOne(tag)]));
    s := SeededRun(tag);
    s := TakeHonestly(s0, s, Change(Catalog(2, batch)));
    s := TakeHonestly(s0, s, Poll(CheckCancelled));
    s := TakeHonestly(s0, s, Poll(Answer));
    s := TakeHonestly(s0, s, Poll(Decide));
  }

  /** The last instance leaves; the poller takes the new index and emits nothing. */
  lemma EmptiedCatalogRun(tag: string) returns (s: State)
    ensures HonestlyReaches(Init(tag, Catalog(1, [LastOne(tag)])), s)
    ensures AtRest(s) && s.batch == [] && Choices(s) == [] && Observe(s.cache) == Hit(LastOne(tag).svc)
  {
    LastOneIsHealthy(tag);
    s := BatchRun(tag, []);
    s := TakeHonestly(Init(tag, Catalog(1, [LastOne(tag)])), s, Poll(EmitDone));
  }

  /** Agreement holds at rest, in every honest run, exactly when the last batch emitted
      an event: an index advance with an empty list of instances leaves the cache as it
      was, serving an instance that is gone. */
  lemma AgreementExactly(tag: string, b: seq<Instance>)
    ensures AlwaysAgrees(tag, b) <==> b != []
  {
    if b != [] {
      forall c: Catalog, s: State |
        c.index > 0 && HonestlyReaches(Init(tag, c), s) && AtRest(s) && s.batch == b
        ensures Agrees(s)
      {
        AgreementAtRest(tag, c, s);
      }
    } else {
      var s := EmptiedCatalogRun(tag);
      ReadsWhatIsOffered(Current(s).instances, s.tag);
      assert !Agrees(s);
    }
  }

  /** When the re-resolve of the last event fails transiently, nothing retries it and the
      cache keeps an instance that is no longer passing. */
  lemma TransientFailureIsNotRetried(tag: string, e: Error) returns (s: State)
    requires Transient(Failed(e))
    ensures HonestlyReaches(Init(tag, Catalog(1, [LastOne(tag)])), s)
    ensures Quiescent(s) && s.batch != [] && s.last.Some? && s.last.value.outcome == Failed(e)
    ensures Choices(s) == [] && Observe(s.cache) == Hit(LastOne(tag).svc)
  {
    var s0 := Init(tag, Catalog(1, [LastOne(tag)]));
    var failing := LastOne(tag).(passing := false);
    assert [failing][..0] == [] && Healthy([failing], tag) == [];
    s := BatchRun(tag, [failing]);
    s := OneEvent(s0, s);
    s := TakeHonestly(s0, s, Work(ResolveFails(e)));
  }

  /** The only instance of a batch is sent and received. */
  lemma OneEvent(s0: State, s: State) returns (s': State)
    requires HonestlyReaches(s0, s)
    requires s.poller.Emitting? && |s.poller.rest| == 1 && s.channel == [] && s.writer.Waiting?
    ensures HonestlyReaches(s0, s')
    ensures s' == s.(poller := Top, writer := Resolving)
  {
    s' := TakeHonestly(s0, s, Poll(Send));
    s' := TakeHonestly(s0, s', Poll(EmitDone));
    s' := TakeHonestly(s0, s', Work(Receive));
  }

  /** Whether every honest run that becomes quiescent after a batch that was not empty,
      the last re-resolve having the outcome o, agrees. */
  ghost predicate AlwaysAgreesAfter(tag: string, o: Outcome) {
    forall c: Catalog, s: State ::
      && c.index > 0 && HonestlyReaches(Init(tag, c), s) && Quiescent(s)
      && s.batch != [] && s.last.Some? && s.last.value.outcome == o
      ==> Agrees(s)
  }

  /** The other condition of rest is exact too: after the last event's re-resolve the
      cache agrees with the catalogue, in every such run, exactly when its outcome was
      not transient. */
  lemma RetriesMatterExactly(tag: string, o: Outcome)
    ensures AlwaysAgreesAfter(tag, o) <==> !Transient(o)
  {
    if Transient(o) {
      var s := TransientFailureIsNotRetried(tag, o.error);
      ReadsWhatIsOffered(Current(s).instances, s.tag);
      assert !Agrees(s);
    } else {
      forall c: Catalog, s: State |
        && c.index > 0 && HonestlyReaches(Init(tag, c), s) && Quiescent(s)
        && s.batch != [] && s.last.Some? && s.last.value.outcome == o
        ensures Agrees(s)
      {
        AgreementAtRest(tag, c, s);
      }
    }
  }
}
