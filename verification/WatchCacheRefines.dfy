/** The concurrent protocol refines the sequential resolver: between operations of its
    writer the cache is what the outcomes, applied one after the other, make of it. */
module WatchCacheRefines {
  import opened Types
  import opened Cache
  import opened WatchCache
  import opened WatchCacheReads

  /** The sequential resolver, fed the same outcomes. */
  function Sequential(s: State): Flags
    requires s.seed.Some?
  {
    AfterUpdates(Seeded(EMPTY_FLAGS, s.seed.value), s.outcomes)
  }

  predicate RefinesInv(s: State) {
    match s.writer
    case Seeding => s.cache == EMPTY_FLAGS && s.outcomes == []
    case SeedStoring(p) => s.seed.Some? && s.outcomes == [] && Completed(s.cache, p) == Sequential(s)
    case Opening => s.seed.Some? && s.outcomes == [] && s.cache == Sequential(s)
    case Updating(p) => s.seed.Some? && Completed(s.cache, p) == Sequential(s)
    case _ => s.seed.Some? && s.cache == Sequential(s)
  }

  lemma ResolvedRefines(s: State, o: Outcome)
    requires RefinesInv(s) && s.writer.Resolving?
    ensures RefinesInv(Resolved(s, o))
  {
    OneMore(Seeded(EMPTY_FLAGS, s.seed.value), s.outcomes, o);
    WritesMakeTheOperation(s.cache, o);
  }

  lemma OneMore(c: Flags, outcomes: seq<Outcome>, o: Outcome)
    ensures AfterUpdates(c, outcomes + [o]) == Updated(AfterUpdates(c, outcomes), o)
  {
    assert (outcomes + [o])[..|outcomes|] == outcomes;
  }

  lemma WrittenRefines(s: State)
    requires RefinesInv(s) && (s.writer.SeedStoring? || s.writer.Updating?)
    ensures RefinesInv(Written(s))
  {
  }

  lemma WorkRefines(s: State, w: WorkStep)
    requires RefinesInv(s) && WorkEnabled(s, w)
    ensures RefinesInv(WorkNext(s, w))
  {
    match w {
      case Resolves(k) => ResolvedRefines(s, Ok(Choices(s)[k]));
      case ResolvesEmpty => ResolvedRefines(s, Failed(ErrNoHealthyInstances));
      case ResolveFails(e) => ResolvedRefines(s, Failed(e));
      case WriteNext => WrittenRefines(s);
      case SeedResolves(k) => WritesMakeTheOperation(EMPTY_FLAGS, Ok(Choices(s)[k]));
      case _ =>
    }
  }

  lemma {:induction false} RunRefines(s: State, acts: seq<Action>)
    requires RefinesInv(s) && Runs(s, acts)
    ensures RefinesInv(Final(s, acts))
    decreases |acts|
  {
    if acts != [] {
      match acts[0] {
        case Work(w) => WorkRefines(s, w);
        case Poll(p) => PollFrame(s, p);
        case _ =>
      }
      RunRefines(Apply(s, acts[0]), acts[1..]);
    }
  }

  /** In every run, a request that begins and finishes while the consumer is between
      updates reads the last outcome that was not transient, or the seed's (k == -1). */
  lemma RequestsReadTheLastWord(tag: string, c: Catalog, acts: seq<Action>, quiet: seq<Action>, r: nat, k: int)
    requires Runs(Init(tag, c), acts)
    requires var s := Final(Init(tag, c), acts);
             && (s.writer.Waiting? || s.writer.Resolving? || s.writer.Gone?)
             && -1 <= k < |s.outcomes|
             && (k == -1 || !Transient(s.outcomes[k]))
             && (forall j :: k < j < |s.outcomes| ==> Transient(s.outcomes[j]))
             && r !in s.readers
    requires Runs(Final(Init(tag, c), acts), quiet) && QuietRun(quiet)
    requires var end := Final(Final(Init(tag, c), acts), quiet);
             r in end.readers && end.readers[r].Finished?
    ensures var s := Final(Init(tag, c), acts);
            var end := Final(s, quiet);
            s.seed.Some? && end.readers[r].reading == ReadingOf(Nth(s.seed.value, s.outcomes, k))
  {
    var s := Final(Init(tag, c), acts);
    RunRefines(Init(tag, c), acts);
    QuietReadsObserve(s, quiet, r);
    FlagsMeanTheLastWord(s.seed.value, s.outcomes, k);
  }
}
