/** The watch-and-cache protocol of one service name, as a step system: the catalogue,
    the poller of the blocking query (consul.go), the 16-slot event channel, the one
    goroutine that writes the cache (managed_resolver.go) and any number of requests
    reading it. One atomic action per step, in any order. */
module WatchCache {
  import opened Wrappers
  import opened Types
  import opened Cache
  import WatchIndex

  const CHANNEL_CAPACITY := 16

  datatype Instance = Instance(svc: Service, passing: bool)

  /** The service is that of an instance which is passing and carries the tag ("" is any). */
  predicate Offered(svc: Service, instances: seq<Instance>, tag: string) {
    exists i :: i in instances && i.svc == svc && i.passing && (tag == "" || tag in svc.tags)
  }

  /** No instance is passing and carries the tag. */
  predicate NoneOffered(instances: seq<Instance>, tag: string) {
    forall i :: i in instances ==> !(i.passing && (tag == "" || tag in i.svc.tags))
  }

  /** What the registry knows about the name, and the index it reports. */
  datatype Catalog = Catalog(index: nat, instances: seq<Instance>)

  /** The instances a filtered read returns: passing and carrying the tag ("" is any). */
  function Healthy(instances: seq<Instance>, tag: string): seq<Service> {
    if instances == [] then []
    else
      var i := instances[|instances| - 1];
      var before := Healthy(instances[..|instances| - 1], tag);
      if i.passing && (tag == "" || tag in i.svc.tags) then before + [i.svc] else before
  }

  /** A filtered read returns the instances that are passing and carry the tag, all of
      them and no others. */
  lemma {:induction false} ReadsWhatIsOffered(instances: seq<Instance>, tag: string)
    ensures forall svc :: svc in Healthy(instances, tag) <==> Offered(svc, instances, tag)
    ensures Healthy(instances, tag) == [] <==> NoneOffered(instances, tag)
    ensures |Healthy(instances, tag)| <= |instances|
  {
    if instances != [] {
      var last := instances[|instances| - 1];
      var before := instances[..|instances| - 1];
      ReadsWhatIsOffered(before, tag);
      assert instances == before + [last];
      forall svc
        ensures svc in Healthy(instances, tag) <==> Offered(svc, instances, tag)
      {
        assert svc in Healthy(before, tag) <==> Offered(svc, before, tag);
        assert Offered(svc, instances, tag) <==>
               Offered(svc, before, tag) || (last.svc == svc && last.passing && (tag == "" || tag in svc.tags));
      }
    }
  }

  /** Where the poller is. `Unborn` until the watch is opened. */
  datatype Poller =
    | Unborn
    | Top
    | Querying
    | Answered(answer: Catalog)
    | Sleeping
    | Emitting(rest: seq<Instance>)
    | Stopped

  /** Where the writer of the cache is: first the goroutine that won the seed's once,
      then the consumer that it spawns. */
  datatype Writer =
    | Seeding
    | SeedStoring(next: Pending)
    | Opening
    | Waiting
    | Resolving
    | Updating(next: Pending)
    | Gone

  /** Where a request is. `floor` is the number of values stored when it began,
      `version` the number stored when it loaded the value it returns. */
  datatype Reader =
    | LoadSeeded(floor: nat)
    | LoadCurrent(floor: nat)
    | LoadAuthEmpty(floor: nat)
    | LoadSeedErr(floor: nat)
    | Finished(floor: nat, reading: Reading, version: nat)

  /** A value written to `current`, and the catalogue version it was read from. */
  datatype Entry = Entry(svc: Service, at: int)

  /** The last re-resolve of the consumer: the catalogue version it saw, and its outcome. */
  datatype Resolve = Resolve(at: int, outcome: Outcome)

  datatype State = State(
    tag: string,
    history: seq<Catalog>,
    cancelled: bool,
    poller: Poller, lastIndex: nat,
    channel: seq<Instance>, channelClosed: bool,
    writer: Writer, cache: Flags, readers: map<nat, Reader>,
    // What has happened so far, for the statements only; no step branches on it: the
    // values stored, the catalogue version the value in hand was read from, the version
    // when lastIndex was last raised, the batch emitted then, the last re-resolve, and
    // the outcomes of the seed and of all re-resolves.
    log: seq<Entry>, readAt: int, baselineAt: int, batch: seq<Instance>, last: Option<Resolve>,
    seed: Option<Outcome>, outcomes: seq<Outcome>)

  function Now(s: State): int {
    |s.history| - 1
  }

  function Current(s: State): Catalog {
    if s.history == [] then Catalog(0, []) else s.history[|s.history| - 1]
  }

  function Choices(s: State): seq<Service> {
    Healthy(Current(s).instances, s.tag)
  }

  /** A resolver just inserted, its seed about to read a catalogue. */
  function Init(tag: string, c: Catalog): State {
    State(tag, [c], false, Unborn, 0, [], false, Seeding, EMPTY_FLAGS, map[], [], 0, 0, [], None, None, [])
  }

  /** A step of the poller. */
  datatype PollStep =
    | CheckCancelled | Answer | AnswerFails | Decide | WakeUp | WakeCancelled
    | Send | SendCancelled | EmitDone

  /** A step of the cache's writer: the seed, then the consumer. */
  datatype WorkStep =
    | SeedResolves(k: nat) | SeedEmpty | SeedFails(error: Error) | OpenWatch | OpenFails
    | WriteNext
    | Receive | ReceiveClosed | ReceiveCancelled
    | Resolves(k: nat) | ResolvesEmpty | ResolveFails(error: Error)

  datatype Action =
    | Change(c: Catalog)
    | Cancel
    | Poll(poll: PollStep)
    | Work(work: WorkStep)
    | Begin(r: nat)
    | Load(r: nat)

  predicate PollEnabled(s: State, p: PollStep) {
    match p
    case CheckCancelled => s.poller.Top?
    case Answer => s.poller.Querying?
    case AnswerFails => s.poller.Querying?
    case Decide => s.poller.Answered?
    case WakeUp => s.poller.Sleeping?
    case WakeCancelled => s.poller.Sleeping? && s.cancelled
    case Send => s.poller.Emitting? && s.poller.rest != [] && |s.channel| < CHANNEL_CAPACITY
    case SendCancelled => s.poller.Emitting? && s.poller.rest != [] && s.cancelled
    case EmitDone => s.poller.Emitting? && s.poller.rest == []
  }

  predicate WorkEnabled(s: State, w: WorkStep) {
    match w
    case SeedResolves(k) => s.writer.Seeding? && k < |Choices(s)|
    case SeedEmpty => s.writer.Seeding? && Choices(s) == []
    case SeedFails(e) => s.writer.Seeding? && Transient(Failed(e))
    case OpenWatch => s.writer.Opening?
    case OpenFails => s.writer.Opening?
    case WriteNext => s.writer.SeedStoring? || s.writer.Updating?
    case Receive => s.writer.Waiting? && s.channel != []
    case ReceiveClosed => s.writer.Waiting? && s.channel == [] && s.channelClosed
    case ReceiveCancelled => s.writer.Waiting? && s.cancelled
    case Resolves(k) => s.writer.Resolving? && k < |Choices(s)|
    case ResolvesEmpty => s.writer.Resolving? && Choices(s) == []
    case ResolveFails(e) => s.writer.Resolving? && Transient(Failed(e))
  }

  predicate Enabled(s: State, a: Action) {
    match a
    case Change(_) => true
    case Cancel => true
    case Poll(p) => PollEnabled(s, p)
    case Work(w) => WorkEnabled(s, w)
    case Begin(r) => r !in s.readers && WatchStarted(s)
    case Load(r) => r in s.readers && !s.readers[r].Finished?
  }

  /** The once of the seed has returned, so requests may use the resolver. */
  predicate WatchStarted(s: State) {
    !s.writer.Seeding? && !s.writer.SeedStoring? && !s.writer.Opening?
  }

  /** A successful poll: re-baseline on a rewind, ignore an unchanged index, else emit. */
  function Decided(s: State, answer: Catalog): State {
    var s' := s.(lastIndex := WatchIndex.Rebased(s.lastIndex, answer.index));
    if answer.index <= s.lastIndex then
      s'.(poller := Top)
    else
      s'.(poller := Emitting(answer.instances), baselineAt := Now(s), batch := answer.instances)
  }

  function Stop(s: State): State {
    s.(poller := Stopped, channelClosed := true)
  }

  /** One atomic write of the store or clear in progress. */
  function Written(s: State): State
    requires s.writer.SeedStoring? || s.writer.Updating?
  {
    var p := s.writer.next;
    s.(cache := Write(s.cache, p),
       log := if p.StoreCurrent? then s.log + [Entry(p.svc, s.readAt)] else s.log,
       writer := match Then(p)
                 case Some(p') => if s.writer.SeedStoring? then SeedStoring(p') else Updating(p')
                 case None => if s.writer.SeedStoring? then Opening else Waiting)
  }

  /** A failed seed only records its error. */
  function SeedFailed(s: State, e: Error): State {
    s.(writer := Opening, cache := s.cache.(seedErr := Some(e)), seed := Some(Failed(e)))
  }

  /** The consumer has an outcome: it starts the writes the outcome calls for, or none. */
  function Resolved(s: State, o: Outcome): State {
    s.(last := Some(Resolve(Now(s), o)), readAt := Now(s), outcomes := s.outcomes + [o],
       writer := match FirstWrite(o)
                 case Some(p) => Updating(p)
                 case None => Waiting)
  }

  /** One load of a request. */
  function Loaded(s: State, rd: Reader): Reader {
    match rd
    case LoadSeeded(f) => if s.cache.seeded then LoadCurrent(f) else LoadAuthEmpty(f)
    case LoadCurrent(f) =>
      Finished(f, Hit(if s.cache.current.Some? then s.cache.current.value else ZERO_SERVICE), |s.log|)
    case LoadAuthEmpty(f) =>
      if s.cache.authEmpty then Finished(f, Miss(ErrNoHealthyInstances), |s.log|) else LoadSeedErr(f)
    case LoadSeedErr(f) =>
      Finished(f, Miss(if s.cache.seedErr.Some? then s.cache.seedErr.value else ErrNoHealthyInstances), |s.log|)
    case Finished(_, _, _) => rd
  }

  function PollNext(s: State, p: PollStep): State
    requires PollEnabled(s, p)
  {
    match p
    case CheckCancelled => if s.cancelled then Stop(s) else s.(poller := Querying)
    case Answer => s.(poller := Answered(Current(s)))
    case AnswerFails => if s.cancelled then Stop(s) else s.(poller := Sleeping)
    case Decide => Decided(s, s.poller.answer)
    case WakeUp => s.(poller := Top)
    case WakeCancelled => Stop(s)
    case Send => s.(poller := Emitting(s.poller.rest[1..]), channel := s.channel + [s.poller.rest[0]])
    case SendCancelled => Stop(s)
    case EmitDone => s.(poller := Top)
  }

  function WorkNext(s: State, w: WorkStep): State
    requires WorkEnabled(s, w)
  {
    match w
    case SeedResolves(k) =>
      s.(writer := SeedStoring(StoreCurrent(Choices(s)[k])), readAt := Now(s), seed := Some(Ok(Choices(s)[k])))
    case SeedEmpty => SeedFailed(s, ErrNoHealthyInstances)
    case SeedFails(e) => SeedFailed(s, e)
    case OpenWatch => s.(writer := Waiting, poller := Top)
    case OpenFails => s.(writer := Gone, cancelled := true)
    case WriteNext => Written(s)
    case Receive => s.(writer := Resolving, channel := s.channel[1..])
    case ReceiveClosed => s.(writer := Gone)
    case ReceiveCancelled => s.(writer := Gone)
    case Resolves(k) => Resolved(s, Ok(Choices(s)[k]))
    case ResolvesEmpty => Resolved(s, Failed(ErrNoHealthyInstances))
    case ResolveFails(e) => Resolved(s, Failed(e))
  }

  function Apply(s: State, a: Action): State
    requires Enabled(s, a)
  {
    match a
    case Change(c) => s.(history := s.history + [c])
    case Cancel => s.(cancelled := true)
    case Poll(p) => PollNext(s, p)
    case Work(w) => WorkNext(s, w)
    case Begin(r) => s.(readers := s.readers[r := LoadSeeded(|s.log|)])
    case Load(r) => s.(readers := s.readers[r := Loaded(s, s.readers[r])])
  }

  /** What the poller leaves alone. */
  lemma PollFrame(s: State, p: PollStep)
    requires PollEnabled(s, p)
    ensures var s' := PollNext(s, p);
            && (s'.tag, s'.history, s'.cancelled) == (s.tag, s.history, s.cancelled)
            && (s'.writer, s'.cache, s'.readers) == (s.writer, s.cache, s.readers)
            && (s'.log, s'.readAt, s'.last) == (s.log, s.readAt, s.last)
            && (s'.seed, s'.outcomes) == (s.seed, s.outcomes)
  {
  }

  /** What the writer leaves alone. */
  lemma WorkFrame(s: State, w: WorkStep)
    requires WorkEnabled(s, w)
    ensures var s' := WorkNext(s, w);
            && (s'.tag, s'.history, s'.readers) == (s.tag, s.history, s.readers)
            && (s'.lastIndex, s'.channelClosed) == (s.lastIndex, s.channelClosed)
            && (s'.baselineAt, s'.batch) == (s.baselineAt, s.batch)
            && (!w.OpenWatch? ==> s'.poller == s.poller)
            && (!w.Receive? ==> s'.channel == s.channel)
            && (!w.OpenFails? ==> s'.cancelled == s.cancelled)
            && (!w.WriteNext? ==> s'.log == s.log)
            && (!w.WriteNext? && !w.SeedEmpty? && !w.SeedFails? ==> s'.cache == s.cache)
  {
  }

  // ---------------------------------------------------------------- runs

  /** A finite run: every action is enabled where it is taken. */
  predicate Runs(s: State, acts: seq<Action>)
    decreases |acts|
  {
    acts == [] || (Enabled(s, acts[0]) && Runs(Apply(s, acts[0]), acts[1..]))
  }

  function Final(s: State, acts: seq<Action>): State
    requires Runs(s, acts)
    decreases |acts|
  {
    if acts == [] then s else Final(Apply(s, acts[0]), acts[1..])
  }

  /** A run can be extended at its end. */
  lemma {:induction false} RunsThen(s: State, acts: seq<Action>, a: Action)
    requires Runs(s, acts) && Enabled(Final(s, acts), a)
    ensures Runs(s, acts + [a]) && Final(s, acts + [a]) == Apply(Final(s, acts), a)
    decreases |acts|
  {
    if acts == [] {
      assert [a][1..] == [];
    } else {
      RunsThen(Apply(s, acts[0]), acts[1..], a);
      assert (acts + [a])[1..] == acts[1..] + [a];
    }
  }

  /** Some run leads from s0 to s. */
  ghost predicate Reaches(s0: State, s: State) {
    exists acts :: Runs(s0, acts) && Final(s0, acts) == s
  }

  lemma ReachesItself(s: State)
    ensures Reaches(s, s)
  {
    assert Runs(s, []) && Final(s, []) == s;
  }

  /** One more action of a run being built. */
  lemma Take(s0: State, s: State, a: Action) returns (s': State)
    requires Reaches(s0, s) && Enabled(s, a)
    ensures s' == Apply(s, a) && Reaches(s0, s')
  {
    var acts :| Runs(s0, acts) && Final(s0, acts) == s;
    RunsThen(s0, acts, a);
    s' := Apply(s, a);
  }
}
