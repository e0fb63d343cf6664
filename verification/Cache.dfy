/** The cached state of one service name (managed_resolver.go): its atomics, the order
    in which they are written, and what a resolve reads from them. */
module Cache {
  import opened Wrappers
  import opened Types

  /** What one registry read returns. */
  datatype Outcome = Ok(svc: Service) | Failed(error: Error)

  /** A failure that says nothing about the catalogue, so the cache keeps its value. */
  predicate Transient(o: Outcome) {
    o.Failed? && o.error != ErrNoHealthyInstances
  }

  /** `current`, `seeded`, `authEmpty` and `seedErr`. */
  datatype Flags = Flags(current: Option<Service>, seeded: bool, authEmpty: bool, seedErr: Option<Error>)

  const EMPTY_FLAGS := Flags(None, false, false, None)

  /** What a resolve gets from the cache. */
  datatype Reading = Hit(svc: Service) | Miss(error: Error)

  /** A value of the cache, read when nobody writes it. */
  function Observe(c: Flags): Reading {
    if c.seeded then Hit(if c.current.Some? then c.current.value else ZERO_SERVICE)
    else Miss(EmptyErr(c))
  }

  function EmptyErr(c: Flags): Error {
    if c.authEmpty then ErrNoHealthyInstances
    else if c.seedErr.Some? then c.seedErr.value
    else ErrNoHealthyInstances
  }

  // ------------------------------------------------- the atomic writes, in order

  /** The next atomic write of a store (of svc) or a clear in progress. */
  datatype Pending =
    | StoreCurrent(svc: Service)
    | StoreAuthEmpty
    | StoreSeeded
    | ClearAuthEmpty
    | ClearSeeded

  /** The effect of one atomic write. */
  function Write(c: Flags, p: Pending): Flags {
    match p
    case StoreCurrent(svc) => c.(current := Some(svc))
    case StoreAuthEmpty => c.(authEmpty := false)
    case StoreSeeded => c.(seeded := true)
    case ClearAuthEmpty => c.(authEmpty := true)
    case ClearSeeded => c.(seeded := false)
  }

  /** The write that follows, if any. */
  function Then(p: Pending): Option<Pending> {
    match p
    case StoreCurrent(_) => Some(StoreAuthEmpty)
    case StoreAuthEmpty => Some(StoreSeeded)
    case StoreSeeded => None
    case ClearAuthEmpty => Some(ClearSeeded)
    case ClearSeeded => None
  }

  function WritesLeft(p: Pending): nat {
    match p
    case StoreCurrent(_) => 3
    case StoreAuthEmpty => 2
    case StoreSeeded => 1
    case ClearAuthEmpty => 2
    case ClearSeeded => 1
  }

  /** The cache once the operation in progress is complete. */
  function Completed(c: Flags, p: Pending): Flags
    decreases WritesLeft(p)
  {
    var c' := Write(c, p);
    match Then(p)
    case Some(p') => Completed(c', p')
    case None => c'
  }

  /** The first write that an outcome of an update starts, if it writes at all. */
  function FirstWrite(o: Outcome): Option<Pending> {
    match o
    case Ok(svc) => Some(StoreCurrent(svc))
    case Failed(e) => if e == ErrNoHealthyInstances then Some(ClearAuthEmpty) else None
  }

  // ------------------------------------------------- the resolver, run sequentially

  /** The cache after an undisturbed store. */
  function Stored(c: Flags, svc: Service): Flags {
    Flags(Some(svc), true, false, c.seedErr)
  }

  /** The cache after an undisturbed clear. */
  function Cleared(c: Flags): Flags {
    c.(seeded := false, authEmpty := true)
  }

  function Updated(c: Flags, o: Outcome): Flags {
    match o
    case Ok(svc) => Stored(c, svc)
    case Failed(e) => if e == ErrNoHealthyInstances then Cleared(c) else c
  }

  function AfterUpdates(c: Flags, outcomes: seq<Outcome>): Flags {
    if outcomes == [] then c
    else Updated(AfterUpdates(c, outcomes[..|outcomes| - 1]), outcomes[|outcomes| - 1])
  }

  function Seeded(c: Flags, o: Outcome): Flags {
    match o
    case Ok(svc) => Stored(c, svc)
    case Failed(e) => c.(seedErr := Some(e))
  }

  class ManagedResolver {
    var current: Option<Service>
    var seeded: bool
    var authEmpty: bool
    var seedErr: Option<Error>

    function State(): Flags
      reads this
    {
      Flags(current, seeded, authEmpty, seedErr)
    }

    constructor ()
      ensures State() == EMPTY_FLAGS
    {
      current, seeded, authEmpty, seedErr := None, false, false, None;
    }

    method Store(svc: Service)
      modifies this
      ensures State() == Stored(old(State()), svc)
    {
      current := Some(svc);
      authEmpty := false;
      seeded := true;
    }

    method Clear()
      modifies this
      ensures State() == Cleared(old(State()))
    {
      authEmpty := true;
      seeded := false;
    }

    /** The cached service, or the error an empty cache surfaces. */
    method Read() returns (r: Reading)
      ensures r == Observe(State())
    {
      if !seeded {
        if authEmpty {
          return Miss(ErrNoHealthyInstances);
        }
        if seedErr.Some? {
          return Miss(seedErr.value);
        }
        return Miss(ErrNoHealthyInstances);
      }
      return Hit(if current.Some? then current.value else ZERO_SERVICE);
    }

    /** The one-time seed: a failure is only recorded. */
    method Seed(o: Outcome)
      modifies this
      ensures State() == Seeded(old(State()), o)
    {
      match o {
        case Failed(e) => seedErr := Some(e);
        case Ok(svc) => Store(svc);
      }
    }

    /** The update loop over the outcomes of the re-resolves it makes. */
    method RunManagedUpdates(outcomes: seq<Outcome>)
      modifies this
      ensures State() == AfterUpdates(old(State()), outcomes)
    {
      for i := 0 to |outcomes|
        invariant State() == AfterUpdates(old(State()), outcomes[..i])
      {
        assert outcomes[..i + 1][..i] == outcomes[..i];
        var o := outcomes[i];
        if o.Failed? {
          if o.error == ErrNoHealthyInstances {
            Clear();
          }
          continue;
        }
        Store(o.svc);
      }
      assert outcomes[..|outcomes|] == outcomes;
    }
  }

  /** The atomic writes, done one after the other, are the sequential operations. */
  lemma WritesMakeTheOperation(c: Flags, o: Outcome)
    ensures match FirstWrite(o)
            case Some(p) => Completed(c, p) == Updated(c, o)
            case None => Updated(c, o) == c
  {
    match o {
      case Ok(svc) =>
        var c1 := Write(c, StoreCurrent(svc));
        var c2 := Write(c1, StoreAuthEmpty);
        assert Completed(c2, StoreSeeded) == Write(c2, StoreSeeded);
        assert Completed(c1, StoreAuthEmpty) == Completed(c2, StoreSeeded);
      case Failed(_) =>
        var c1 := Write(c, ClearAuthEmpty);
        assert Completed(c1, ClearSeeded) == Write(c1, ClearSeeded);
    }
  }

  // ------------------------------------------------- what the three flags mean

  function ReadingOf(o: Outcome): Reading {
    match o
    case Ok(svc) => Hit(svc)
    case Failed(e) => Miss(e)
  }

  /** Outcome number k of a seed (number -1) followed by updates. */
  function Nth(seed: Outcome, updates: seq<Outcome>, k: int): Outcome
    requires -1 <= k < |updates|
  {
    if k == -1 then seed else updates[k]
  }

  /** The flags of a resolver seeded and updated so far, against its history: they say
      exactly which outcome was the last that was not transient. */
  lemma {:induction false} FlagsMeanTheLastWord(seed: Outcome, updates: seq<Outcome>, k: int)
    requires -1 <= k < |updates|
    requires k == -1 || !Transient(updates[k])
    requires forall j :: k < j < |updates| ==> Transient(updates[j])
    ensures Observe(AfterUpdates(Seeded(EMPTY_FLAGS, seed), updates)) == ReadingOf(Nth(seed, updates, k))
  {
    var last := |updates| - 1;
    if last >= 0 {
      var before := updates[..last];
      if k == last {
      } else {
        FlagsMeanTheLastWord(seed, before, k);
      }
    }
  }
}
