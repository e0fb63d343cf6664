/** One Manager.Close over everything it tears down (manager.go): its once and its callers
    with the registrations and heartbeats on one side, the resolver table and all watches
    on the other. */
module ManagerClose {
  import R = Resolvers
  import RP = ResolversProofs
  import W = WatchCache
  import C = WatchCacheCancel
  import S = Shutdown
  import L = Lifecycle
  import LP = LifecycleProofs
  import H = Heartbeats

  datatype Whole = Whole(watches: S.System, life: L.State)

  /** The base context is one for both sides, so its cancellation is one step. */
  datatype Action =
    | Watches(a: S.Action)
    | Life(b: L.Action)
    | CancelBase

  function Start(tag: string): Whole {
    Whole(S.Start(tag), L.INIT)
  }

  /** The part of doClose that holds the table's lock: begun by the caller inside the once,
      and over before the registry is closed. */
  predicate Enabled(s: Whole, x: Action) {
    match x
    case Watches(a) =>
      && S.Enabled(s.watches, a)
      && (a == S.Table(R.CloseStep) ==>
            !s.watches.table.closer.Marked? && (s.watches.table.closer.Idle? ==> s.life.teardown.Cancelling?))
    case Life(b) =>
      && L.Enabled(s.life, b) && !b.CancelBase?
      && (b.CloseRegistry? ==> s.watches.table.closer.Closed?)
    case CancelBase =>
      && s.watches.table.closer.Marked?
      && S.Enabled(s.watches, S.Table(R.CloseStep)) && L.Enabled(s.life, L.CancelBase)
  }

  function Apply(s: Whole, x: Action): Whole
    requires Enabled(s, x)
  {
    match x
    case Watches(a) => s.(watches := S.Apply(s.watches, a))
    case Life(b) => s.(life := L.Apply(s.life, b))
    case CancelBase => Whole(S.Apply(s.watches, S.Table(R.CloseStep)), L.Apply(s.life, L.CancelBase))
  }

  predicate Runs(s: Whole, acts: seq<Action>)
    decreases |acts|
  {
    acts == [] || (Enabled(s, acts[0]) && Runs(Apply(s, acts[0]), acts[1..]))
  }

  function Final(s: Whole, acts: seq<Action>): Whole
    requires Runs(s, acts)
    decreases |acts|
  {
    if acts == [] then s else Final(Apply(s, acts[0]), acts[1..])
  }

  // ---------------------------------------------------------------- the two sides

  /** What a step is on the side of the watches, and on the side of the heartbeats. */
  function WatchStep(x: Action): seq<S.Action> {
    match x
    case Watches(a) => [a]
    case Life(_) => []
    case CancelBase => [S.Table(R.CloseStep)]
  }

  function LifeStep(x: Action): seq<L.Action> {
    match x
    case Watches(_) => []
    case Life(b) => [b]
    case CancelBase => [L.CancelBase]
  }

  function WatchSteps(acts: seq<Action>): seq<S.Action> {
    if acts == [] then [] else WatchStep(acts[0]) + WatchSteps(acts[1..])
  }

  function LifeSteps(acts: seq<Action>): seq<L.Action> {
    if acts == [] then [] else LifeStep(acts[0]) + LifeSteps(acts[1..])
  }

  lemma WatchesFirst(w: S.System, a: S.Action, rest: seq<S.Action>)
    requires S.Enabled(w, a) && S.Runs(S.Apply(w, a), rest)
    ensures S.Runs(w, [a] + rest) && S.Final(w, [a] + rest) == S.Final(S.Apply(w, a), rest)
  {
    assert ([a] + rest)[1..] == rest;
  }

  lemma LifeFirst(l: L.State, b: L.Action, rest: seq<L.Action>)
    requires L.Enabled(l, b) && LP.Runs(L.Apply(l, b), rest)
    ensures LP.Runs(l, [b] + rest) && LP.Final(l, [b] + rest) == LP.Final(L.Apply(l, b), rest)
  {
    assert ([b] + rest)[1..] == rest;
  }

  lemma {:induction false} WatchesRun(s: Whole, acts: seq<Action>)
    requires Runs(s, acts)
    ensures S.Runs(s.watches, WatchSteps(acts)) && S.Final(s.watches, WatchSteps(acts)) == Final(s, acts).watches
    decreases |acts|
  {
    if acts != [] {
      var rest := WatchSteps(acts[1..]);
      WatchesRun(Apply(s, acts[0]), acts[1..]);
      match acts[0] {
        case Watches(a) => WatchesFirst(s.watches, a, rest);
        case CancelBase => WatchesFirst(s.watches, S.Table(R.CloseStep), rest);
        case Life(_) => assert WatchSteps(acts) == rest;
      }
    }
  }

  lemma {:induction false} LifeRuns(s: Whole, acts: seq<Action>)
    requires Runs(s, acts)
    ensures LP.Runs(s.life, LifeSteps(acts)) && LP.Final(s.life, LifeSteps(acts)) == Final(s, acts).life
    decreases |acts|
  {
    if acts != [] {
      var rest := LifeSteps(acts[1..]);
      LifeRuns(Apply(s, acts[0]), acts[1..]);
      match acts[0] {
        case Life(b) => LifeFirst(s.life, b, rest);
        case CancelBase => LifeFirst(s.life, L.CancelBase, rest);
        case Watches(_) => assert LifeSteps(acts) == rest;
      }
    }
  }

  /** The two sides of the teardown keep step. */
  predicate InStep(s: Whole) {
    match s.life.teardown
    case NotBegun => s.watches.table.closer.Idle?
    case Cancelling(_) =>
      var closer := s.watches.table.closer;
      closer.Idle? || closer.Locked? || closer.Marked?
    case ClosingRegistry(_) => S.Closing(s.watches)
    case Over(_) => s.watches.table.closer.Closed?
  }

  lemma StepKeepsStep(s: Whole, x: Action)
    requires InStep(s) && Enabled(s, x)
    ensures InStep(Apply(s, x))
  {
    match x {
      case Watches(a) => if a.Table? { OnlyClosingCloses(s.watches.table, a.a); }
      case Life(b) => OnlyTeardownTearsDown(s.life, b);
      case CancelBase =>
    }
  }

  lemma OnlyTeardownTearsDown(l: L.State, b: L.Action)
    requires L.Enabled(l, b) && !b.CancelBase?
    ensures !b.EnterTeardown? && !b.CloseRegistry? ==> L.Apply(l, b).teardown == l.teardown
    ensures b.EnterTeardown? ==> l.teardown.NotBegun? && L.Apply(l, b).teardown.Cancelling?
    ensures b.CloseRegistry? ==> l.teardown.ClosingRegistry? && L.Apply(l, b).teardown.Over?
  {
  }

  lemma OnlyClosingCloses(t: R.State, a: R.Action)
    requires R.Enabled(t, a)
    ensures !a.CloseStep? ==> R.Apply(t, a).closer == t.closer
  {
  }

  lemma {:induction false} RunKeepsStep(s: Whole, acts: seq<Action>)
    requires InStep(s) && Runs(s, acts)
    ensures InStep(Final(s, acts))
    decreases |acts|
  {
    if acts != [] {
      StepKeepsStep(s, acts[0]);
      RunKeepsStep(Apply(s, acts[0]), acts[1..]);
    }
  }

  // ---------------------------------------------------------------- what Close leaves

  /** Nothing of resolver r can move, and no registration is in flight. */
  ghost predicate Settled(s: Whole, r: nat) {
    && S.Exhausted(s.watches, r)
    && (forall j :: j in s.life.jobs ==> !L.InFlight(s.life.jobs[j].at))
  }

  /** Take any run in which some caller's Close has returned, and any continuation: no
      heartbeat is live and no resolver is added; each resolver's goroutines take a
      bounded number of steps and answer at most one poll; at most the registrations that
      were past their check create a context. Once that has settled, those of an opened
      watch have ended and every heartbeat context that ever existed is cancelled. */
  lemma CloseLeavesNothing(tag: string, acts: seq<Action>, after: seq<Action>, k: nat, r: nat)
    requires Runs(Start(tag), acts) && Runs(Final(Start(tag), acts), after)
    requires var s := Final(Start(tag), acts); k in s.life.callers && s.life.callers[k].Returned?
    requires r < |Final(Final(Start(tag), acts), after).watches.cells|
    ensures var s := Final(Start(tag), acts);
            var s' := Final(s, after);
            var cell' := s'.watches.cells[r];
            && s'.watches.table.table == map[] && |s'.watches.cells| == |s.watches.cells|
            && (forall c: nat :: !H.Live(s'.life.ledger, c))
            && |s'.life.ledger.contexts| <= |s.life.ledger.contexts| + |LP.Creators(s.life)|
            && S.Runs(s.watches, WatchSteps(after))
            && S.Answers(WatchSteps(after), r) <= 1
            && S.Steps(s.watches, WatchSteps(after), r)
               <= C.WorkLeft(s.watches.cells[r]) + 6 * S.Polled(s.watches, WatchSteps(after), r)
            && (Settled(s', r) ==>
                  && (W.WatchStarted(cell') ==> C.BothEnded(cell'))
                  && (forall c: nat :: c < |s'.life.ledger.contexts| ==> s'.life.ledger.contexts[c].cancelled))
  {
    var s := Final(Start(tag), acts);
    WatchesRun(Start(tag), acts);
    LifeRuns(Start(tag), acts);
    WatchesRun(s, after);
    LifeRuns(s, after);
    ReturnedIsClosed(tag, acts, k);
    TableStaysEmpty(tag, acts, after);
    LP.ShutdownLeavesNothing(LifeSteps(acts), LifeSteps(after), k);
    S.CloseStopsEveryWatch(tag, WatchSteps(acts), WatchSteps(after), r);
  }

  /** A caller returns only when both sides are torn down. */
  lemma ReturnedIsClosed(tag: string, acts: seq<Action>, k: nat)
    requires Runs(Start(tag), acts)
    requires var s := Final(Start(tag), acts); k in s.life.callers && s.life.callers[k].Returned?
    ensures Final(Start(tag), acts).watches.table.closer.Closed?
  {
    LifeRuns(Start(tag), acts);
    LP.InitInv();
    LP.RunKeepsInv(L.INIT, LifeSteps(acts));
    RunKeepsStep(Start(tag), acts);
  }

  lemma TableStaysEmpty(tag: string, acts: seq<Action>, after: seq<Action>)
    requires Runs(Start(tag), acts) && Final(Start(tag), acts).watches.table.closer.Closed?
    requires Runs(Final(Start(tag), acts), after)
    ensures Final(Final(Start(tag), acts), after).watches.table.table == map[]
  {
    var s := Final(Start(tag), acts);
    WatchesRun(Start(tag), acts);
    WatchesRun(s, after);
    S.TableRuns(S.Start(tag), WatchSteps(acts));
    S.TableRuns(s.watches, WatchSteps(after));
    RP.NoWatchSurvivesClose(S.TableSteps(WatchSteps(acts)), S.TableSteps(WatchSteps(after)));
  }
}
