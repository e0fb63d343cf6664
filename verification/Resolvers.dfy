/** The table of managed resolvers (managed_resolver.go, manager.go), as a step system:
    any number of requests for any names look up, insert, seed once and open the watch,
    while Close marks, cancels and drains at any moment. A section under the lock that
    touches only what the lock guards is one step; Close, which also cancels contexts
    that other goroutines create, takes several while it holds the lock. */
module Resolvers {
  import opened Wrappers

  datatype Once = Untouched | RunBy(t: nat) | Returned

  /** A resolver that was inserted in the table. `cancel` is its context's cancel
      function, once saved. */
  datatype Resolver = Resolver(name: string, once: Once, cancel: Option<nat>)

  /** Where a request is in managedResolverFor; r is the resolver it holds and c the
      watch context it has created. */
  datatype Position =
    | Lookup
    | Insert
    | EnterOnce(r: nat)
    | SeedRead(r: nat)
    | MakeContext(r: nat)
    | SaveCancel(r: nat, c: nat)
    | OpenWatch(r: nat, c: nat)
    | CancelOwn(r: nat, c: nat)
    | LeaveOnce(r: nat)
    | Holds(r: nat)
    | HoldsEphemeral

  datatype Request = Request(name: string, at: Position)

  datatype Closer = Idle | Locked | Marked | Draining | Closed

  /** `table` maps a name to the number of its resolver; `resolvers` are all ever
      inserted. Context 0 is the Manager's base context, every other is a child of it;
      `done` says which are cancelled. */
  datatype State = State(
    table: map<string, nat>,
    resolvers: seq<Resolver>,
    closed: bool,
    closer: Closer,
    done: seq<bool>,
    requests: map<nat, Request>,
    // The seed reads issued and the watches opened so far, by resolver.
    seedReads: seq<nat>, watches: seq<nat>)

  const INIT := State(map[], [], false, Idle, [false], map[], [], [])

  predicate LockHeld(s: State) {
    s.closer.Locked? || s.closer.Marked? || s.closer.Draining?
  }

  /** The request runs the function that the resolver's once guards. */
  predicate InOnce(p: Position) {
    p.SeedRead? || p.MakeContext? || p.SaveCancel? || p.OpenWatch? || p.CancelOwn? || p.LeaveOnce?
  }

  predicate HasResolver(p: Position) {
    p.EnterOnce? || p.Holds? || InOnce(p)
  }

  datatype Action =
    | Spawn(t: nat, name: string)
    | Step(t: nat)
    | WatchFails(t: nat)
    | CloseStep
    | Drain(name: string)

  predicate Enabled(s: State, a: Action) {
    match a
    case Spawn(t, _) => t !in s.requests
    case Step(t) =>
      t in s.requests && (
        match s.requests[t].at
        case Lookup => !LockHeld(s)
        case Insert => !LockHeld(s)
        case EnterOnce(r) => r < |s.resolvers| && !s.resolvers[r].once.RunBy?
        case SaveCancel(r, _) => r < |s.resolvers|
        case LeaveOnce(r) => r < |s.resolvers|
        case Holds(_) => false
        case HoldsEphemeral => false
        case _ => true)
    case WatchFails(t) => t in s.requests && s.requests[t].at.OpenWatch?
    case CloseStep => !s.closer.Closed? && (s.closer.Draining? ==> s.table == map[])
    case Drain(name) =>
      s.closer.Draining? && name in s.table && s.table[name] < |s.resolvers|
  }

  /** A cancelled context cancels its children with it. */
  function Cancelled(done: seq<bool>, c: nat): (d: seq<bool>)
    ensures |d| == |done|
  {
    if c == 0 then seq(|done|, i => true)
    else if c < |done| then done[c := true]
    else done
  }

  /** A child of the base context is cancelled from the start if the base is. */
  function WithChild(done: seq<bool>): seq<bool> {
    done + [done != [] && done[0]]
  }

  function At(s: State, t: nat, p: Position): State
    requires t in s.requests
  {
    s.(requests := s.requests[t := s.requests[t].(at := p)])
  }

  function Inserted(s: State, t: nat): State
    requires t in s.requests
  {
    var name := s.requests[t].name;
    if s.closed then At(s, t, HoldsEphemeral)
    else if name in s.table then At(s, t, EnterOnce(s.table[name]))
    else
      At(s, t, EnterOnce(|s.resolvers|)).(
        table := s.table[name := |s.resolvers|],
        resolvers := s.resolvers + [Resolver(name, Untouched, None)])
  }

  function Entered(s: State, t: nat, r: nat): State
    requires t in s.requests && r < |s.resolvers|
  {
    if s.resolvers[r].once.Returned? then At(s, t, Holds(r))
    else
      At(s, t, SeedRead(r)).(
        resolvers := s.resolvers[r := s.resolvers[r].(once := RunBy(t))],
        seedReads := s.seedReads + [r])
  }

  function Stepped(s: State, t: nat): State
    requires Enabled(s, Step(t))
  {
    var name := s.requests[t].name;
    match s.requests[t].at
    case Lookup => At(s, t, if name in s.table then EnterOnce(s.table[name]) else Insert)
    case Insert => Inserted(s, t)
    case EnterOnce(r) => Entered(s, t, r)
    case SeedRead(r) => At(s, t, MakeContext(r))
    case MakeContext(r) => At(s, t, SaveCancel(r, |s.done|)).(done := WithChild(s.done))
    case SaveCancel(r, c) =>
      At(s, t, OpenWatch(r, c)).(resolvers := s.resolvers[r := s.resolvers[r].(cancel := Some(c))])
    case OpenWatch(r, c) => At(s, t, LeaveOnce(r)).(watches := s.watches + [r])
    case CancelOwn(r, c) => At(s, t, LeaveOnce(r)).(done := Cancelled(s.done, c))
    case LeaveOnce(r) =>
      At(s, t, Holds(r)).(resolvers := s.resolvers[r := s.resolvers[r].(once := Returned)])
    case Holds(_) => s
    case HoldsEphemeral => s
  }

  function CloseStepped(s: State): State {
    match s.closer
    case Idle => s.(closer := Locked)
    case Locked => s.(closer := Marked, closed := true)
    case Marked => s.(closer := Draining, done := Cancelled(s.done, 0))
    case Draining => s.(closer := Closed)
    case Closed => s
  }

  function Drained(s: State, name: string): State
    requires Enabled(s, Drain(name))
  {
    var stop := s.resolvers[s.table[name]].cancel;
    s.(table := s.table - {name}, done := if stop.Some? then Cancelled(s.done, stop.value) else s.done)
  }

  function Apply(s: State, a: Action): State
    requires Enabled(s, a)
  {
    match a
    case Spawn(t, name) => s.(requests := s.requests[t := Request(name, Lookup)])
    case Step(t) => Stepped(s, t)
    case WatchFails(t) => At(s, t, CancelOwn(s.requests[t].at.r, s.requests[t].at.c))
    case CloseStep => CloseStepped(s)
    case Drain(name) => Drained(s, name)
  }

  // ---------------------------------------------------------------- invariants

  /** The table and the resolvers name each other; until the drain the table holds them
      all, and no name was ever inserted twice. */
  predicate TableInv(s: State) {
    && (forall n :: n in s.table ==> s.table[n] < |s.resolvers| && s.resolvers[s.table[n]].name == n)
    && (!s.closer.Draining? && !s.closer.Closed? ==>
          forall i :: 0 <= i < |s.resolvers| ==> s.resolvers[i].name in s.table)
    && (forall i, j :: 0 <= i < j < |s.resolvers| ==> s.resolvers[i].name != s.resolvers[j].name)
    && (s.closed <==> s.closer.Marked? || s.closer.Draining? || s.closer.Closed?)
    && (s.closer.Closed? ==> s.table == map[])
  }

  /** The base context is cancelled exactly from the drain on, and then so is every other. */
  predicate ContextInv(s: State) {
    && DoneInv(s)
    && (forall t :: t in s.requests ==> ContextOk(s.requests[t].at, |s.done|))
  }

  predicate DoneInv(s: State) {
    && s.done != []
    && (s.done[0] <==> s.closer.Draining? || s.closer.Closed?)
    && (s.done[0] ==> forall c :: 0 <= c < |s.done| ==> s.done[c])
    && (forall i :: 0 <= i < |s.resolvers| && s.resolvers[i].cancel.Some? ==>
          0 < s.resolvers[i].cancel.value < |s.done|)
  }

  predicate ContextOk(p: Position, n: nat) {
    match p
    case SaveCancel(_, c) => 0 < c < n
    case OpenWatch(_, c) => 0 < c < n
    case CancelOwn(_, c) => 0 < c < n
    case _ => true
  }

  /** A request's resolver is an inserted one of its name; it is inside the once exactly
      as the once records, and past it only when the once has returned. */
  predicate RequestOk(s: State, t: nat, q: Request) {
    && (HasResolver(q.at) ==> q.at.r < |s.resolvers| && s.resolvers[q.at.r].name == q.name)
    && (InOnce(q.at) ==> s.resolvers[q.at.r].once == RunBy(t))
    && (q.at.Holds? ==> s.resolvers[q.at.r].once.Returned?)
    && (q.at.HoldsEphemeral? ==> s.closed)
  }

  predicate RequestInv(s: State) {
    forall t :: t in s.requests ==> RequestOk(s, t, s.requests[t])
  }

  /** Who opens a watch, or failed to, has saved its context's cancel; before that there is
      none. */
  predicate SavedInv(s: State) {
    && (forall t :: t in s.requests ==> Saved(s, s.requests[t].at))
    && (forall i :: 0 <= i < |s.resolvers| && s.resolvers[i].once.Untouched? ==> s.resolvers[i].cancel == None)
  }

  predicate Saved(s: State, p: Position) {
    && (p.OpenWatch? || p.CancelOwn? ==> p.r < |s.resolvers| && s.resolvers[p.r].cancel == Some(p.c))
    && (p.SeedRead? || p.MakeContext? || p.SaveCancel? ==> p.r < |s.resolvers| && s.resolvers[p.r].cancel == None)
  }

  /** A once that is being run is run by the request inside it. */
  predicate OwnerInv(s: State) {
    forall i :: 0 <= i < |s.resolvers| && s.resolvers[i].once.RunBy? ==>
      var t := s.resolvers[i].once.t;
      t in s.requests && InOnce(s.requests[t].at) && s.requests[t].at.r == i
  }

  /** The once of resolver i has returned, or is about to. */
  predicate PastOpening(s: State, i: nat) {
    i < |s.resolvers| && (
      || s.resolvers[i].once.Returned?
      || (s.resolvers[i].once.RunBy? && s.resolvers[i].once.t in s.requests
          && s.requests[s.resolvers[i].once.t].at == LeaveOnce(i)))
  }

  /** By then its watch is open, or its context is cancelled. */
  predicate OpenOrCancelled(s: State, i: nat) {
    && i < |s.resolvers| && s.resolvers[i].cancel.Some?
    && (i in s.watches || (s.resolvers[i].cancel.value < |s.done| && s.done[s.resolvers[i].cancel.value]))
  }

  predicate OpeningInv(s: State) {
    forall i :: 0 <= i < |s.resolvers| && PastOpening(s, i) ==> OpenOrCancelled(s, i)
  }

  /** Every watch context has one owner: no two resolvers share one, and one still to be
      saved is nobody else's. */
  predicate OwnContextsInv(s: State) {
    && (forall i, j :: 0 <= i < j < |s.resolvers| && s.resolvers[i].cancel.Some? ==>
          s.resolvers[i].cancel != s.resolvers[j].cancel)
    && (forall t :: t in s.requests && s.requests[t].at.SaveCancel? ==> ToBeSaved(s, s.requests[t].at))
    && (forall t, u :: t in s.requests && u in s.requests && t != u
                       && s.requests[t].at.SaveCancel? && s.requests[u].at.SaveCancel? ==>
          s.requests[t].at.c != s.requests[u].at.c)
  }

  predicate ToBeSaved(s: State, p: Position)
    requires p.SaveCancel?
  {
    && (forall i :: 0 <= i < |s.resolvers| ==> s.resolvers[i].cancel != Some(p.c))
    && (s.done != [] && !s.done[0] ==> p.c < |s.done| && !s.done[p.c])
  }

  /** Until Close, only a context whose watch failed to open is cancelled. */
  predicate IsolationInv(s: State) {
    s.done != [] && !s.done[0] ==> forall i :: 0 <= i < |s.resolvers| ==> Isolated(s, i)
  }

  predicate Isolated(s: State, i: nat) {
    && i < |s.resolvers|
    && (s.resolvers[i].cancel.Some? && s.resolvers[i].cancel.value < |s.done| && s.done[s.resolvers[i].cancel.value] ==>
          PastOpening(s, i) && i !in s.watches)
  }

  predicate Distinct(xs: seq<nat>) {
    forall i, j :: 0 <= i < j < |xs| ==> xs[i] != xs[j]
  }

  /** A resolver is in the ledger of seed reads exactly when its once was entered, and in
      that of watches only when the once is about to return or has. */
  predicate LedgerInv(s: State) {
    && Distinct(s.seedReads) && Distinct(s.watches)
    && (forall r :: r in s.seedReads ==> r < |s.resolvers|)
    && (forall r :: 0 <= r < |s.resolvers| ==> (r in s.seedReads <==> !s.resolvers[r].once.Untouched?))
    && (forall r :: r in s.watches ==> r in s.seedReads && !s.resolvers[r].once.Untouched?)
    && (forall r :: r in s.watches && s.resolvers[r].once.RunBy? ==>
          s.resolvers[r].once.t in s.requests && s.requests[s.resolvers[r].once.t].at == LeaveOnce(r))
  }

  predicate Inv(s: State) {
    TableInv(s) && ContextInv(s) && RequestInv(s) && LedgerInv(s)
  }
}
