/** Registration and shutdown together (manager.go, consul.go), as a step system: any
    number of Register calls and RegisterAsync loops, Deregister calls, and callers of
    Manager.Close, interleaved one atomic action at a time over the heartbeat ledger. */
module Lifecycle {
  import opened Wrappers
  import opened Heartbeats

  /** Where a registration is: in the retry loop of RegisterAsync, in the registry's
      Register, or in startHeartbeat: about to check `closed` under the lock, past that
      check and about to create its context, or with the context c it has created. */
  datatype Phase =
    | CheckBase
    | Ready
    | Registering
    | Starting
    | Creating
    | FirstPass(c: nat)
    | Publishing(c: nat)
    | Dropping(c: nat)
    | Backoff
    | Ended

  /** `ttl`: its service is one that is sent with a TTL check, so that a Register that
      succeeds starts a heartbeat. `late` counts the Register calls started after the base
      context was cancelled. */
  datatype Job = Job(id: string, async: bool, ttl: bool, at: Phase, late: nat)

  /** The once that guards the teardown; k is the caller that runs it. */
  datatype Teardown =
    | NotBegun
    | Cancelling(k: nat)
    | ClosingRegistry(k: nat)
    | Over(error: Option<string>)

  datatype Caller = Inside | Returned(error: Option<string>)

  /** `base`: the Manager's base context is cancelled. `closerRuns` counts the calls of
      the registry's own Close, `owner` says which job created each context. */
  datatype State = State(
    ledger: Ledger, base: bool, teardown: Teardown, closerRuns: nat,
    jobs: map<nat, Job>, callers: map<nat, Caller>, owner: seq<nat>)

  const INIT := State(EMPTY_LEDGER, false, NotBegun, 0, map[], map[], [])

  datatype Action =
    | Spawn(j: nat, id: string, async: bool, ttl: bool)
    | Advance(j: nat)
    | RegisterOk(j: nat)
    | RegisterFails(j: nat)
    | TimerFires(j: nat)
    | BackoffCancelled(j: nat)
    | Deregister(id: string)
    | CallClose(k: nat)
    | EnterTeardown(k: nat)
    | CancelBase
    | CloseRegistry(error: Option<string>)
    | ReturnClose(k: nat)

  predicate AtPhase(s: State, j: nat, p: Phase) {
    j in s.jobs && s.jobs[j].at == p
  }

  /** The phases left by a step with one outcome. */
  predicate Advances(s: State, p: Phase) {
    match p
    case CheckBase => true
    case Ready => true
    case Starting => true
    case Creating => true
    case FirstPass(_) => true
    case Publishing(c) => c < |s.ledger.contexts|
    case Dropping(_) => true
    case _ => false
  }

  predicate Enabled(s: State, a: Action) {
    match a
    case Spawn(j, _, _, _) => j !in s.jobs
    case Advance(j) => j in s.jobs && Advances(s, s.jobs[j].at)
    case RegisterOk(j) => AtPhase(s, j, Registering)
    case RegisterFails(j) => AtPhase(s, j, Registering)
    case TimerFires(j) => AtPhase(s, j, Backoff)
    case BackoffCancelled(j) => AtPhase(s, j, Backoff)
    case Deregister(_) => true
    case CallClose(k) => k !in s.callers
    case EnterTeardown(k) => k in s.callers && s.callers[k].Inside? && s.teardown.NotBegun?
    case CancelBase => s.teardown.Cancelling?
    case CloseRegistry(_) => s.teardown.ClosingRegistry?
    case ReturnClose(k) => k in s.callers && s.callers[k].Inside? && s.teardown.Over?
  }

  function To(s: State, j: nat, p: Phase): State
    requires j in s.jobs
  {
    s.(jobs := s.jobs[j := s.jobs[j].(at := p)])
  }

  function Advanced(s: State, j: nat): State
    requires j in s.jobs && Advances(s, s.jobs[j].at)
  {
    var job := s.jobs[j];
    match job.at
    case CheckBase => To(s, j, if s.base then Ended else Ready)
    case Ready =>
      s.(jobs := s.jobs[j := job.(at := Registering, late := job.late + if s.base then 1 else 0)])
    case Starting => To(s, j, if s.ledger.closed then Ended else Creating)
    case Creating =>
      To(s, j, FirstPass(|s.ledger.contexts|)).(ledger := Begun(s.ledger, job.id), owner := s.owner + [j])
    case FirstPass(c) => To(s, j, Publishing(c))
    case Publishing(c) =>
      To(s, j, if s.ledger.closed then Dropping(c) else Ended).(ledger := Published(s.ledger, c))
    case Dropping(c) => To(s, j, Ended).(ledger := Dropped(s.ledger, c))
    case _ => s
  }

  function Apply(s: State, a: Action): State
    requires Enabled(s, a)
  {
    match a
    case Spawn(j, id, async, ttl) =>
      s.(jobs := s.jobs[j := Job(id, async, ttl, if async then CheckBase else Ready, 0)])
    case Advance(j) => Advanced(s, j)
    case RegisterOk(j) => To(s, j, if s.jobs[j].ttl then Starting else Ended)
    case RegisterFails(j) => To(s, j, if s.jobs[j].async then Backoff else Ended)
    case TimerFires(j) => To(s, j, CheckBase)
    case BackoffCancelled(j) => To(s, j, Ended)
    case Deregister(id) => s.(ledger := Deregistered(s.ledger, id))
    case CallClose(k) => s.(callers := s.callers[k := Inside])
    case EnterTeardown(k) => s.(teardown := Cancelling(k))
    case CancelBase => s.(teardown := ClosingRegistry(s.teardown.k), base := true)
    case CloseRegistry(e) =>
      s.(teardown := Over(e), ledger := Closed(s.ledger), closerRuns := s.closerRuns + 1)
    case ReturnClose(k) => s.(callers := s.callers[k := Returned(s.teardown.error)])
  }

  // ---------------------------------------------------------------- invariants

  /** The job holds a context that it created and has not yet given away. */
  predicate HoldsContext(p: Phase) {
    p.FirstPass? || p.Publishing? || p.Dropping?
  }

  /** The job is in startHeartbeat, past the check of `closed`. */
  predicate InFlight(p: Phase) {
    p.Creating? || HoldsContext(p)
  }

  predicate Owns(p: Phase, c: nat) {
    HoldsContext(p) && p.c == c
  }

  /** A context in flight is its job's own: unpublished, not cancelled, under its ID. */
  predicate OwnedOk(s: State, j: nat, job: Job) {
    HoldsContext(job.at) ==>
      && job.at.c < |s.ledger.contexts| && job.at.c < |s.owner|
      && s.ledger.contexts[job.at.c] == Heartbeat(job.id, false, false)
      && s.owner[job.at.c] == j
  }

  predicate OwnershipInv(s: State) {
    && |s.owner| == |s.ledger.contexts|
    && (forall j :: j in s.jobs ==> OwnedOk(s, j, s.jobs[j]))
  }

  /** Every context that is not cancelled is live in the ledger or still in flight. */
  predicate NothingLost(s: State) {
    && |s.owner| == |s.ledger.contexts|
    && (forall c: nat :: c < |s.owner| && !s.ledger.contexts[c].cancelled && !s.ledger.contexts[c].published ==>
          s.owner[c] in s.jobs && Owns(s.jobs[s.owner[c]].at, c))
  }

  /** A retry loop starts at most one call after the cancellation, and then only ends. */
  predicate LateInv(s: State) {
    forall j :: j in s.jobs ==> LateOk(s, s.jobs[j])
  }

  predicate LateOk(s: State, job: Job) {
    job.async ==> job.late <= 1 && (job.late == 1 ==> s.base && !job.at.Ready?)
  }

  /** The teardown runs once, in order, and its result is everybody's. */
  predicate TeardownInv(s: State) {
    && s.closerRuns == (if s.teardown.Over? then 1 else 0)
    && (s.base <==> s.teardown.ClosingRegistry? || s.teardown.Over?)
    && (s.ledger.closed <==> s.teardown.Over?)
    && (forall k :: k in s.callers && s.callers[k].Returned? ==>
          s.teardown.Over? && s.callers[k].error == s.teardown.error)
  }

  predicate Inv(s: State) {
    LedgerInv(s.ledger) && OwnershipInv(s) && NothingLost(s) && LateInv(s) && TeardownInv(s)
  }
}
