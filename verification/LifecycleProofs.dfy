/** What registration and shutdown guarantee in every run. */
module LifecycleProofs {
  import opened Wrappers
  import opened Heartbeats
  import opened Lifecycle

  // ------------------------------------------------- one step keeps the invariants

  lemma JobKeepsLedger(s: State, j: nat)
    requires Inv(s) && Enabled(s, Advance(j))
    ensures LedgerInv(Advanced(s, j).ledger)
  {
    assert OwnedOk(s, j, s.jobs[j]);
    match s.jobs[j].at {
      case Creating => BegunKeeps(s.ledger, s.jobs[j].id);
      case Publishing(c) => PublishedKeeps(s.ledger, c);
      case Dropping(c) => DroppedKeeps(s.ledger, c);
      case _ =>
    }
  }

  lemma StepKeepsLedger(s: State, a: Action)
    requires Inv(s) && Enabled(s, a)
    ensures LedgerInv(Apply(s, a).ledger)
  {
    match a {
      case Advance(j) => JobKeepsLedger(s, j);
      case Deregister(id) => DeregisteredKeeps(s.ledger, id);
      case CloseRegistry(_) => ClosedKeeps(s.ledger);
      case _ =>
    }
  }

  /** A change of the ledger that leaves unpublished contexts as they are. */
  predicate SpareUnpublished(l: Ledger, l': Ledger) {
    && |l'.contexts| == |l.contexts|
    && (forall c: nat :: c < |l.contexts| && !l.contexts[c].published ==> l'.contexts[c] == l.contexts[c])
    && (forall c: nat :: c < |l.contexts| && l.contexts[c].published ==> l'.contexts[c].published)
  }

  lemma SectionsSpareUnpublished(l: Ledger, id: string)
    requires LedgerInv(l)
    ensures SpareUnpublished(l, Deregistered(l, id)) && SpareUnpublished(l, Closed(l))
  {
  }

  lemma SparedKeepsOwners(s: State, l: Ledger)
    requires OwnershipInv(s) && NothingLost(s) && SpareUnpublished(s.ledger, l)
    ensures OwnershipInv(s.(ledger := l)) && NothingLost(s.(ledger := l))
  {
    var s' := s.(ledger := l);
    forall j | j in s'.jobs
      ensures OwnedOk(s', j, s'.jobs[j])
    {
      assert OwnedOk(s, j, s.jobs[j]);
    }
  }

  /** A job that holds no context moves to a phase without one. */
  lemma PlainMoveKeepsOwners(s: State, j: nat, job: Job)
    requires OwnershipInv(s) && NothingLost(s)
    requires (j in s.jobs ==> !HoldsContext(s.jobs[j].at)) && !HoldsContext(job.at)
    ensures OwnershipInv(s.(jobs := s.jobs[j := job])) && NothingLost(s.(jobs := s.jobs[j := job]))
  {
    var s' := s.(jobs := s.jobs[j := job]);
    forall i | i in s'.jobs
      ensures OwnedOk(s', i, s'.jobs[i])
    {
      if i != j { assert OwnedOk(s, i, s.jobs[i]); }
    }
  }

  lemma CreateKeepsOwners(s: State, j: nat)
    requires Inv(s) && Enabled(s, Advance(j)) && s.jobs[j].at.Creating?
    ensures OwnershipInv(Advanced(s, j)) && NothingLost(Advanced(s, j))
  {
    var s' := Advanced(s, j);
    forall i | i in s'.jobs
      ensures OwnedOk(s', i, s'.jobs[i])
    {
      if i != j { assert OwnedOk(s, i, s.jobs[i]); }
    }
  }

  lemma PublishKeepsOwners(s: State, j: nat)
    requires Inv(s) && Enabled(s, Advance(j)) && s.jobs[j].at.Publishing?
    ensures OwnershipInv(Advanced(s, j)) && NothingLost(Advanced(s, j))
  {
    var s', c := Advanced(s, j), s.jobs[j].at.c;
    assert OwnedOk(s, j, s.jobs[j]);
    forall i | i in s'.jobs
      ensures OwnedOk(s', i, s'.jobs[i])
    {
      assert OwnedOk(s, i, s.jobs[i]);
      if i != j && HoldsContext(s.jobs[i].at) {
        assert s.jobs[i].at.c != c;
      }
    }
    forall d: nat | d < |s'.owner| && !s'.ledger.contexts[d].cancelled && !s'.ledger.contexts[d].published
      ensures s'.owner[d] in s'.jobs && Owns(s'.jobs[s'.owner[d]].at, d)
    {
      assert !s.ledger.contexts[d].cancelled && !s.ledger.contexts[d].published;
    }
  }

  lemma DropKeepsOwners(s: State, j: nat)
    requires Inv(s) && Enabled(s, Advance(j)) && (s.jobs[j].at.Dropping? || s.jobs[j].at.FirstPass?)
    ensures OwnershipInv(Advanced(s, j)) && NothingLost(Advanced(s, j))
  {
    var s', c := Advanced(s, j), s.jobs[j].at.c;
    assert OwnedOk(s, j, s.jobs[j]);
    forall i | i in s'.jobs
      ensures OwnedOk(s', i, s'.jobs[i])
    {
      assert OwnedOk(s, i, s.jobs[i]);
      if i != j && HoldsContext(s.jobs[i].at) {
        assert s.jobs[i].at.c != c;
      }
    }
    forall d: nat | d < |s'.owner| && !s'.ledger.contexts[d].cancelled && !s'.ledger.contexts[d].published
      ensures s'.owner[d] in s'.jobs && Owns(s'.jobs[s'.owner[d]].at, d)
    {
      assert !s.ledger.contexts[d].cancelled && !s.ledger.contexts[d].published;
    }
  }

  lemma AdvanceKeepsOwners(s: State, j: nat)
    requires Inv(s) && Enabled(s, Advance(j))
    ensures OwnershipInv(Advanced(s, j)) && NothingLost(Advanced(s, j))
  {
    match s.jobs[j].at {
      case Creating => CreateKeepsOwners(s, j);
      case Publishing(_) => PublishKeepsOwners(s, j);
      case Dropping(_) => DropKeepsOwners(s, j);
      case FirstPass(_) => DropKeepsOwners(s, j);
      case CheckBase => PlainMoveKeepsOwners(s, j, Advanced(s, j).jobs[j]);
      case Ready => PlainMoveKeepsOwners(s, j, Advanced(s, j).jobs[j]);
      case Starting => PlainMoveKeepsOwners(s, j, Advanced(s, j).jobs[j]);
      case _ =>
    }
  }

  lemma StepKeepsOwners(s: State, a: Action)
    requires Inv(s) && Enabled(s, a)
    ensures OwnershipInv(Apply(s, a)) && NothingLost(Apply(s, a))
  {
    var s' := Apply(s, a);
    match a {
      case Advance(j) => AdvanceKeepsOwners(s, j);
      case Spawn(j, _, _, _) => PlainMoveKeepsOwners(s, j, s'.jobs[j]);
      case RegisterOk(j) => PlainMoveKeepsOwners(s, j, s'.jobs[j]);
      case RegisterFails(j) => PlainMoveKeepsOwners(s, j, s'.jobs[j]);
      case TimerFires(j) => PlainMoveKeepsOwners(s, j, s'.jobs[j]);
      case BackoffCancelled(j) => PlainMoveKeepsOwners(s, j, s'.jobs[j]);
      case Deregister(id) =>
        SectionsSpareUnpublished(s.ledger, id);
        SparedKeepsOwners(s, s'.ledger);
      case CloseRegistry(e) =>
        SectionsSpareUnpublished(s.ledger, "");
        SparedKeepsOwners(s, s'.ledger);
        SameJobsKeepOwners(s.(ledger := s'.ledger), s');
      case _ => SameJobsKeepOwners(s, s');
    }
  }

  lemma SameJobsKeepOwners(s: State, s': State)
    requires OwnershipInv(s) && NothingLost(s)
    requires (s'.ledger, s'.jobs, s'.owner) == (s.ledger, s.jobs, s.owner)
    ensures OwnershipInv(s') && NothingLost(s')
  {
    forall j | j in s'.jobs
      ensures OwnedOk(s', j, s'.jobs[j])
    {
      assert OwnedOk(s, j, s.jobs[j]);
    }
  }

  lemma StepKeepsLate(s: State, a: Action)
    requires LateInv(s) && Enabled(s, a)
    ensures LateInv(Apply(s, a))
  {
    var s' := Apply(s, a);
    forall j | j in s'.jobs
      ensures LateOk(s', s'.jobs[j])
    {
      assert j in s.jobs ==> LateOk(s, s.jobs[j]);
      JobStaysInBound(s, a, j);
    }
  }

  lemma JobStaysInBound(s: State, a: Action, j: nat)
    requires Enabled(s, a) && j in Apply(s, a).jobs && (j in s.jobs ==> LateOk(s, s.jobs[j]))
    ensures LateOk(Apply(s, a), Apply(s, a).jobs[j])
  {
    if a == Advance(j) {
      AdvanceStaysInBound(s, j);
    } else {
      OtherStepsOfJobs(s, a, j);
    }
  }

  lemma AdvanceStaysInBound(s: State, j: nat)
    requires Enabled(s, Advance(j)) && LateOk(s, s.jobs[j])
    ensures LateOk(Advanced(s, j), Advanced(s, j).jobs[j])
  {
  }

  /** What a step can do to a job other than advance it. */
  lemma OtherStepsOfJobs(s: State, a: Action, j: nat)
    requires Enabled(s, a) && a != Advance(j) && j in Apply(s, a).jobs
    ensures s.base ==> Apply(s, a).base
    ensures s.ledger.closed ==> Apply(s, a).ledger.closed
    ensures a.Spawn? && a.j == j ==> j !in s.jobs && Apply(s, a).jobs[j].late == 0
    ensures !(a.Spawn? && a.j == j) ==>
              && j in s.jobs
              && (Apply(s, a).jobs[j] == s.jobs[j]
                  || (a == RegisterOk(j) && s.jobs[j].at.Registering?
                      && Apply(s, a).jobs[j] == s.jobs[j].(at := if s.jobs[j].ttl then Starting else Ended))
                  || (a == RegisterFails(j) && s.jobs[j].at.Registering?
                      && Apply(s, a).jobs[j] == s.jobs[j].(at := if s.jobs[j].async then Backoff else Ended))
                  || (a == TimerFires(j) && s.jobs[j].at.Backoff? && Apply(s, a).jobs[j] == s.jobs[j].(at := CheckBase))
                  || (a == BackoffCancelled(j) && Apply(s, a).jobs[j] == s.jobs[j].(at := Ended)))
  {
  }

  lemma StepKeepsTeardown(s: State, a: Action)
    requires TeardownInv(s) && Enabled(s, a)
    ensures TeardownInv(Apply(s, a))
  {
  }

  lemma StepKeepsInv(s: State, a: Action)
    requires Inv(s) && Enabled(s, a)
    ensures Inv(Apply(s, a))
  {
    StepKeepsLedger(s, a);
    StepKeepsOwners(s, a);
    StepKeepsLate(s, a);
    StepKeepsTeardown(s, a);
  }

  // ---------------------------------------------------------------- runs

  predicate Runs(s: State, acts: seq<Action>)
    decreases |acts|
  {
    acts == [] || (Enabled(s, acts[0]) && Runs(Apply(s, acts[0]), acts[1..]))
  }

  function Final(s: State, acts: seq<Action>): State
    requires Runs(s, acts)
    decreases |acts|
  {
    if acts == [] then s else Final(Apply(s, acts[0]), acts[1..])
  }

  lemma {:induction false} RunKeepsInv(s: State, acts: seq<Action>)
    requires Inv(s) && Runs(s, acts)
    ensures Inv(Final(s, acts))
    decreases |acts|
  {
    if acts != [] {
      StepKeepsInv(s, acts[0]);
      RunKeepsInv(Apply(s, acts[0]), acts[1..]);
    }
  }

  lemma InitInv()
    ensures Inv(INIT)
  {
  }

  /** In every run the live heartbeats are exactly the map's values, at most one per
      service ID; none is live once the registry's Close has run. */
  lemma LiveHeartbeatsAreTheMap(acts: seq<Action>)
    requires Runs(INIT, acts)
    ensures var l := Final(INIT, acts).ledger;
            && (forall c: nat :: Live(l, c) <==> exists id :: id in l.table && l.table[id] == c)
            && (forall c: nat, d: nat :: Live(l, c) && Live(l, d) && l.contexts[c].id == l.contexts[d].id ==> c == d)
            && (l.closed ==> forall c: nat :: !Live(l, c))
  {
    InitInv();
    RunKeepsInv(INIT, acts);
    var l := Final(INIT, acts).ledger;
    forall c: nat
      ensures Live(l, c) <==> exists id :: id in l.table && l.table[id] == c
    {
      if Live(l, c) {
        assert l.contexts[c].id in l.table && l.table[l.contexts[c].id] == c;
      }
    }
  }

  /** Every RegisterAsync loop starts at most one Register after Close has cancelled the
      base context, however long the run goes on. */
  lemma AtMostOneLateRegister(acts: seq<Action>, j: nat)
    requires Runs(INIT, acts) && j in Final(INIT, acts).jobs && Final(INIT, acts).jobs[j].async
    ensures Final(INIT, acts).jobs[j].late <= 1
    ensures Final(INIT, acts).jobs[j].late == 1 ==> Final(INIT, acts).base
  {
    InitInv();
    RunKeepsInv(INIT, acts);
  }

  /** No caller of Close, however many race, returns before the base context is cancelled
      and the registry closed. That the closer has then run once and that all callers get
      its one result is what the once around the teardown promises. */
  lemma CloseRunsOnce(acts: seq<Action>, k1: nat, k2: nat)
    requires Runs(INIT, acts)
    ensures Final(INIT, acts).closerRuns <= 1
    ensures var s := Final(INIT, acts);
            k1 in s.callers && k2 in s.callers && s.callers[k1].Returned? && s.callers[k2].Returned? ==>
              && s.callers[k1].error == s.callers[k2].error
              && CloseRegistry(s.callers[k1].error) in acts
              && s.base && s.ledger.closed && s.closerRuns == 1
  {
    InitInv();
    RunKeepsInv(INIT, acts);
    if Final(INIT, acts).teardown.Over? { TheErrorIsTheRegistrys(INIT, acts); }
  }

  lemma {:induction false} TheErrorIsTheRegistrys(s: State, acts: seq<Action>)
    requires Runs(s, acts) && !s.teardown.Over? && Final(s, acts).teardown.Over?
    ensures CloseRegistry(Final(s, acts).teardown.error) in acts
    decreases |acts|
  {
    if acts != [] {
      var s' := Apply(s, acts[0]);
      if s'.teardown.Over? {
        OverStays(s', acts[1..]);
        assert acts[0] == CloseRegistry(s'.teardown.error);
      } else {
        TheErrorIsTheRegistrys(s', acts[1..]);
      }
    }
  }

  lemma {:induction false} OverStays(s: State, acts: seq<Action>)
    requires Runs(s, acts) && s.teardown.Over?
    ensures Final(s, acts).teardown == s.teardown
    decreases |acts|
  {
    if acts != [] {
      OverStays(Apply(s, acts[0]), acts[1..]);
    }
  }

  // ------------------------------------------------- retries, and nobody stuck

  /** A retry loop that has not called Register, and will not. */
  predicate NeverCalls(job: Job) {
    job.async && job.late == 0 && (job.at.CheckBase? || job.at.Ended?)
  }

  lemma LateLoopsStep(s: State, a: Action, j: nat)
    requires s.base && Enabled(s, a) && (j in s.jobs ==> !s.jobs[j].async || NeverCalls(s.jobs[j]))
    requires j in Apply(s, a).jobs && Apply(s, a).jobs[j].async
    ensures NeverCalls(Apply(s, a).jobs[j])
  {
    if a != Advance(j) { OtherStepsOfJobs(s, a, j); }
  }

  lemma {:induction false} LateLoopsRun(s: State, acts: seq<Action>, j: nat)
    requires s.base && Runs(s, acts) && (j in s.jobs ==> !s.jobs[j].async || NeverCalls(s.jobs[j]))
    ensures j in Final(s, acts).jobs && Final(s, acts).jobs[j].async ==> NeverCalls(Final(s, acts).jobs[j])
    decreases |acts|
  {
    if acts != [] {
      var s' := Apply(s, acts[0]);
      if j in s'.jobs && s'.jobs[j].async { LateLoopsStep(s, acts[0], j); }
      LateLoopsRun(s', acts[1..], j);
    }
  }

  /** A retry loop begun after Close has cancelled the base context calls Register not even
      once: it only ends. */
  lemma LateLoopsNeverCall(acts: seq<Action>, after: seq<Action>, j: nat)
    requires Runs(INIT, acts) && Final(INIT, acts).base && j !in Final(INIT, acts).jobs
    requires Runs(Final(INIT, acts), after)
    requires j in Final(Final(INIT, acts), after).jobs && Final(Final(INIT, acts), after).jobs[j].async
    ensures var job := Final(Final(INIT, acts), after).jobs[j];
            job.late == 0 && (job.at.CheckBase? || job.at.Ended?)
  {
    LateLoopsRun(Final(INIT, acts), after, j);
  }

  /** Between the attempts of a registration, or in one. */
  predicate Trying(p: Phase) {
    p.CheckBase? || p.Ready? || p.Registering? || p.Backoff?
  }

  lemma StopsForAReason(s: State, a: Action, j: nat)
    requires Enabled(s, a) && (j in s.jobs ==> s.jobs[j].async && Trying(s.jobs[j].at))
    requires j in Apply(s, a).jobs && Apply(s, a).jobs[j].async && !Trying(Apply(s, a).jobs[j].at)
    ensures Apply(s, a).base || a == RegisterOk(j) || a == BackoffCancelled(j)
  {
    if a == Advance(j) {
      assert s.jobs[j].at.CheckBase? || s.jobs[j].at.Ready?;
    } else {
      OtherStepsOfJobs(s, a, j);
    }
  }

  lemma {:induction false} TriesOn(s: State, acts: seq<Action>, j: nat)
    requires Runs(s, acts) && (j in s.jobs ==> s.jobs[j].async && Trying(s.jobs[j].at))
    requires j in Final(s, acts).jobs && Final(s, acts).jobs[j].async && !Trying(Final(s, acts).jobs[j].at)
    ensures Final(s, acts).base || RegisterOk(j) in acts || BackoffCancelled(j) in acts
    decreases |acts|
  {
    if acts != [] {
      var s' := Apply(s, acts[0]);
      if j in s'.jobs && s'.jobs[j].async && !Trying(s'.jobs[j].at) {
        StopsForAReason(s, acts[0], j);
        BaseStays(s', acts[1..]);
      } else {
        if j in s'.jobs && !s'.jobs[j].async { KindStays(s', acts[1..], j); }
        TriesOn(s', acts[1..], j);
      }
    }
  }

  /** A retry loop goes on trying: in every run, one that has stopped was cancelled (by
      Close, or in its sleep), or its registration succeeded. */
  lemma RetriesUntilDone(acts: seq<Action>, j: nat)
    requires Runs(INIT, acts) && j in Final(INIT, acts).jobs
    requires Final(INIT, acts).jobs[j].async && !Trying(Final(INIT, acts).jobs[j].at)
    ensures Final(INIT, acts).base || RegisterOk(j) in acts || BackoffCancelled(j) in acts
  {
    TriesOn(INIT, acts, j);
  }

  lemma {:induction false} BaseStays(s: State, acts: seq<Action>)
    requires Runs(s, acts)
    ensures s.base ==> Final(s, acts).base
    decreases |acts|
  {
    if acts != [] {
      BaseStays(Apply(s, acts[0]), acts[1..]);
    }
  }

  lemma {:induction false} KindStays(s: State, acts: seq<Action>, j: nat)
    requires Runs(s, acts) && j in s.jobs
    ensures j in Final(s, acts).jobs && Final(s, acts).jobs[j].async == s.jobs[j].async
    decreases |acts|
  {
    if acts != [] {
      var a := acts[0];
      assert j in Apply(s, a).jobs;
      if a != Advance(j) { OtherStepsOfJobs(s, a, j); }
      KindStays(Apply(s, a), acts[1..], j);
    }
  }

  /** No deadlock, in any run: a registration that has not ended can step, and so can a
      caller of Close or the one that runs the teardown for it. A retry loop asleep when
      Close cancels the base context can end at once. */
  lemma NobodyIsStuck(acts: seq<Action>)
    requires Runs(INIT, acts)
    ensures var s := Final(INIT, acts);
            && (forall j :: j in s.jobs && !s.jobs[j].at.Ended? ==>
                  Enabled(s, Advance(j)) || Enabled(s, RegisterOk(j)) || Enabled(s, TimerFires(j)))
            && (forall j :: j in s.jobs && s.jobs[j].at.Backoff? && s.base ==>
                  Enabled(s, BackoffCancelled(j)) && Apply(s, BackoffCancelled(j)).jobs[j].at.Ended?)
            && (forall k :: k in s.callers && s.callers[k].Inside? ==>
                  || Enabled(s, EnterTeardown(k)) || Enabled(s, ReturnClose(k))
                  || Enabled(s, CancelBase) || Enabled(s, CloseRegistry(None)))
  {
    InitInv();
    RunKeepsInv(INIT, acts);
    var s := Final(INIT, acts);
    forall j | j in s.jobs && !s.jobs[j].at.Ended?
      ensures Enabled(s, Advance(j)) || Enabled(s, RegisterOk(j)) || Enabled(s, TimerFires(j))
    {
      JobCanStep(s, j);
    }
    forall j | j in s.jobs && s.jobs[j].at.Backoff?
      ensures Enabled(s, BackoffCancelled(j)) && Apply(s, BackoffCancelled(j)).jobs[j].at.Ended?
    {
      SleepCanEnd(s, j);
    }
    CallersCanStep(s);
  }

  lemma SleepCanEnd(s: State, j: nat)
    requires j in s.jobs && s.jobs[j].at.Backoff?
    ensures Enabled(s, BackoffCancelled(j)) && Apply(s, BackoffCancelled(j)).jobs[j].at.Ended?
  {
  }

  lemma CallersCanStep(s: State)
    ensures forall k :: k in s.callers && s.callers[k].Inside? ==>
              || Enabled(s, EnterTeardown(k)) || Enabled(s, ReturnClose(k))
              || Enabled(s, CancelBase) || Enabled(s, CloseRegistry(None))
  {
  }

  lemma JobCanStep(s: State, j: nat)
    requires OwnershipInv(s) && j in s.jobs && !s.jobs[j].at.Ended?
    ensures Enabled(s, Advance(j)) || Enabled(s, RegisterOk(j)) || Enabled(s, TimerFires(j))
  {
    assert OwnedOk(s, j, s.jobs[j]);
  }

  /** The jobs that have passed the check of `closed` but not yet created a context. */
  function Creators(s: State): (js: set<nat>) {
    set j | j in s.jobs && s.jobs[j].at.Creating?
  }

  /** One step of a closed registry: only who was past the check can create a context,
      and nothing is published. */
  lemma ContextsAfterClosed(s: State, a: Action)
    requires s.ledger.closed && |s.owner| == |s.ledger.contexts| && Enabled(s, a)
    ensures var s' := Apply(s, a);
            && s'.ledger.closed && |s'.owner| == |s'.ledger.contexts| && s.owner <= s'.owner
            && (forall c: nat :: c < |s.owner| ==> s'.ledger.contexts[c].published == s.ledger.contexts[c].published)
            && (forall c: nat :: |s.owner| <= c < |s'.owner| ==>
                  s'.owner[c] in Creators(s) && !s'.ledger.contexts[c].published)
  {
    if a.Advance? {
      AdvanceAfterClosed(s, a.j);
    } else {
      assert Apply(s, a).owner == s.owner && |Apply(s, a).ledger.contexts| == |s.ledger.contexts|;
    }
  }

  lemma AdvanceAfterClosed(s: State, j: nat)
    requires s.ledger.closed && |s.owner| == |s.ledger.contexts| && Enabled(s, Advance(j))
    ensures var s' := Advanced(s, j);
            && s'.ledger.closed && |s'.owner| == |s'.ledger.contexts| && s.owner <= s'.owner
            && (forall c: nat :: c < |s.owner| ==> s'.ledger.contexts[c].published == s.ledger.contexts[c].published)
            && (forall c: nat :: |s.owner| <= c < |s'.owner| ==>
                  s'.owner[c] == j && j in Creators(s) && !s'.ledger.contexts[c].published)
  {
    if s.jobs[j].at.Creating? {
      assert j in Creators(s);
      assert Advanced(s, j).owner == s.owner + [j];
      assert Advanced(s, j).ledger.contexts == s.ledger.contexts + [Heartbeat(s.jobs[j].id, false, false)];
    } else {
      assert Advanced(s, j).owner == s.owner;
    }
  }

  predicate Creates(s: State, a: Action) {
    a.Advance? && AtPhase(s, a.j, Creating)
  }

  /** Nobody else gets past the check, and creating uses it up. */
  lemma CheckAfterClosed(s: State, a: Action, j: nat)
    requires s.ledger.closed && Enabled(s, a) && AtPhase(Apply(s, a), j, Creating)
    ensures AtPhase(s, j, Creating) && a != Advance(j)
  {
  }

  lemma CreationIsCounted(s: State, a: Action)
    requires Enabled(s, a)
    ensures |Apply(s, a).owner| == |s.owner| + if Creates(s, a) then 1 else 0
  {
  }

  lemma CreatorsAfterClosed(s: State, a: Action)
    requires s.ledger.closed && Enabled(s, a)
    ensures var s' := Apply(s, a);
            && Creators(s') <= Creators(s)
            && |s'.owner| + |Creators(s')| <= |s.owner| + |Creators(s)|
  {
    var s' := Apply(s, a);
    var used := if Creates(s, a) then {a.j} else {};
    forall j | j in Creators(s')
      ensures j in Creators(s) - used
    {
      CheckAfterClosed(s, a, j);
    }
    CreationIsCounted(s, a);
    assert used <= Creators(s);
    FewerJobs(Creators(s'), Creators(s) - used);
  }

  lemma FewerJobs(a: set<nat>, b: set<nat>)
    requires a <= b
    ensures |a| <= |b|
  {
    assert a + (b - a) == b;
  }

  lemma {:induction false} RunAfterClosed(s: State, acts: seq<Action>)
    requires s.ledger.closed && |s.owner| == |s.ledger.contexts| && Runs(s, acts)
    ensures var s' := Final(s, acts);
            && s'.ledger.closed && |s'.owner| == |s'.ledger.contexts| && s.owner <= s'.owner
            && Creators(s') <= Creators(s)
            && |s'.owner| + |Creators(s')| <= |s.owner| + |Creators(s)|
            && (forall c: nat :: c < |s.owner| ==> s'.ledger.contexts[c].published == s.ledger.contexts[c].published)
            && (forall c: nat :: |s.owner| <= c < |s'.owner| ==>
                  s'.owner[c] in Creators(s) && !s'.ledger.contexts[c].published)
    decreases |acts|
  {
    if acts != [] {
      ContextsAfterClosed(s, acts[0]);
      CreatorsAfterClosed(s, acts[0]);
      RunAfterClosed(Apply(s, acts[0]), acts[1..]);
    }
  }

  /** Shutdown leaves nothing behind. Take any run in which some caller's Close has
      returned and any continuation. No heartbeat is live. A context created after the
      return belongs to a registration that was then already past the check of `closed`,
      and there are no more of them than of those; none is ever published. Once nothing
      is in flight, every context that ever existed is cancelled. */
  lemma ShutdownLeavesNothing(acts: seq<Action>, after: seq<Action>, k: nat)
    requires Runs(INIT, acts) && k in Final(INIT, acts).callers && Final(INIT, acts).callers[k].Returned?
    requires Runs(Final(INIT, acts), after)
    ensures var s, s' := Final(INIT, acts), Final(Final(INIT, acts), after);
            && s'.ledger.table == map[] && (forall c: nat :: !Live(s'.ledger, c))
            && |s.owner| == |s.ledger.contexts| && |s'.owner| == |s'.ledger.contexts|
            && |s'.ledger.contexts| <= |s.ledger.contexts| + |Creators(s)|
            && (forall c: nat :: |s.ledger.contexts| <= c < |s'.ledger.contexts| ==>
                  s'.owner[c] in Creators(s) && !s'.ledger.contexts[c].published)
            && ((forall j :: j in s'.jobs ==> !InFlight(s'.jobs[j].at)) ==>
                  forall c: nat :: c < |s'.ledger.contexts| ==> s'.ledger.contexts[c].cancelled)
  {
    InitInv();
    RunKeepsInv(INIT, acts);
    var s := Final(INIT, acts);
    RunKeepsInv(s, after);
    RunAfterClosed(s, after);
    var s' := Final(s, after);
    assert forall c: nat :: !Live(s'.ledger, c);
  }

  /** A context can be created after Close has returned if and only if at its return a
      registration was past the check of `closed` and had not created its context yet. */
  lemma LateContextsExactly(acts: seq<Action>, k: nat)
    requires Runs(INIT, acts) && k in Final(INIT, acts).callers && Final(INIT, acts).callers[k].Returned?
    ensures var s := Final(INIT, acts);
            (exists after :: Runs(s, after) && |Final(s, after).ledger.contexts| > |s.ledger.contexts|)
            <==> exists j :: j in s.jobs && s.jobs[j].at.Creating?
  {
    var s := Final(INIT, acts);
    if j :| j in s.jobs && s.jobs[j].at.Creating? {
      var after := [Advance(j)];
      assert after[1..] == [];
      assert Runs(Apply(s, Advance(j)), []) && Runs(s, after) && Final(s, after) == Apply(s, Advance(j));
      assert |Final(s, after).ledger.contexts| == |s.ledger.contexts| + 1;
    } else {
      assert Creators(s) == {};
      forall after | Runs(s, after)
        ensures |Final(s, after).ledger.contexts| <= |s.ledger.contexts|
      {
        ShutdownLeavesNothing(acts, after, k);
      }
    }
  }

  /** One more action of a run being built. */
  lemma {:induction false} Take(s: State, acts: seq<Action>, a: Action) returns (longer: seq<Action>)
    requires Runs(s, acts) && Enabled(Final(s, acts), a)
    ensures Runs(s, longer) && Final(s, longer) == Apply(Final(s, acts), a)
    decreases |acts|
  {
    if acts == [] {
      longer := [a];
      assert longer[1..] == [] && Runs(Apply(s, a), []);
    } else {
      var rest := Take(Apply(s, acts[0]), acts[1..], a);
      longer := [acts[0]] + rest;
      assert longer[1..] == rest;
    }
  }

  /** A registration that has just passed the check. */
  lemma CheckPassed(id: string) returns (acts: seq<Action>)
    ensures Runs(INIT, acts)
    ensures Final(INIT, acts) == INIT.(jobs := map[0 := Job(id, false, true, Creating, 0)])
  {
    assert Runs(INIT, []);
    acts := Take(INIT, [], Spawn(0, id, false, true));
    acts := Take(INIT, acts, Advance(0));
    acts := Take(INIT, acts, RegisterOk(0));
    acts := Take(INIT, acts, Advance(0));
  }

  /** Such a return exists: Close runs from its start to its end between the check and
      the creation. */
  lemma CloseBetweenCheckAndCreation(id: string) returns (acts: seq<Action>)
    ensures Runs(INIT, acts)
    ensures var s := Final(INIT, acts);
            0 in s.callers && s.callers[0].Returned? && 0 in s.jobs && s.jobs[0].at.Creating?
  {
    acts := CheckPassed(id);
    acts := Take(INIT, acts, CallClose(0));
    acts := Take(INIT, acts, EnterTeardown(0));
    acts := Take(INIT, acts, CancelBase);
    acts := Take(INIT, acts, CloseRegistry(None));
    acts := Take(INIT, acts, ReturnClose(0));
  }

  // ------------------------------------------------- what Deregister does not stop

  /** A registration that may still publish a heartbeat if nothing more is started:
      before startHeartbeat only one with a TTL check, and then a retry loop between its
      attempts only while the base context lives. */
  predicate Hopeful(s: State, job: Job) {
    match job.at
    case CheckBase => job.ttl && !s.base
    case Backoff => job.ttl && !s.base
    case Ready => job.ttl
    case Registering => job.ttl
    case Dropping(_) => false
    case Ended => false
    case _ => true
  }

  predicate HopeFor(s: State, id: string) {
    !s.ledger.closed && exists j :: j in s.jobs && s.jobs[j].id == id && Hopeful(s, s.jobs[j])
  }

  /** A run that starts no new registration. */
  predicate StartsNothing(acts: seq<Action>) {
    forall i :: 0 <= i < |acts| ==> !acts[i].Spawn?
  }

  lemma StepBringsNoHope(s: State, a: Action, id: string)
    requires Inv(s) && Enabled(s, a) && !a.Spawn?
    requires id !in s.ledger.table && !HopeFor(s, id)
    ensures id !in Apply(s, a).ledger.table && !HopeFor(Apply(s, a), id)
  {
    var s' := Apply(s, a);
    forall j | j in s'.jobs && s'.jobs[j].id == id && !s'.ledger.closed
      ensures !Hopeful(s', s'.jobs[j])
    {
      HopeIsOld(s, a, j);
    }
    if a.Advance? && s.jobs[a.j].at.Publishing? {
      assert OwnedOk(s, a.j, s.jobs[a.j]);
      assert Hopeful(s, s.jobs[a.j]);
    } else {
      OnlyPublishingPublishes(s, a, id);
    }
  }

  /** A job is hopeful only if it was. */
  lemma HopeIsOld(s: State, a: Action, j: nat)
    requires Enabled(s, a) && !a.Spawn? && j in Apply(s, a).jobs
    ensures s.ledger.closed ==> Apply(s, a).ledger.closed
    ensures j in s.jobs && s.jobs[j].id == Apply(s, a).jobs[j].id
    ensures Hopeful(Apply(s, a), Apply(s, a).jobs[j]) && !Apply(s, a).ledger.closed ==> Hopeful(s, s.jobs[j])
  {
    if a == Advance(j) {
      AdvanceGivesNoHope(s, j);
    } else {
      OtherStepsOfJobs(s, a, j);
    }
  }

  lemma AdvanceGivesNoHope(s: State, j: nat)
    requires Enabled(s, Advance(j))
    ensures var s' := Advanced(s, j);
            && (s.ledger.closed ==> s'.ledger.closed)
            && j in s'.jobs && s'.jobs[j].id == s.jobs[j].id
            && (Hopeful(s', s'.jobs[j]) ==> Hopeful(s, s.jobs[j]))
  {
  }

  lemma OnlyPublishingPublishes(s: State, a: Action, id: string)
    requires Enabled(s, a) && !(a.Advance? && s.jobs[a.j].at.Publishing?) && id !in s.ledger.table
    ensures id !in Apply(s, a).ledger.table
  {
  }

  lemma {:induction false} HopelessStaysQuiet(s: State, acts: seq<Action>, id: string)
    requires Inv(s) && Runs(s, acts) && StartsNothing(acts)
    requires id !in s.ledger.table && !HopeFor(s, id)
    ensures id !in Final(s, acts).ledger.table
    decreases |acts|
  {
    if acts != [] {
      assert !acts[0].Spawn?;
      StepBringsNoHope(s, acts[0], id);
      StepKeepsInv(s, acts[0]);
      assert StartsNothing(acts[1..]) by {
        forall i | 0 <= i < |acts| - 1 ensures !acts[1..][i].Spawn? { assert !acts[i + 1].Spawn?; }
      }
      HopelessStaysQuiet(Apply(s, acts[0]), acts[1..], id);
    }
  }

  /** The next action of a hopeful job on its way to publishing. */
  function TowardsPublishing(j: nat, p: Phase): Action {
    match p
    case Backoff => TimerFires(j)
    case Registering => RegisterOk(j)
    case _ => Advance(j)
  }

  function Distance(p: Phase): nat {
    match p
    case Backoff => 8
    case CheckBase => 7
    case Ready => 6
    case Registering => 5
    case Starting => 4
    case Creating => 3
    case FirstPass(_) => 2
    case Publishing(_) => 1
    case _ => 0
  }

  lemma HopefulStep(s: State, j: nat)
    requires Inv(s) && !s.ledger.closed && j in s.jobs && Hopeful(s, s.jobs[j])
    ensures var a := TowardsPublishing(j, s.jobs[j].at);
            && Enabled(s, a) && !a.Spawn?
            && (var s' := Apply(s, a);
                && !s'.ledger.closed && j in s'.jobs && s'.jobs[j].id == s.jobs[j].id
                && (s.jobs[j].at.Publishing? ==> s.jobs[j].id in s'.ledger.table)
                && (!s.jobs[j].at.Publishing? ==>
                      Hopeful(s', s'.jobs[j]) && Distance(s'.jobs[j].at) < Distance(s.jobs[j].at)))
  {
    assert OwnedOk(s, j, s.jobs[j]);
  }

  lemma {:induction false} HopefulPublishes(s: State, j: nat) returns (acts: seq<Action>)
    requires Inv(s) && !s.ledger.closed && j in s.jobs && Hopeful(s, s.jobs[j])
    ensures Runs(s, acts) && StartsNothing(acts)
    ensures s.jobs[j].id in Final(s, acts).ledger.table
    decreases Distance(s.jobs[j].at)
  {
    HopefulStep(s, j);
    var a := TowardsPublishing(j, s.jobs[j].at);
    var s' := Apply(s, a);
    var rest: seq<Action> := [];
    if s.jobs[j].at.Publishing? {
      assert Runs(s', []) && Final(s', []) == s';
    } else {
      StepKeepsInv(s, a);
      rest := HopefulPublishes(s', j);
    }
    acts := [a] + rest;
    assert acts[1..] == rest;
  }

  /** The exact reach of Deregister: right after it, the service ID can come back to life
      without any new registration being started if and only if the registry is open and
      a registration of that ID is still on its way to a heartbeat (see Hopeful: one
      without a TTL check never is, a retry loop between attempts only while the base
      context lives). */
  lemma DeregisterHoldsExactly(acts: seq<Action>, id: string)
    requires Runs(INIT, acts)
    ensures var s := Apply(Final(INIT, acts), Deregister(id));
            && id !in s.ledger.table
            && ((exists more :: Runs(s, more) && StartsNothing(more) && id in Final(s, more).ledger.table)
                <==> HopeFor(s, id))
  {
    InitInv();
    RunKeepsInv(INIT, acts);
    StepKeepsInv(Final(INIT, acts), Deregister(id));
    var s := Apply(Final(INIT, acts), Deregister(id));
    if HopeFor(s, id) {
      var j :| j in s.jobs && s.jobs[j].id == id && Hopeful(s, s.jobs[j]);
      var more := HopefulPublishes(s, j);
    } else {
      forall more | Runs(s, more) && StartsNothing(more)
        ensures id !in Final(s, more).ledger.table
      {
        HopelessStaysQuiet(s, more, id);
      }
    }
  }
}
