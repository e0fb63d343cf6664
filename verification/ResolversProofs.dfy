/** What the resolver table guarantees in every run: one resolver, one seed read and one
    watch per name, and no watch that outlives Close. */
module ResolversProofs {
  import opened Wrappers
  import opened Resolvers

  lemma InsertKeepsTable(s: State, t: nat)
    requires TableInv(s) && Enabled(s, Step(t)) && s.requests[t].at.Insert?
    ensures TableInv(Inserted(s, t))
  {
  }

  lemma StepKeepsTable(s: State, t: nat)
    requires TableInv(s) && RequestInv(s) && Enabled(s, Step(t))
    ensures TableInv(Stepped(s, t))
  {
    assert RequestOk(s, t, s.requests[t]);
    if s.requests[t].at.Insert? {
      InsertKeepsTable(s, t);
    } else {
      OnlyInsertGrows(s, t);
    }
  }

  lemma OnlyInsertGrows(s: State, t: nat)
    requires Enabled(s, Step(t)) && !s.requests[t].at.Insert?
    ensures var s' := Stepped(s, t);
            && |s'.resolvers| == |s.resolvers| && (s'.table, s'.closed, s'.closer) == (s.table, s.closed, s.closer)
            && forall i :: 0 <= i < |s.resolvers| ==> s'.resolvers[i].name == s.resolvers[i].name
  {
  }

  lemma CloseKeepsTable(s: State, a: Action)
    requires TableInv(s) && Enabled(s, a) && (a.CloseStep? || a.Drain?)
    ensures TableInv(Apply(s, a))
  {
  }

  lemma StepKeepsDone(s: State, t: nat)
    requires DoneInv(s) && Enabled(s, Step(t)) && ContextOk(s.requests[t].at, |s.done|)
    ensures DoneInv(Stepped(s, t))
  {
  }

  lemma StepKeepsContext(s: State, t: nat, u: nat)
    requires Enabled(s, Step(t)) && ContextOk(s.requests[t].at, |s.done|)
    requires u in s.requests && ContextOk(s.requests[u].at, |s.done|) && s.done != []
    ensures var s' := Stepped(s, t); u in s'.requests && ContextOk(s'.requests[u].at, |s'.done|)
  {
    assert |s.done| <= |Stepped(s, t).done|;
  }

  lemma StepKeepsContexts(s: State, t: nat)
    requires ContextInv(s) && Enabled(s, Step(t))
    ensures ContextInv(Stepped(s, t))
  {
    assert ContextOk(s.requests[t].at, |s.done|);
    StepKeepsDone(s, t);
    var s' := Stepped(s, t);
    forall u | u in s'.requests
      ensures ContextOk(s'.requests[u].at, |s'.done|)
    {
      assert u in s.requests && ContextOk(s.requests[u].at, |s.done|);
      StepKeepsContext(s, t, u);
    }
  }

  lemma CloseKeepsContexts(s: State, a: Action)
    requires ContextInv(s) && Enabled(s, a) && (a.CloseStep? || a.Drain?)
    ensures ContextInv(Apply(s, a))
  {
  }

  lemma StepKeepsRequests(s: State, t: nat)
    requires TableInv(s) && RequestInv(s) && Enabled(s, Step(t))
    ensures RequestInv(Stepped(s, t))
  {
    var s' := Stepped(s, t);
    assert RequestOk(s, t, s.requests[t]);
    forall u | u in s'.requests
      ensures RequestOk(s', u, s'.requests[u])
    {
      assert RequestOk(s, u, s.requests[u]);
      if u == t {
        RequestItself(s, t);
      } else {
        OtherRequests(s, t, u);
      }
    }
  }

  lemma RequestItself(s: State, t: nat)
    requires TableInv(s) && Enabled(s, Step(t)) && RequestOk(s, t, s.requests[t])
    ensures t in Stepped(s, t).requests && RequestOk(Stepped(s, t), t, Stepped(s, t).requests[t])
  {
    if s.requests[t].at.Insert? {
      InserterItself(s, t);
    } else {
      OnlyInsertGrows(s, t);
    }
  }

  lemma InserterItself(s: State, t: nat)
    requires TableInv(s) && Enabled(s, Step(t)) && s.requests[t].at.Insert?
    ensures t in Inserted(s, t).requests && RequestOk(Inserted(s, t), t, Inserted(s, t).requests[t])
  {
  }

  /** A step of one request moves a resolver's once only when it owns it or nobody does. */
  lemma OtherRequests(s: State, t: nat, u: nat)
    requires Enabled(s, Step(t)) && RequestOk(s, t, s.requests[t])
    requires u in s.requests && u != t && RequestOk(s, u, s.requests[u])
    ensures u in Stepped(s, t).requests && Stepped(s, t).requests[u] == s.requests[u]
    ensures RequestOk(Stepped(s, t), u, s.requests[u])
  {
    var s' := Stepped(s, t);
    assert |s.resolvers| <= |s'.resolvers|;
    assert forall i :: 0 <= i < |s.resolvers| ==> s'.resolvers[i].name == s.resolvers[i].name;
  }

  lemma DistinctThen(xs: seq<nat>, x: nat)
    requires Distinct(xs) && x !in xs
    ensures Distinct(xs + [x])
  {
  }

  lemma StepKeepsLedger(s: State, t: nat)
    requires RequestInv(s) && LedgerInv(s) && Enabled(s, Step(t))
    ensures LedgerInv(Stepped(s, t))
  {
    assert RequestOk(s, t, s.requests[t]);
    match s.requests[t].at {
      case EnterOnce(r) => EnterKeepsLedger(s, t, r);
      case OpenWatch(r, c) => OpenKeepsLedger(s, t);
      case LeaveOnce(r) => LeaveKeepsLedger(s, t);
      case SaveCancel(r, c) => SaveKeepsLedger(s, t);
      case Insert => InsertKeepsLedger(s, t);
      case _ => SameResolversKeepLedger(s, t);
    }
  }

  lemma EnterKeepsLedger(s: State, t: nat, r: nat)
    requires LedgerInv(s) && Enabled(s, Step(t)) && s.requests[t].at == EnterOnce(r)
    ensures LedgerInv(Stepped(s, t))
  {
    if s.resolvers[r].once.Untouched? {
      assert r !in s.seedReads && r !in s.watches;
      DistinctThen(s.seedReads, r);
    }
  }

  lemma OpenKeepsLedger(s: State, t: nat)
    requires LedgerInv(s) && Enabled(s, Step(t)) && s.requests[t].at.OpenWatch? && RequestOk(s, t, s.requests[t])
    ensures LedgerInv(Stepped(s, t))
  {
    var r := s.requests[t].at.r;
    assert s.resolvers[r].once == RunBy(t);
    assert r !in s.watches;
    DistinctThen(s.watches, r);
  }

  lemma LeaveKeepsLedger(s: State, t: nat)
    requires LedgerInv(s) && Enabled(s, Step(t)) && s.requests[t].at.LeaveOnce? && RequestOk(s, t, s.requests[t])
    ensures LedgerInv(Stepped(s, t))
  {
  }

  lemma SaveKeepsLedger(s: State, t: nat)
    requires LedgerInv(s) && Enabled(s, Step(t)) && s.requests[t].at.SaveCancel?
    ensures LedgerInv(Stepped(s, t))
  {
  }

  lemma InsertKeepsLedger(s: State, t: nat)
    requires LedgerInv(s) && Enabled(s, Step(t)) && s.requests[t].at.Insert?
    ensures LedgerInv(Stepped(s, t))
  {
  }

  lemma SameResolversKeepLedger(s: State, t: nat)
    requires LedgerInv(s) && Enabled(s, Step(t))
    requires var p := s.requests[t].at;
             p.Lookup? || p.SeedRead? || p.MakeContext? || p.CancelOwn? || p.Holds? || p.HoldsEphemeral?
    ensures LedgerInv(Stepped(s, t))
  {
  }

  lemma StepKeepsInv(s: State, a: Action)
    requires Inv(s) && Enabled(s, a)
    ensures Inv(Apply(s, a))
  {
    match a {
      case Step(t) =>
        StepKeepsTable(s, t);
        StepKeepsContexts(s, t);
        StepKeepsRequests(s, t);
        StepKeepsLedger(s, t);
      case CloseStep =>
        CloseKeepsTable(s, a);
        CloseKeepsContexts(s, a);
        CloseKeepsRequests(s, a);
      case Drain(_) =>
        CloseKeepsTable(s, a);
        CloseKeepsContexts(s, a);
        CloseKeepsRequests(s, a);
      case Spawn(t, name) => SpawnKeepsInv(s, t, name);
      case WatchFails(t) => WatchFailsKeepsInv(s, t);
    }
  }

  lemma CloseKeepsRequests(s: State, a: Action)
    requires RequestInv(s) && LedgerInv(s) && Enabled(s, a) && (a.CloseStep? || a.Drain?)
    ensures RequestInv(Apply(s, a)) && LedgerInv(Apply(s, a))
  {
    var s' := Apply(s, a);
    forall t | t in s'.requests
      ensures RequestOk(s', t, s'.requests[t])
    {
      assert RequestOk(s, t, s.requests[t]);
    }
  }

  lemma SpawnKeepsInv(s: State, t: nat, name: string)
    requires Inv(s) && t !in s.requests
    ensures Inv(Apply(s, Spawn(t, name)))
  {
    var s' := Apply(s, Spawn(t, name));
    forall u | u in s'.requests
      ensures RequestOk(s', u, s'.requests[u]) && ContextOk(s'.requests[u].at, |s'.done|)
    {
      if u != t {
        assert RequestOk(s, u, s.requests[u]) && ContextOk(s.requests[u].at, |s.done|);
      }
    }
  }

  lemma WatchFailsKeepsInv(s: State, t: nat)
    requires Inv(s) && Enabled(s, WatchFails(t))
    ensures Inv(Apply(s, WatchFails(t)))
  {
    var s' := Apply(s, WatchFails(t));
    assert RequestOk(s, t, s.requests[t]) && ContextOk(s.requests[t].at, |s.done|);
    forall u | u in s'.requests
      ensures RequestOk(s', u, s'.requests[u]) && ContextOk(s'.requests[u].at, |s'.done|)
    {
      if u != t {
        assert RequestOk(s, u, s.requests[u]) && ContextOk(s.requests[u].at, |s.done|);
      }
    }
  }

  // ------------------------------------------------- contexts and onces

  /** Only the request inside a resolver's once touches its context. */
  lemma OthersStaySaved(s: State, t: nat, u: nat)
    requires Enabled(s, Step(t)) && RequestOk(s, t, s.requests[t])
    requires u in s.requests && u != t && RequestOk(s, u, s.requests[u]) && Saved(s, s.requests[u].at)
    ensures Saved(Stepped(s, t), s.requests[u].at)
  {
  }

  lemma OwnIsSaved(s: State, t: nat)
    requires Enabled(s, Step(t)) && Saved(s, s.requests[t].at)
    requires forall i :: 0 <= i < |s.resolvers| && s.resolvers[i].once.Untouched? ==> s.resolvers[i].cancel == None
    ensures t in Stepped(s, t).requests && Saved(Stepped(s, t), Stepped(s, t).requests[t].at)
  {
  }

  lemma UntouchedStays(s: State, a: Action)
    requires RequestInv(s) && SavedInv(s) && Enabled(s, a)
    ensures forall i :: 0 <= i < |Apply(s, a).resolvers| && Apply(s, a).resolvers[i].once.Untouched? ==>
              Apply(s, a).resolvers[i].cancel == None
  {
    if a.Step? { assert RequestOk(s, a.t, s.requests[a.t]); }
  }

  lemma StepKeepsSaved(s: State, a: Action)
    requires RequestInv(s) && SavedInv(s) && Enabled(s, a)
    ensures SavedInv(Apply(s, a))
  {
    var s' := Apply(s, a);
    UntouchedStays(s, a);
    forall t | t in s'.requests
      ensures Saved(s', s'.requests[t].at)
    {
      if a.Step? {
        assert RequestOk(s, a.t, s.requests[a.t]) && Saved(s, s.requests[a.t].at);
        if t == a.t {
          OwnIsSaved(s, t);
        } else {
          OtherRequests(s, a.t, t);
          OthersStaySaved(s, a.t, t);
        }
      } else if t in s.requests {
        assert Saved(s, s.requests[t].at);
      }
    }
  }

  /** What a request's step does to the once of a resolver i. */
  lemma OnceMoves(s: State, t: nat, i: nat)
    requires Enabled(s, Step(t)) && i < |Stepped(s, t).resolvers|
    ensures var s' := Stepped(s, t);
            && t in s'.requests
            && (i >= |s.resolvers| ==> s'.resolvers[i].once.Untouched?)
            && (i < |s.resolvers| && s'.resolvers[i].once != s.resolvers[i].once ==>
                  || (s.requests[t].at == EnterOnce(i) && s.resolvers[i].once.Untouched?
                      && s'.resolvers[i].once == RunBy(t) && s'.requests[t].at == SeedRead(i))
                  || (s.requests[t].at == LeaveOnce(i) && s'.resolvers[i].once.Returned?))
            && (InOnce(s.requests[t].at) && !s.requests[t].at.LeaveOnce? ==>
                  InOnce(s'.requests[t].at) && s'.requests[t].at.r == s.requests[t].at.r)
  {
  }

  lemma StepKeepsOwner(s: State, a: Action)
    requires RequestInv(s) && OwnerInv(s) && Enabled(s, a)
    ensures OwnerInv(Apply(s, a))
  {
    var s' := Apply(s, a);
    if a.Step? {
      assert RequestOk(s, a.t, s.requests[a.t]);
      forall i | 0 <= i < |s'.resolvers| && s'.resolvers[i].once.RunBy?
        ensures var t := s'.resolvers[i].once.t;
                t in s'.requests && InOnce(s'.requests[t].at) && s'.requests[t].at.r == i
      {
        OnceMoves(s, a.t, i);
        var t := s'.resolvers[i].once.t;
        if t != a.t { OtherRequests(s, a.t, t); }
      }
    }
  }

  // ---------------------------------------------------------------- runs

  predicate Runs(s: State, acts: seq<Action>)
    decreases |acts|
  {
    acts == [] || (Enabled(s, acts[0]) && Runs(Apply(s, acts[0]), acts[1..]))
  }

  function Final(s: State, acts: seq<Action>): State
    requires Runs(s, acts)
    decreases |acts|
  {
    if acts == [] then s else Final(Apply(s, acts[0]), acts[1..])
  }

  lemma {:induction false} RunKeepsInv(s: State, acts: seq<Action>)
    requires Inv(s) && Runs(s, acts)
    ensures Inv(Final(s, acts))
    decreases |acts|
  {
    if acts != [] {
      StepKeepsInv(s, acts[0]);
      RunKeepsInv(Apply(s, acts[0]), acts[1..]);
    }
  }

  lemma InitInv()
    ensures Inv(INIT)
  {
  }

  /** Over a Manager's whole life, for any number of concurrent requests: no name is
      inserted twice, no resolver is seeded twice or watched twice, and a watch is opened
      only for a resolver that was seeded. */
  lemma OncePerName(acts: seq<Action>)
    requires Runs(INIT, acts)
    ensures var s := Final(INIT, acts);
            && (forall i, j :: 0 <= i < j < |s.resolvers| ==> s.resolvers[i].name != s.resolvers[j].name)
            && Distinct(s.seedReads) && Distinct(s.watches)
            && (forall r :: r in s.watches ==> r in s.seedReads)
            && (forall r :: r in s.seedReads ==> r < |s.resolvers|)
  {
    InitInv();
    RunKeepsInv(INIT, acts);
  }

  /** What a request is given: a resolver inserted under its own name whose seed is over,
      or, only once Close has begun, one that is not in the table. */
  lemma RequestsGetSeededResolvers(acts: seq<Action>, t: nat)
    requires Runs(INIT, acts) && t in Final(INIT, acts).requests
    ensures var s := Final(INIT, acts);
            var q := s.requests[t];
            && (q.at.Holds? ==>
                  && q.at.r < |s.resolvers| && s.resolvers[q.at.r].name == q.name
                  && s.resolvers[q.at.r].once.Returned? && q.at.r in s.seedReads)
            && (q.at.HoldsEphemeral? ==> s.closed)
  {
    InitInv();
    RunKeepsInv(INIT, acts);
    var s := Final(INIT, acts);
    assert RequestOk(s, t, s.requests[t]);
  }

  /** The cache has one writer at a time: while a request runs a resolver's seed it is
      the only one that does, and no consumer of that resolver exists yet. */
  lemma OneWriterPerResolver(acts: seq<Action>, t: nat, u: nat)
    requires Runs(INIT, acts)
    requires var s := Final(INIT, acts);
             && t in s.requests && u in s.requests
             && InOnce(s.requests[t].at) && InOnce(s.requests[u].at) && s.requests[t].at.r == s.requests[u].at.r
    ensures t == u
    ensures !Final(INIT, acts).requests[t].at.LeaveOnce? ==>
              Final(INIT, acts).requests[t].at.r !in Final(INIT, acts).watches
  {
    InitInv();
    RunKeepsInv(INIT, acts);
    var s := Final(INIT, acts);
    assert RequestOk(s, t, s.requests[t]) && RequestOk(s, u, s.requests[u]);
  }

  lemma StepAfterClose(s: State, a: Action)
    requires Inv(s) && s.done[0] && Enabled(s, a)
    ensures var s' := Apply(s, a);
            && s'.done != [] && s'.done[0] && |s.done| <= |s'.done|
            && s'.table.Keys <= s.table.Keys && |s'.resolvers| == |s.resolvers|
  {
    match a {
      case Step(t) => assert RequestOk(s, t, s.requests[t]);
      case _ =>
    }
  }

  lemma {:induction false} RunAfterClose(s: State, acts: seq<Action>)
    requires Inv(s) && s.done[0] && Runs(s, acts)
    ensures var s' := Final(s, acts);
            && Inv(s') && s'.done[0] && |s.done| <= |s'.done|
            && s'.table.Keys <= s.table.Keys && |s'.resolvers| == |s.resolvers|
    decreases |acts|
  {
    if acts != [] {
      StepAfterClose(s, acts[0]);
      StepKeepsInv(s, acts[0]);
      RunAfterClose(Apply(s, acts[0]), acts[1..]);
    }
  }

  /** No watch survives Close: take any run in which Close has cancelled the base context
      and any continuation of it. Every watch context ever created is cancelled, also one
      created later by a seed still in flight; nothing is added to the table, nor any
      resolver inserted. */
  lemma NoWatchSurvivesClose(acts: seq<Action>, after: seq<Action>)
    requires Runs(INIT, acts) && Final(INIT, acts).closer in {Draining, Closed}
    requires Runs(Final(INIT, acts), after)
    ensures var s, s' := Final(INIT, acts), Final(Final(INIT, acts), after);
            && |s.done| <= |s'.done|
            && (forall c :: 0 <= c < |s'.done| ==> s'.done[c])
            && s'.table.Keys <= s.table.Keys && |s'.resolvers| == |s.resolvers|
            && (s.closer.Closed? ==> s'.table == map[])
  {
    InitInv();
    RunKeepsInv(INIT, acts);
    RunAfterClose(Final(INIT, acts), after);
  }

  // ------------------------------------------------- nobody is stuck

  lemma StepKeepsOpening(s: State, a: Action)
    requires Inv(s) && SavedInv(s) && OwnerInv(s) && OpeningInv(s) && Enabled(s, a)
    ensures OpeningInv(Apply(s, a))
  {
    var s' := Apply(s, a);
    forall i: nat | i < |s'.resolvers| && PastOpening(s', i)
      ensures OpenOrCancelled(s', i)
    {
      match a {
        case Step(t) => StepKeepsOpen(s, t, i);
        case _ => assert PastOpening(s, i) && OpenOrCancelled(s, i);
      }
    }
  }

  lemma StepKeepsOpen(s: State, t: nat, i: nat)
    requires Inv(s) && SavedInv(s) && OwnerInv(s) && OpeningInv(s) && Enabled(s, Step(t))
    requires i < |Stepped(s, t).resolvers| && PastOpening(Stepped(s, t), i)
    ensures OpenOrCancelled(Stepped(s, t), i)
  {
    assert RequestOk(s, t, s.requests[t]) && Saved(s, s.requests[t].at) && ContextOk(s.requests[t].at, |s.done|);
    OnceMoves(s, t, i);
    if PastOpening(s, i) {
      OpenStays(s, t, i);
    } else {
      PassesOpening(s, t, i);
      OpensOrCancels(s, t);
    }
  }

  /** Who gets there opens the watch or cancels its context. */
  lemma PassesOpening(s: State, t: nat, i: nat)
    requires RequestInv(s) && OwnerInv(s) && Enabled(s, Step(t)) && i < |Stepped(s, t).resolvers|
    requires !PastOpening(s, i) && PastOpening(Stepped(s, t), i)
    ensures (s.requests[t].at.OpenWatch? || s.requests[t].at.CancelOwn?) && s.requests[t].at.r == i
  {
    assert RequestOk(s, t, s.requests[t]);
    OnceMoves(s, t, i);
    if i < |s.resolvers| && s.resolvers[i].once.RunBy? && s.resolvers[i].once.t != t {
      assert RequestOk(s, s.resolvers[i].once.t, s.requests[s.resolvers[i].once.t]);
      OtherRequests(s, t, s.resolvers[i].once.t);
    }
  }

  lemma OpensOrCancels(s: State, t: nat)
    requires Enabled(s, Step(t)) && (s.requests[t].at.OpenWatch? || s.requests[t].at.CancelOwn?)
    requires Saved(s, s.requests[t].at) && ContextOk(s.requests[t].at, |s.done|)
    ensures OpenOrCancelled(Stepped(s, t), s.requests[t].at.r)
  {
  }

  lemma OpenStays(s: State, t: nat, i: nat)
    requires Enabled(s, Step(t)) && RequestOk(s, t, s.requests[t]) && OpenOrCancelled(s, i) && PastOpening(s, i)
    requires s.done != []
    ensures OpenOrCancelled(Stepped(s, t), i)
  {
  }

  lemma {:induction false} RunKeepsAll(s: State, acts: seq<Action>)
    requires Inv(s) && SavedInv(s) && OwnerInv(s) && OpeningInv(s) && Runs(s, acts)
    ensures var s' := Final(s, acts); Inv(s') && SavedInv(s') && OwnerInv(s') && OpeningInv(s')
    decreases |acts|
  {
    if acts != [] {
      StepKeepsInv(s, acts[0]);
      StepKeepsSaved(s, acts[0]);
      StepKeepsOwner(s, acts[0]);
      StepKeepsOpening(s, acts[0]);
      RunKeepsAll(Apply(s, acts[0]), acts[1..]);
    }
  }

  // ------------------------------------------------- isolation

  lemma StepKeepsOwnContexts(s: State, t: nat)
    requires ContextInv(s) && RequestInv(s) && SavedInv(s) && OwnContextsInv(s) && Enabled(s, Step(t))
    ensures OwnContextsInv(Stepped(s, t))
  {
    var p := s.requests[t].at;
    assert RequestOk(s, t, s.requests[t]) && ContextOk(p, |s.done|) && Saved(s, p);
    match p {
      case SaveCancel(r, c) => SavingKeepsOwn(s, t);
      case MakeContext(r) => MakingKeepsOwn(s, t);
      case _ => OthersKeepOwn(s, t);
    }
  }

  lemma SavingKeepsOwn(s: State, t: nat)
    requires OwnContextsInv(s) && Enabled(s, Step(t)) && s.requests[t].at.SaveCancel?
    ensures OwnContextsInv(Stepped(s, t))
  {
    var s', p := Stepped(s, t), s.requests[t].at;
    assert ToBeSaved(s, p);
    forall u | u in s'.requests && s'.requests[u].at.SaveCancel?
      ensures ToBeSaved(s', s'.requests[u].at)
    {
      assert u != t && ToBeSaved(s, s.requests[u].at);
    }
  }

  lemma MakingKeepsOwn(s: State, t: nat)
    requires ContextInv(s) && OwnContextsInv(s) && Enabled(s, Step(t)) && s.requests[t].at.MakeContext?
    ensures OwnContextsInv(Stepped(s, t))
  {
    var s' := Stepped(s, t);
    forall u | u in s'.requests && s'.requests[u].at.SaveCancel?
      ensures ToBeSaved(s', s'.requests[u].at)
      ensures u != t ==> s'.requests[u].at.c < |s.done|
    {
      if u != t {
        assert ToBeSaved(s, s.requests[u].at) && ContextOk(s.requests[u].at, |s.done|);
      }
    }
  }

  /** Cancelling one's own context leaves those still to be saved alone. */
  lemma OthersKeepOwn(s: State, t: nat)
    requires ContextInv(s) && RequestInv(s) && SavedInv(s) && OwnContextsInv(s) && Enabled(s, Step(t))
    requires !s.requests[t].at.SaveCancel? && !s.requests[t].at.MakeContext?
    ensures OwnContextsInv(Stepped(s, t))
  {
    var s', p := Stepped(s, t), s.requests[t].at;
    ContextsStay(s, t);
    forall u | u in s'.requests && s'.requests[u].at.SaveCancel?
      ensures ToBeSaved(s', s'.requests[u].at)
    {
      assert ToBeSaved(s, s.requests[u].at) && ContextOk(p, |s.done|) && Saved(s, p);
    }
  }

  lemma ContextsStay(s: State, t: nat)
    requires Enabled(s, Step(t)) && !s.requests[t].at.SaveCancel? && !s.requests[t].at.MakeContext?
    ensures var s' := Stepped(s, t);
            && |s.resolvers| <= |s'.resolvers|
            && (forall i :: 0 <= i < |s.resolvers| ==> s'.resolvers[i].cancel == s.resolvers[i].cancel)
            && (forall i :: |s.resolvers| <= i < |s'.resolvers| ==> s'.resolvers[i].cancel == None)
            && (forall u :: u in s'.requests && s'.requests[u].at.SaveCancel? ==> u in s.requests && s'.requests[u] == s.requests[u])
            && (if s.requests[t].at.CancelOwn? then s'.done == Cancelled(s.done, s.requests[t].at.c) else s'.done == s.done)
  {
  }

  lemma CloseKeepsOwnContexts(s: State, a: Action)
    requires ContextInv(s) && OwnContextsInv(s) && Enabled(s, a) && !a.Step?
    ensures OwnContextsInv(Apply(s, a))
  {
    var s' := Apply(s, a);
    forall u | u in s'.requests && s'.requests[u].at.SaveCancel?
      ensures ToBeSaved(s', s'.requests[u].at)
    {
      assert u in s.requests && s'.requests[u] == s.requests[u] && ToBeSaved(s, s.requests[u].at);
    }
  }

  lemma StepKeepsIsolation(s: State, t: nat, i: nat)
    requires Inv(s) && SavedInv(s) && OwnerInv(s) && OwnContextsInv(s) && IsolationInv(s) && Enabled(s, Step(t))
    requires !Stepped(s, t).done[0] && i < |Stepped(s, t).resolvers|
    ensures Isolated(Stepped(s, t), i)
  {
    var p := s.requests[t].at;
    assert RequestOk(s, t, s.requests[t]) && ContextOk(p, |s.done|) && Saved(s, p);
    assert i < |s.resolvers| ==> Isolated(s, i);
    if p.CancelOwn? && p.r == i {
      FailedIsNotWatched(s, t);
    } else if p.CancelOwn? {
      assert s.resolvers[p.r].cancel == Some(p.c);
      PastStays(s, t, i);
      CancellingOneselfOnly(s, t, i);
    } else if p.SaveCancel? || p.MakeContext? {
      PastStays(s, t, i);
      FreshStaysIsolated(s, t, i);
    } else {
      PastStays(s, t, i);
      if p.OpenWatch? { NotPastWhileOpening(s, t); }
      OtherStaysIsolated(s, t, i);
    }
  }

  lemma OtherStaysIsolated(s: State, t: nat, i: nat)
    requires Enabled(s, Step(t)) && i < |Stepped(s, t).resolvers| && (i < |s.resolvers| ==> Isolated(s, i))
    requires var p := s.requests[t].at;
             && !p.SaveCancel? && !p.MakeContext? && !p.CancelOwn?
             && (p.OpenWatch? && p.r == i ==> !PastOpening(s, i))
    requires PastOpening(s, i) ==> PastOpening(Stepped(s, t), i)
    ensures Isolated(Stepped(s, t), i)
  {
    ContextsStay(s, t);
    WatchesOf(s, t);
  }

  lemma CancellingOneselfOnly(s: State, t: nat, i: nat)
    requires OwnContextsInv(s) && Enabled(s, Step(t)) && s.requests[t].at.CancelOwn?
    requires s.requests[t].at.r < |s.resolvers| && s.resolvers[s.requests[t].at.r].cancel == Some(s.requests[t].at.c)
    requires 0 < s.requests[t].at.c && s.requests[t].at.r != i
    requires i < |s.resolvers| && Isolated(s, i) && (PastOpening(s, i) ==> PastOpening(Stepped(s, t), i))
    ensures Isolated(Stepped(s, t), i)
  {
    assert s.resolvers[i].cancel.Some? ==> s.resolvers[i].cancel.value != s.requests[t].at.c;
  }

  lemma FreshStaysIsolated(s: State, t: nat, i: nat)
    requires DoneInv(s) && !s.done[0] && OwnContextsInv(s) && Enabled(s, Step(t))
    requires s.requests[t].at.SaveCancel? || s.requests[t].at.MakeContext?
    requires i < |s.resolvers| && Isolated(s, i) && (PastOpening(s, i) ==> PastOpening(Stepped(s, t), i))
    ensures Isolated(Stepped(s, t), i)
  {
    if s.requests[t].at.SaveCancel? { assert ToBeSaved(s, s.requests[t].at); }
  }

  lemma WatchesOf(s: State, t: nat)
    requires Enabled(s, Step(t))
    ensures var p := s.requests[t].at;
            Stepped(s, t).watches == s.watches + if p.OpenWatch? then [p.r] else []
  {
  }

  /** Past the opening a once stays. */
  lemma PastStays(s: State, t: nat, i: nat)
    requires RequestInv(s) && OwnerInv(s) && Enabled(s, Step(t)) && i < |Stepped(s, t).resolvers|
    ensures PastOpening(s, i) ==> PastOpening(Stepped(s, t), i)
    ensures i in Stepped(s, t).watches ==> i in s.watches || s.requests[t].at.OpenWatch?
  {
    assert RequestOk(s, t, s.requests[t]);
    if i < |s.resolvers| && s.resolvers[i].once.RunBy? {
      var u := s.resolvers[i].once.t;
      assert RequestOk(s, u, s.requests[u]);
      if u != t { OtherRequests(s, t, u); }
      OnceMoves(s, t, i);
    }
  }

  lemma FailedIsNotWatched(s: State, t: nat)
    requires LedgerInv(s) && RequestInv(s) && Enabled(s, Step(t)) && s.requests[t].at.CancelOwn?
    ensures var r := s.requests[t].at.r; PastOpening(Stepped(s, t), r) && r !in Stepped(s, t).watches
  {
    assert RequestOk(s, t, s.requests[t]);
  }

  lemma NotPastWhileOpening(s: State, t: nat)
    requires RequestInv(s) && t in s.requests && s.requests[t].at.OpenWatch?
    ensures !PastOpening(s, s.requests[t].at.r)
  {
    assert RequestOk(s, t, s.requests[t]);
  }

  lemma CloseKeepsIsolation(s: State, a: Action)
    requires ContextInv(s) && OwnerInv(s) && IsolationInv(s) && Enabled(s, a) && !a.Step?
    ensures IsolationInv(Apply(s, a))
  {
    var s' := Apply(s, a);
    if s'.done != [] && !s'.done[0] {
      assert s'.done == s.done && s'.resolvers == s.resolvers && s'.watches == s.watches;
      forall i: nat | i < |s.resolvers|
        ensures Isolated(s', i)
      {
        assert Isolated(s, i);
        assert PastOpening(s, i) ==> PastOpening(s', i);
      }
    }
  }

  lemma StepKeepsAloof(s: State, a: Action)
    requires Inv(s) && SavedInv(s) && OwnerInv(s) && OwnContextsInv(s) && IsolationInv(s) && Enabled(s, a)
    ensures OwnContextsInv(Apply(s, a)) && IsolationInv(Apply(s, a))
  {
    if a.Step? {
      StepKeepsOwnContexts(s, a.t);
      var s' := Stepped(s, a.t);
      if s'.done != [] && !s'.done[0] {
        forall i: nat | i < |s'.resolvers|
          ensures Isolated(s', i)
        {
          StepKeepsIsolation(s, a.t, i);
        }
      }
    } else {
      CloseKeepsOwnContexts(s, a);
      CloseKeepsIsolation(s, a);
    }
  }

  lemma {:induction false} RunKeepsAloof(s: State, acts: seq<Action>)
    requires Inv(s) && SavedInv(s) && OwnerInv(s) && OwnContextsInv(s) && IsolationInv(s) && Runs(s, acts)
    ensures var s' := Final(s, acts); Inv(s') && OwnContextsInv(s') && IsolationInv(s')
    decreases |acts|
  {
    if acts != [] {
      StepKeepsInv(s, acts[0]);
      StepKeepsSaved(s, acts[0]);
      StepKeepsOwner(s, acts[0]);
      StepKeepsAloof(s, acts[0]);
      RunKeepsAloof(Apply(s, acts[0]), acts[1..]);
    }
  }

  /** Names do not stop each other: in every run, until Close cancels the base context, the
      context of a watch that was opened is not cancelled, whatever becomes of the others;
      and no two resolvers share a context. */
  lemma WatchesLiveUntilClose(acts: seq<Action>, r: nat)
    requires Runs(INIT, acts) && r in Final(INIT, acts).watches
    requires !Final(INIT, acts).closer.Draining? && !Final(INIT, acts).closer.Closed?
    ensures var s := Final(INIT, acts);
            && r < |s.resolvers|
            && (s.resolvers[r].cancel.Some? && s.resolvers[r].cancel.value < |s.done| ==>
                  !s.done[s.resolvers[r].cancel.value])
            && (forall i :: 0 <= i < |s.resolvers| && i != r && s.resolvers[i].cancel.Some? ==>
                  s.resolvers[i].cancel != s.resolvers[r].cancel)
  {
    RunKeepsAloof(INIT, acts);
    var s := Final(INIT, acts);
    assert r < |s.resolvers| ==> Isolated(s, r);
  }

  /** In every run a resolver whose once has returned has its context saved, and either an
      open watch or, when that did not open, a cancelled context. */
  lemma FailedWatchesAreCancelled(acts: seq<Action>, r: nat)
    requires Runs(INIT, acts) && r < |Final(INIT, acts).resolvers| && Final(INIT, acts).resolvers[r].once.Returned?
    ensures var s := Final(INIT, acts);
            && s.resolvers[r].cancel.Some? && s.resolvers[r].cancel.value < |s.done|
            && (r in s.watches || s.done[s.resolvers[r].cancel.value])
  {
    RunKeepsAll(INIT, acts);
    var s := Final(INIT, acts);
    assert PastOpening(s, r);
  }

  /** No watch has failed to open, and every once that is past the opening has opened it. */
  predicate AllOpened(s: State) {
    && (forall t :: t in s.requests ==> !s.requests[t].at.CancelOwn?)
    && (forall i :: 0 <= i < |s.resolvers| && PastOpening(s, i) ==> i in s.watches)
  }

  lemma StepKeepsOpened(s: State, a: Action)
    requires Inv(s) && OwnerInv(s) && AllOpened(s) && Enabled(s, a) && !a.WatchFails?
    ensures AllOpened(Apply(s, a))
  {
    var s' := Apply(s, a);
    if a.Step? {
      WatchesOf(s, a.t);
      NoFailureByItself(s, a.t);
      forall i: nat | i < |s'.resolvers| && PastOpening(s', i)
        ensures i in s'.watches
      {
        if !PastOpening(s, i) { PassesOpening(s, a.t, i); }
      }
    } else {
      forall i: nat | i < |s'.resolvers| && PastOpening(s', i)
        ensures PastOpening(s, i)
      {
      }
    }
  }

  lemma NoFailureByItself(s: State, t: nat)
    requires Enabled(s, Step(t)) && !s.requests[t].at.CancelOwn?
    ensures t in Stepped(s, t).requests && !Stepped(s, t).requests[t].at.CancelOwn?
    ensures forall u :: u in Stepped(s, t).requests && u != t ==> u in s.requests && Stepped(s, t).requests[u] == s.requests[u]
  {
  }

  lemma {:induction false} RunKeepsOpened(s: State, acts: seq<Action>)
    requires Inv(s) && OwnerInv(s) && AllOpened(s) && Runs(s, acts)
    requires forall i :: 0 <= i < |acts| ==> !acts[i].WatchFails?
    ensures AllOpened(Final(s, acts))
    decreases |acts|
  {
    if acts != [] {
      StepKeepsInv(s, acts[0]);
      StepKeepsOwner(s, acts[0]);
      StepKeepsOpened(s, acts[0]);
      forall i | 0 <= i < |acts| - 1 ensures !acts[1..][i].WatchFails? { assert !acts[i + 1].WatchFails?; }
      RunKeepsOpened(Apply(s, acts[0]), acts[1..]);
    }
  }

  /** In every run in which no watch fails to open, each resolver whose once has returned
      has its watch. */
  lemma WatchesOpenUnlessTheyFail(acts: seq<Action>, r: nat)
    requires Runs(INIT, acts) && forall i :: 0 <= i < |acts| ==> !acts[i].WatchFails?
    requires r < |Final(INIT, acts).resolvers| && Final(INIT, acts).resolvers[r].once.Returned?
    ensures r in Final(INIT, acts).watches
  {
    InitInv();
    RunKeepsOpened(INIT, acts);
    assert PastOpening(Final(INIT, acts), r);
  }

  /** Mutual exclusion: while Close holds the lock no request looks the table up or inserts
      in it, and the table shrinks only by Close's own drain. */
  lemma CloseHasTheTable(s: State, a: Action)
    requires LockHeld(s) && Enabled(s, a)
    ensures a.Step? ==> !s.requests[a.t].at.Lookup? && !s.requests[a.t].at.Insert?
    ensures !a.Drain? ==> Apply(s, a).table == s.table
    ensures a.Drain? ==> Apply(s, a).table == s.table - {a.name} && s.closer.Draining? && s.closed == Apply(s, a).closed
  {
  }

  predicate HasAnswer(p: Position) {
    p.Holds? || p.HoldsEphemeral?
  }

  /** The steps a request has left, at most. */
  function StepsLeft(p: Position): nat {
    match p
    case Lookup => 9
    case Insert => 8
    case EnterOnce(_) => 7
    case SeedRead(_) => 6
    case MakeContext(_) => 5
    case SaveCancel(_, _) => 4
    case OpenWatch(_, _) => 3
    case CancelOwn(_, _) => 2
    case LeaveOnce(_) => 1
    case _ => 0
  }

  /** What a request waits for: nothing, or the lock, or the once of its resolver. */
  lemma WaitsFor(s: State, t: nat)
    requires RequestInv(s) && OwnerInv(s) && t in s.requests
    ensures || HasAnswer(s.requests[t].at)
            || Enabled(s, Step(t))
            || LockHeld(s)
            || (s.requests[t].at.EnterOnce? && s.requests[t].at.r < |s.resolvers|
                && s.resolvers[s.requests[t].at.r].once.RunBy?)
  {
    assert RequestOk(s, t, s.requests[t]);
  }

  /** Who is inside a once can go on. */
  lemma OwnerCanStep(s: State, r: nat)
    requires RequestInv(s) && OwnerInv(s) && r < |s.resolvers| && s.resolvers[r].once.RunBy?
    ensures Enabled(s, Step(s.resolvers[r].once.t))
  {
    var t := s.resolvers[r].once.t;
    assert RequestOk(s, t, s.requests[t]);
  }

  /** Close goes on while it holds the lock. */
  lemma CloseCanStep(s: State)
    requires TableInv(s) && LockHeld(s)
    ensures Enabled(s, CloseStep) || exists name :: Enabled(s, Drain(name))
  {
    if s.closer.Draining? && s.table != map[] {
      var name :| name in s.table;
      assert Enabled(s, Drain(name));
    }
  }

  lemma NearerTheEnd(s: State, t: nat)
    requires Enabled(s, Step(t))
    ensures t in Stepped(s, t).requests && StepsLeft(Stepped(s, t).requests[t].at) < StepsLeft(s.requests[t].at)
  {
  }

  /** No deadlock, in any run: a request without its answer can step, or waits for the lock
      while Close, which holds it, can go on, or waits for a once while the request that
      runs it can go on. Whoever steps is nearer its end: none takes more than nine. */
  lemma NobodyIsStuck(acts: seq<Action>, t: nat)
    requires Runs(INIT, acts) && t in Final(INIT, acts).requests
    ensures var s := Final(INIT, acts);
            var p := s.requests[t].at;
            || HasAnswer(p)
            || Enabled(s, Step(t))
            || (LockHeld(s) && (Enabled(s, CloseStep) || exists name :: Enabled(s, Drain(name))))
            || (p.EnterOnce? && p.r < |s.resolvers| && s.resolvers[p.r].once.RunBy?
                && Enabled(s, Step(s.resolvers[p.r].once.t)))
    ensures var s := Final(INIT, acts);
            StepsLeft(s.requests[t].at) <= 9
            && (Enabled(s, Step(t)) ==>
                  t in Stepped(s, t).requests && StepsLeft(Stepped(s, t).requests[t].at) < StepsLeft(s.requests[t].at))
  {
    RunKeepsAll(INIT, acts);
    var s := Final(INIT, acts);
    var p := s.requests[t].at;
    WaitsFor(s, t);
    if LockHeld(s) { CloseCanStep(s); }
    if p.EnterOnce? && p.r < |s.resolvers| && s.resolvers[p.r].once.RunBy? { OwnerCanStep(s, p.r); }
    if Enabled(s, Step(t)) { NearerTheEnd(s, t); }
  }

  /** A request that cannot reach a resolver any more. */
  predicate Excluded(p: Position) {
    p.Lookup? || p.Insert? || p.HoldsEphemeral?
  }

  lemma {:induction false} LateRequestsStayOut(s: State, acts: seq<Action>, t: nat)
    requires Inv(s) && s.closer.Closed? && Runs(s, acts)
    requires t in s.requests ==> Excluded(s.requests[t].at)
    ensures t in Final(s, acts).requests ==> Excluded(Final(s, acts).requests[t].at)
    decreases |acts|
  {
    if acts != [] {
      StepKeepsInv(s, acts[0]);
      LateRequestsStayOut(Apply(s, acts[0]), acts[1..], t);
    }
  }

  /** A request begun after Close has returned never holds a resolver of the table, so
      it starts no seed and no watch. */
  lemma RequestsAfterCloseGetNothing(acts: seq<Action>, after: seq<Action>, t: nat)
    requires Runs(INIT, acts) && Final(INIT, acts).closer.Closed? && t !in Final(INIT, acts).requests
    requires Runs(Final(INIT, acts), after)
    requires t in Final(Final(INIT, acts), after).requests
    ensures Excluded(Final(Final(INIT, acts), after).requests[t].at)
  {
    InitInv();
    RunKeepsInv(INIT, acts);
    LateRequestsStayOut(Final(INIT, acts), after, t);
  }
}
