/** The two halves of the cache together: the table of resolvers with Close, and for each
    resolver the watch-and-cache protocol of its name. What the table does to a watch
    (open it, fail to, cancel its context) is what the protocol of that name sees. */
module Shutdown {
  import R = Resolvers
  import RP = ResolversProofs
  import W = WatchCache
  import C = WatchCacheCancel
  import A = WatchCacheAgreement

  /** cells[r] runs the protocol of resolver r. */
  datatype System = System(tag: string, table: R.State, cells: seq<W.State>)

  datatype Action =
    | Table(a: R.Action)
    | Cell(r: nat, step: W.Action)

  /** A new resolver, the catalogue still empty: it may fill before the seed's read. */
  function First(tag: string): W.State {
    W.Init(tag, W.Catalog(1, []))
  }

  function Start(tag: string): System {
    System(tag, R.INIT, [])
  }

  /** What a step of the table is in the protocol of one resolver. */
  datatype Effect = Nothing | Does(r: nat, w: W.WorkStep)

  function EffectOf(t: R.State, a: R.Action): Effect {
    if a.Step? && a.t in t.requests then
      match t.requests[a.t].at
      case OpenWatch(r, _) => Does(r, W.OpenWatch)
      case CancelOwn(r, _) => Does(r, W.OpenFails)
      case _ => Nothing
    else Nothing
  }

  /** The once of a resolver goes on to open the watch when its seed has been read and
      stored. */
  predicate SeedOver(s: System, a: R.Action) {
    a.Step? && a.t in s.table.requests && s.table.requests[a.t].at.SeedRead? ==>
      var r := s.table.requests[a.t].at.r;
      r < |s.cells| && s.cells[r].writer.Opening?
  }

  /** What the protocol of a resolver may do by itself: not what its table decides; its
      seed only inside the once; and serve only requests that hold it. */
  predicate OwnStep(t: R.State, x: W.State, r: nat, step: W.Action) {
    && !step.Cancel? && step != W.Work(W.OpenWatch) && step != W.Work(W.OpenFails)
    && (step.Work? && (x.writer.Seeding? || x.writer.SeedStoring?) ==>
          exists q :: q in t.requests && t.requests[q].at == R.SeedRead(r))
    && (step.Begin? ==> step.r in t.requests && t.requests[step.r].at == R.Holds(r))
  }

  predicate Enabled(s: System, a: Action) {
    match a
    case Table(b) =>
      && R.Enabled(s.table, b) && SeedOver(s, b)
      && (match EffectOf(s.table, b)
          case Does(r, w) => r < |s.cells| && W.WorkEnabled(s.cells[r], w)
          case Nothing => true)
    case Cell(r, step) => r < |s.cells| && W.Enabled(s.cells[r], step) && OwnStep(s.table, s.cells[r], r, step)
  }

  /** The context of resolver r's watch is cancelled. */
  predicate ContextDone(t: R.State, r: nat) {
    && r < |t.resolvers| && t.resolvers[r].cancel.Some?
    && t.resolvers[r].cancel.value < |t.done| && t.done[t.resolvers[r].cancel.value]
  }

  /** A cancelled context is seen by the protocol that runs under it. */
  function Notified(t: R.State, x: W.State, r: nat): W.State {
    if ContextDone(t, r) then x.(cancelled := true) else x
  }

  /** The cell of r when the table takes a step. */
  function Moved(s: System, a: R.Action, r: nat): W.State
    requires Enabled(s, Table(a))
  {
    var x :=
      if r >= |s.cells| then First(s.tag)
      else if EffectOf(s.table, a).Does? && EffectOf(s.table, a).r == r then W.WorkNext(s.cells[r], EffectOf(s.table, a).w)
      else s.cells[r];
    Notified(R.Apply(s.table, a), x, r)
  }

  function Apply(s: System, a: Action): System
    requires Enabled(s, a)
  {
    match a
    case Table(b) =>
      var t := R.Apply(s.table, b);
      System(s.tag, t, seq(|t.resolvers|, r requires 0 <= r < |t.resolvers| => Moved(s, b, r)))
    case Cell(r, step) => s.(cells := s.cells[r := W.Apply(s.cells[r], step)])
  }

  predicate Runs(s: System, acts: seq<Action>)
    decreases |acts|
  {
    acts == [] || (Enabled(s, acts[0]) && Runs(Apply(s, acts[0]), acts[1..]))
  }

  function Final(s: System, acts: seq<Action>): System
    requires Runs(s, acts)
    decreases |acts|
  {
    if acts == [] then s else Final(Apply(s, acts[0]), acts[1..])
  }

  // ---------------------------------------------------------------- invariants

  /** A cell past the opening of its watch has a context, and knows if it is cancelled. */
  predicate CellOk(t: R.State, x: W.State, r: nat) {
    && C.ChannelInv(x)
    && (W.WatchStarted(x) ==> r < |t.resolvers| && t.resolvers[r].cancel.Some?)
    && (ContextDone(t, r) <==> x.cancelled)
  }

  predicate Inv(s: System) {
    && R.Inv(s.table) && R.SavedInv(s.table)
    && |s.cells| == |s.table.resolvers|
    && (forall r :: 0 <= r < |s.cells| ==> CellOk(s.table, s.cells[r], r))
  }

  /** The table never forgets a context, and never loses a resolver. */
  lemma TableOnlyGrows(t: R.State, a: R.Action)
    requires R.Enabled(t, a)
    ensures var t' := R.Apply(t, a);
            && |t.resolvers| <= |t'.resolvers|
            && forall r :: 0 <= r < |t.resolvers| && t.resolvers[r].cancel.Some? ==> t'.resolvers[r].cancel.Some?
  {
  }

  /** A cancelled watch context stays so, and stays its resolver's. */
  lemma ContextDoneStays(t: R.State, a: R.Action, r: nat)
    requires R.Enabled(t, a) && (a.Step? ==> R.Saved(t, t.requests[a.t].at)) && ContextDone(t, r)
    ensures ContextDone(R.Apply(t, a), r)
  {
  }

  lemma CancelOwnIsDone(t: R.State, q: nat)
    requires R.Enabled(t, R.Step(q)) && t.requests[q].at.CancelOwn?
    requires R.Saved(t, t.requests[q].at) && R.ContextOk(t.requests[q].at, |t.done|)
    ensures ContextDone(R.Stepped(t, q), t.requests[q].at.r)
  {
  }

  /** The cell of r after the table's step, before it hears of its context. */
  function Unnotified(s: System, a: R.Action, r: nat): W.State
    requires Enabled(s, Table(a)) && r < |s.cells|
  {
    var e := EffectOf(s.table, a);
    if e.Does? && e.r == r then W.WorkNext(s.cells[r], e.w) else s.cells[r]
  }

  lemma EffectKeepsCell(s: System, a: R.Action, r: nat)
    requires Inv(s) && Enabled(s, Table(a)) && r < |s.cells|
    ensures var x := Unnotified(s, a, r);
            && C.ChannelInv(x)
            && (W.WatchStarted(x) ==> s.table.resolvers[r].cancel.Some?)
            && (x.cancelled ==> ContextDone(R.Apply(s.table, a), r))
  {
    assert CellOk(s.table, s.cells[r], r);
    if a.Step? {
      assert R.Saved(s.table, s.table.requests[a.t].at) && R.ContextOk(s.table.requests[a.t].at, |s.table.done|);
    }
    if s.cells[r].cancelled { ContextDoneStays(s.table, a, r); }
    var e := EffectOf(s.table, a);
    if e.Does? && e.r == r {
      C.StepKeepsChannel(s.cells[r], W.Work(e.w));
      if e.w.OpenFails? { CancelOwnIsDone(s.table, a.t); }
    }
  }

  lemma TableKeepsCell(s: System, a: R.Action, r: nat)
    requires Inv(s) && Enabled(s, Table(a)) && r < |R.Apply(s.table, a).resolvers|
    ensures CellOk(R.Apply(s.table, a), Moved(s, a, r), r)
  {
    if r < |s.cells| {
      TableOnlyGrows(s.table, a);
      EffectKeepsCell(s, a, r);
      assert Moved(s, a, r) == Notified(R.Apply(s.table, a), Unnotified(s, a, r), r);
    } else {
      NewCell(s.table, a, r);
    }
  }

  lemma NewCell(t: R.State, a: R.Action, r: nat)
    requires R.Enabled(t, a) && |t.resolvers| <= r < |R.Apply(t, a).resolvers|
    ensures R.Apply(t, a).resolvers[r].cancel.None?
  {
  }

  lemma CellKeepsCell(s: System, r: nat, step: W.Action)
    requires Inv(s) && Enabled(s, Cell(r, step))
    ensures CellOk(s.table, W.Apply(s.cells[r], step), r)
    ensures W.WatchStarted(W.Apply(s.cells[r], step)) <==> W.WatchStarted(s.cells[r])
  {
    var x := s.cells[r];
    assert CellOk(s.table, x, r);
    C.StepKeepsChannel(x, step);
    match step {
      case Work(w) => W.WorkFrame(x, w);
      case Poll(p) => W.PollFrame(x, p);
      case _ =>
    }
  }

  lemma StepKeepsInv(s: System, a: Action)
    requires Inv(s) && Enabled(s, a)
    ensures Inv(Apply(s, a))
  {
    match a {
      case Table(b) =>
        RP.StepKeepsInv(s.table, b);
        RP.StepKeepsSaved(s.table, b);
        forall r: nat | r < |R.Apply(s.table, b).resolvers|
          ensures CellOk(R.Apply(s.table, b), Moved(s, b, r), r)
        {
          TableKeepsCell(s, b, r);
        }
      case Cell(r, step) => CellKeepsCell(s, r, step);
    }
  }

  lemma {:induction false} RunKeepsInv(s: System, acts: seq<Action>)
    requires Inv(s) && Runs(s, acts)
    ensures Inv(Final(s, acts))
    decreases |acts|
  {
    if acts != [] {
      StepKeepsInv(s, acts[0]);
      RunKeepsInv(Apply(s, acts[0]), acts[1..]);
    }
  }

  // ------------------------------------------------- what a once has done

  /** How far the protocol of resolver r is, by its once. */
  predicate InPhase(t: R.State, x: W.State, r: nat) {
    r < |t.resolvers| &&
      match t.resolvers[r].once
      case Untouched => x.writer.Seeding?
      case RunBy(q) =>
        q in t.requests &&
          (match t.requests[q].at
           case SeedRead(_) => x.writer.Seeding? || x.writer.SeedStoring? || x.writer.Opening?
           case LeaveOnce(_) => W.WatchStarted(x)
           case _ => x.writer.Opening?)
      case Returned => W.WatchStarted(x)
  }

  /** It is so far, and its poller was started exactly if the table opened its watch. */
  predicate PhaseOk(t: R.State, x: W.State, r: nat) {
    && InPhase(t, x, r)
    && (r in t.watches <==> !x.poller.Unborn?)
  }

  predicate PhaseInv(s: System) {
    && R.OwnerInv(s.table) && |s.cells| == |s.table.resolvers|
    && (forall r :: r in s.table.watches ==> r < |s.cells|)
    && (forall r :: 0 <= r < |s.cells| ==> PhaseOk(s.table, s.cells[r], r))
  }

  /** What the table's step makes of the cell's writer. */
  lemma MovedWriter(s: System, a: R.Action, r: nat)
    requires Enabled(s, Table(a)) && r < |s.cells|
    ensures var e, x' := EffectOf(s.table, a), Moved(s, a, r);
            && (e.Does? && e.r == r ==> x'.writer == W.WorkNext(s.cells[r], e.w).writer)
            && (!(e.Does? && e.r == r) ==> x'.writer == s.cells[r].writer)
  {
  }

  /** The request that runs the once of r, or enters it, takes its step. */
  lemma OwnerKeepsPhase(s: System, q: nat, r: nat)
    requires Enabled(s, Table(R.Step(q))) && r < |s.cells| == |s.table.resolvers|
    requires InPhase(s.table, s.cells[r], r)
    requires var p := s.table.requests[q].at;
             (R.InOnce(p) && p.r == r && s.table.resolvers[r].once == R.RunBy(q))
             || (p == R.EnterOnce(r) && s.table.resolvers[r].once.Untouched?)
    ensures InPhase(R.Stepped(s.table, q), Moved(s, R.Step(q), r), r)
  {
    MovedWriter(s, R.Step(q), r);
  }

  /** Any other request leaves the once of r, and its cell's writer, alone. */
  lemma StrangerKeepsPhase(s: System, q: nat, r: nat)
    requires Inv(s) && PhaseInv(s) && Enabled(s, Table(R.Step(q))) && r < |s.cells|
    requires R.Stepped(s.table, q).resolvers[r].once == s.table.resolvers[r].once
    requires s.table.resolvers[r].once != R.RunBy(q)
    ensures InPhase(R.Stepped(s.table, q), Moved(s, R.Step(q), r), r)
  {
    var t := s.table;
    assert R.RequestOk(t, q, t.requests[q]) && PhaseOk(t, s.cells[r], r);
    TableOnlyGrows(t, R.Step(q));
    MovedWriter(s, R.Step(q), r);
    if t.resolvers[r].once.RunBy? {
      var u := t.resolvers[r].once.t;
      assert R.RequestOk(t, u, t.requests[u]);
      RP.OtherRequests(t, q, u);
    }
  }

  lemma RequestKeepsPhase(s: System, q: nat, r: nat)
    requires Inv(s) && PhaseInv(s) && Enabled(s, Table(R.Step(q))) && r < |s.cells|
    ensures InPhase(R.Stepped(s.table, q), Moved(s, R.Step(q), r), r)
  {
    var t := s.table;
    assert R.RequestOk(t, q, t.requests[q]) && PhaseOk(t, s.cells[r], r);
    RP.OnceMoves(t, q, r);
    TableOnlyGrows(t, R.Step(q));
    if t.resolvers[r].once == R.RunBy(q) || R.Stepped(t, q).resolvers[r].once != t.resolvers[r].once {
      OwnerKeepsPhase(s, q, r);
    } else {
      StrangerKeepsPhase(s, q, r);
    }
  }

  lemma RequestKeepsWatches(s: System, q: nat, r: nat)
    requires Inv(s) && PhaseInv(s) && Enabled(s, Table(R.Step(q))) && r < |s.cells|
    ensures r in R.Stepped(s.table, q).watches <==> !Moved(s, R.Step(q), r).poller.Unborn?
  {
    assert PhaseOk(s.table, s.cells[r], r);
    WatchesGrow(s.table, q);
    MovedPoller(s, R.Step(q), r);
  }

  lemma WatchesGrow(t: R.State, q: nat)
    requires R.Enabled(t, R.Step(q))
    ensures var p := t.requests[q].at;
            R.Stepped(t, q).watches == t.watches + if p.OpenWatch? then [p.r] else []
  {
  }

  /** A poller is started by the table's opening of its watch, and by nothing else. */
  lemma MovedPoller(s: System, a: R.Action, r: nat)
    requires Enabled(s, Table(a)) && r < |s.cells|
    ensures var e, x' := EffectOf(s.table, a), Moved(s, a, r);
            x'.poller == if e == Does(r, W.OpenWatch) then W.Top else s.cells[r].poller
  {
  }

  lemma TableKeepsPhase(s: System, a: R.Action, r: nat)
    requires Inv(s) && PhaseInv(s) && Enabled(s, Table(a)) && r < |R.Apply(s.table, a).resolvers|
    ensures PhaseOk(R.Apply(s.table, a), Moved(s, a, r), r)
  {
    if r < |s.cells| {
      assert PhaseOk(s.table, s.cells[r], r);
      if a.Step? {
        RequestKeepsPhase(s, a.t, r);
        RequestKeepsWatches(s, a.t, r);
      } else {
        OthersKeepPhase(s.table, a, r);
      }
    } else {
      NewResolver(s, a, r);
    }
  }

  /** Close, a new request or a failed opening move no once. */
  lemma OthersKeepPhase(t: R.State, a: R.Action, r: nat)
    requires R.Enabled(t, a) && !a.Step? && R.OwnerInv(t) && r < |t.resolvers|
    ensures var t' := R.Apply(t, a);
            && t'.resolvers == t.resolvers && t'.watches == t.watches
            && (forall q :: q in t.requests ==> q in t'.requests)
            && (forall q :: q in t.requests && t'.requests[q] != t.requests[q] ==>
                  t.requests[q].at.OpenWatch? && t'.requests[q].at.CancelOwn?)
  {
  }

  lemma NewResolver(s: System, a: R.Action, r: nat)
    requires Inv(s) && PhaseInv(s) && Enabled(s, Table(a)) && |s.cells| <= r < |R.Apply(s.table, a).resolvers|
    ensures PhaseOk(R.Apply(s.table, a), Moved(s, a, r), r)
  {
    assert a.Step? && s.table.requests[a.t].at.Insert?;
    assert r !in s.table.watches;
  }

  lemma CellKeepsPhase(s: System, r: nat, step: W.Action)
    requires Inv(s) && PhaseInv(s) && Enabled(s, Cell(r, step))
    ensures PhaseOk(s.table, W.Apply(s.cells[r], step), r)
  {
    var x := s.cells[r];
    assert PhaseOk(s.table, x, r) && CellOk(s.table, x, r);
    CellKeepsCell(s, r, step);
    match step {
      case Work(w) =>
        W.WorkFrame(x, w);
        if x.writer.Seeding? || x.writer.SeedStoring? {
          var q :| q in s.table.requests && s.table.requests[q].at == R.SeedRead(r);
          assert R.RequestOk(s.table, q, s.table.requests[q]);
        }
      case Poll(p) => W.PollFrame(x, p);
      case _ =>
    }
  }

  lemma StepKeepsPhases(s: System, a: Action)
    requires Inv(s) && PhaseInv(s) && Enabled(s, a)
    ensures PhaseInv(Apply(s, a))
  {
    match a {
      case Table(b) =>
        RP.StepKeepsOwner(s.table, b);
        forall r: nat | r < |R.Apply(s.table, b).resolvers|
          ensures PhaseOk(R.Apply(s.table, b), Moved(s, b, r), r)
        {
          TableKeepsPhase(s, b, r);
        }
        WatchesExist(s.table, b);
      case Cell(r, step) => CellKeepsPhase(s, r, step);
    }
  }

  lemma WatchesExist(t: R.State, a: R.Action)
    requires R.Inv(t) && R.Enabled(t, a)
    requires forall r :: r in t.watches ==> r < |t.resolvers|
    ensures forall r :: r in R.Apply(t, a).watches ==> r < |R.Apply(t, a).resolvers|
  {
    TableOnlyGrows(t, a);
    if a.Step? { assert R.RequestOk(t, a.t, t.requests[a.t]); }
  }

  lemma {:induction false} RunKeepsPhases(s: System, acts: seq<Action>)
    requires Inv(s) && PhaseInv(s) && Runs(s, acts)
    ensures Inv(Final(s, acts)) && PhaseInv(Final(s, acts))
    decreases |acts|
  {
    if acts != [] {
      StepKeepsInv(s, acts[0]);
      StepKeepsPhases(s, acts[0]);
      RunKeepsPhases(Apply(s, acts[0]), acts[1..]);
    }
  }

  /** In every run of the whole, a request that holds a resolver finds its seed over and its
      watch opened, and not cancelled before Close; or the opening failed, and then the
      watch's context is cancelled and nothing refreshes the cache any more. A poller was
      started exactly for the watches that the table has opened. */
  lemma HeldResolversAreServed(tag: string, acts: seq<Action>, q: nat, r: nat)
    requires Runs(Start(tag), acts) && q in Final(Start(tag), acts).table.requests
    requires Final(Start(tag), acts).table.requests[q].at == R.Holds(r)
    ensures var s := Final(Start(tag), acts);
            && r < |s.cells| && W.WatchStarted(s.cells[r])
            && (r in s.table.watches <==> !s.cells[r].poller.Unborn?)
            && (r !in s.table.watches ==> s.cells[r].cancelled)
            && (r in s.table.watches && s.cells[r].cancelled ==> Closing(s))
  {
    var s := Final(Start(tag), acts);
    RP.InitInv();
    RunKeepsPhases(Start(tag), acts);
    TableRuns(Start(tag), acts);
    assert R.RequestOk(s.table, q, s.table.requests[q]) && PhaseOk(s.table, s.cells[r], r) && CellOk(s.table, s.cells[r], r);
    RP.FailedWatchesAreCancelled(TableSteps(acts), r);
    if r in s.table.watches && !Closing(s) { RP.WatchesLiveUntilClose(TableSteps(acts), r); }
  }

  /** The readers of a cell are requests that hold its resolver. */
  predicate ReadersHold(s: System) {
    forall r :: 0 <= r < |s.cells| ==>
      forall q :: q in s.cells[r].readers ==> q in s.table.requests && s.table.requests[q].at == R.Holds(r)
  }

  /** Who holds a resolver keeps it. */
  lemma HoldersKeep(t: R.State, a: R.Action, q: nat, r: nat)
    requires R.Enabled(t, a) && q in t.requests && t.requests[q].at == R.Holds(r)
    ensures q in R.Apply(t, a).requests && R.Apply(t, a).requests[q].at == R.Holds(r)
  {
  }

  /** The table's steps add no reader. */
  lemma MovedReaders(s: System, a: R.Action, r: nat)
    requires Enabled(s, Table(a)) && r < |R.Apply(s.table, a).resolvers|
    ensures Moved(s, a, r).readers == if r < |s.cells| then s.cells[r].readers else map[]
  {
    if r < |s.cells| && EffectOf(s.table, a).Does? && EffectOf(s.table, a).r == r {
      W.WorkFrame(s.cells[r], EffectOf(s.table, a).w);
    }
  }

  lemma TableKeepsReaders(s: System, a: R.Action)
    requires ReadersHold(s) && Enabled(s, Table(a))
    ensures ReadersHold(Apply(s, Table(a)))
  {
    var s' := Apply(s, Table(a));
    forall r: nat, q | r < |s'.cells| && q in s'.cells[r].readers
      ensures q in s'.table.requests && s'.table.requests[q].at == R.Holds(r)
    {
      assert s'.cells[r] == Moved(s, a, r);
      ReaderStays(s, a, r, q);
    }
  }

  lemma ReaderStays(s: System, a: R.Action, r: nat, q: nat)
    requires ReadersHold(s) && Enabled(s, Table(a)) && r < |R.Apply(s.table, a).resolvers|
    requires q in Moved(s, a, r).readers
    ensures var t' := R.Apply(s.table, a); q in t'.requests && t'.requests[q].at == R.Holds(r)
  {
    MovedReaders(s, a, r);
    HoldersKeep(s.table, a, q, r);
  }

  lemma CellKeepsReaders(s: System, r: nat, step: W.Action)
    requires ReadersHold(s) && Enabled(s, Cell(r, step))
    ensures forall q :: q in W.Apply(s.cells[r], step).readers ==>
              q in s.table.requests && s.table.requests[q].at == R.Holds(r)
  {
    match step {
      case Work(w) => W.WorkFrame(s.cells[r], w);
      case Poll(p) => W.PollFrame(s.cells[r], p);
      case _ =>
    }
  }

  lemma {:induction false} RunKeepsReaders(s: System, acts: seq<Action>)
    requires ReadersHold(s) && Runs(s, acts)
    ensures ReadersHold(Final(s, acts))
    decreases |acts|
  {
    if acts != [] {
      match acts[0] {
        case Table(a) => TableKeepsReaders(s, a);
        case Cell(r, step) => CellKeepsReaders(s, r, step);
      }
      RunKeepsReaders(Apply(s, acts[0]), acts[1..]);
    }
  }

  /** In every run of the whole, a cache is read only by requests that hold its resolver,
      each reads only the cache of its own name. */
  lemma RequestsReadTheirOwnCache(tag: string, acts: seq<Action>, q: nat, r: nat)
    requires Runs(Start(tag), acts) && r < |Final(Start(tag), acts).cells|
    requires q in Final(Start(tag), acts).cells[r].readers
    ensures var s := Final(Start(tag), acts);
            && q in s.table.requests && s.table.requests[q].at == R.Holds(r)
            && r < |s.table.resolvers| && s.table.resolvers[r].name == s.table.requests[q].name
  {
    RP.InitInv();
    RunKeepsInv(Start(tag), acts);
    RunKeepsReaders(Start(tag), acts);
    var s := Final(Start(tag), acts);
    assert R.RequestOk(s.table, q, s.table.requests[q]);
  }

  /** What the table can do, the whole can do: in every run, a step of the table is held up
      by the caches only where a request waits for its seed, and then the seed goes on. */
  lemma TheTableIsNotHeldUp(tag: string, acts: seq<Action>, a: R.Action)
    requires Runs(Start(tag), acts) && R.Enabled(Final(Start(tag), acts).table, a)
    ensures var s := Final(Start(tag), acts);
            || Enabled(s, Table(a))
            || (a.Step? && s.table.requests[a.t].at.SeedRead?
                && (exists w: W.WorkStep :: Enabled(s, Cell(s.table.requests[a.t].at.r, W.Work(w)))))
  {
    var s := Final(Start(tag), acts);
    RP.InitInv();
    RunKeepsPhases(Start(tag), acts);
    if a.Step? {
      StepIsNotHeldUp(s, a.t);
    }
  }

  lemma StepIsNotHeldUp(s: System, t: nat)
    requires Inv(s) && PhaseInv(s) && R.Enabled(s.table, R.Step(t))
    ensures || Enabled(s, Table(R.Step(t)))
            || (s.table.requests[t].at.SeedRead?
                && (exists w: W.WorkStep :: Enabled(s, Cell(s.table.requests[t].at.r, W.Work(w)))))
  {
    var p := s.table.requests[t].at;
    assert R.RequestOk(s.table, t, s.table.requests[t]);
    if R.InOnce(p) {
      assert PhaseOk(s.table, s.cells[p.r], p.r);
      if p.SeedRead? && !s.cells[p.r].writer.Opening? {
        SeedGoesOn(s, t, p.r);
      }
    }
  }

  lemma SeedGoesOn(s: System, t: nat, r: nat)
    requires r < |s.cells| && (s.cells[r].writer.Seeding? || s.cells[r].writer.SeedStoring?)
    requires t in s.table.requests && s.table.requests[t].at == R.SeedRead(r)
    ensures exists w: W.WorkStep :: Enabled(s, Cell(r, W.Work(w)))
  {
    var w := C.WriterWayOut(s.cells[r]);
    assert Enabled(s, Cell(r, W.Work(w)));
  }

  // ---------------------------------------------------------------- the two halves

  /** Some run of the protocol alone, and an honest one if asked, leads from x0 to x. */
  ghost predicate Led(honest: bool, x0: W.State, x: W.State) {
    if honest then A.HonestlyReaches(x0, x) else W.Reaches(x0, x)
  }

  lemma TakeLed(honest: bool, x0: W.State, x: W.State, a: W.Action) returns (x': W.State)
    requires Led(honest, x0, x) && W.Enabled(x, a) && (honest ==> A.HonestStep(x, a))
    ensures x' == W.Apply(x, a) && Led(honest, x0, x')
  {
    if honest {
      x' := A.TakeHonestly(x0, x, a);
    } else {
      x' := W.Take(x0, x, a);
    }
  }

  lemma StartIsLed(honest: bool, x0: W.State)
    ensures Led(honest, x0, x0)
  {
    A.HonestStart(x0);
    W.ReachesItself(x0);
  }

  /** Every cell is where some run of its protocol alone could be. */
  ghost predicate CellsRun(s: System, honest: bool) {
    forall r :: 0 <= r < |s.cells| ==> Led(honest, First(s.tag), s.cells[r])
  }

  /** Every change of a name's catalogue moves its index to a positive value that the
      poller of that name does not hold. */
  predicate HonestRun(s: System, acts: seq<Action>)
    requires Runs(s, acts)
    decreases |acts|
  {
    acts == [] || ((acts[0].Cell? ==> A.HonestStep(s.cells[acts[0].r], acts[0].step)) && HonestRun(Apply(s, acts[0]), acts[1..]))
  }

  lemma TableStepRuns(s: System, honest: bool, a: R.Action, r: nat)
    requires CellsRun(s, honest) && Enabled(s, Table(a))
    ensures Led(honest, First(s.tag), Moved(s, a, r))
  {
    var x0 := First(s.tag);
    var x := if r < |s.cells| then s.cells[r] else x0;
    StartIsLed(honest, x0);
    if r < |s.cells| && EffectOf(s.table, a).Does? && EffectOf(s.table, a).r == r {
      x := TakeLed(honest, x0, x, W.Work(EffectOf(s.table, a).w));
    }
    var cancelled := TakeLed(honest, x0, x, W.Cancel);
  }

  function TableSteps(acts: seq<Action>): seq<R.Action> {
    if acts == [] then []
    else (if acts[0].Table? then [acts[0].a] else []) + TableSteps(acts[1..])
  }

  lemma StepRuns(s: System, honest: bool, a: Action)
    requires CellsRun(s, honest) && Enabled(s, a)
    requires honest && a.Cell? ==> A.HonestStep(s.cells[a.r], a.step)
    ensures CellsRun(Apply(s, a), honest)
  {
    match a {
      case Table(b) =>
        forall r: nat | r < |R.Apply(s.table, b).resolvers|
          ensures Led(honest, First(s.tag), Moved(s, b, r))
        {
          TableStepRuns(s, honest, b, r);
        }
      case Cell(r, step) =>
        var x := TakeLed(honest, First(s.tag), s.cells[r], step);
    }
  }

  lemma {:induction false} TableRuns(s: System, acts: seq<Action>)
    requires Runs(s, acts)
    ensures RP.Runs(s.table, TableSteps(acts)) && RP.Final(s.table, TableSteps(acts)) == Final(s, acts).table
    decreases |acts|
  {
    if acts != [] {
      match acts[0] {
        case Table(b) => assert TableSteps(acts)[1..] == TableSteps(acts[1..]);
        case Cell(r, step) => assert TableSteps(acts) == TableSteps(acts[1..]);
      }
      TableRuns(Apply(s, acts[0]), acts[1..]);
    }
  }

  lemma {:induction false} CellsAreLed(s: System, honest: bool, acts: seq<Action>)
    requires CellsRun(s, honest) && Runs(s, acts) && (honest ==> HonestRun(s, acts))
    ensures CellsRun(Final(s, acts), honest) && Final(s, acts).tag == s.tag
    decreases |acts|
  {
    if acts != [] {
      StepRuns(s, honest, acts[0]);
      CellsAreLed(Apply(s, acts[0]), honest, acts[1..]);
    }
  }

  /** In every run of the whole the table goes through a run of its own protocol, and each
      resolver's cache through one of the watch-and-cache protocol: what is proved of all
      runs of either holds here. */
  lemma WholeRefinesHalves(tag: string, acts: seq<Action>, r: nat)
    requires Runs(Start(tag), acts) && r < |Final(Start(tag), acts).cells|
    ensures RP.Runs(R.INIT, TableSteps(acts)) && RP.Final(R.INIT, TableSteps(acts)) == Final(Start(tag), acts).table
    ensures W.Reaches(First(tag), Final(Start(tag), acts).cells[r])
  {
    CellsAreLed(Start(tag), false, acts);
    TableRuns(Start(tag), acts);
    assert Led(false, First(tag), Final(Start(tag), acts).cells[r]);
  }

  /** Agreement for every name at once: in every honest run of the whole, whatever requests,
      seeds and Close do, the cache of each resolver that is at rest after a batch that was
      not empty agrees with the catalogue of its name. */
  lemma EveryNameAgreesAtRest(tag: string, acts: seq<Action>, r: nat)
    requires Runs(Start(tag), acts) && HonestRun(Start(tag), acts) && r < |Final(Start(tag), acts).cells|
    requires var x := Final(Start(tag), acts).cells[r]; A.AtRest(x) && x.batch != []
    ensures A.Agrees(Final(Start(tag), acts).cells[r])
  {
    CellsAreLed(Start(tag), true, acts);
    var x := Final(Start(tag), acts).cells[r];
    assert Led(true, First(tag), x);
    A.AgreementAtRest(tag, W.Catalog(1, []), x);
  }

  // ---------------------------------------------------------------- what is left to do

  /** The step is one of the goroutines of resolver r: its seed, opening included, its
      poller or its consumer. */
  predicate Moves(s: System, a: Action, r: nat) {
    match a
    case Table(b) => EffectOf(s.table, b).Does? && EffectOf(s.table, b).r == r
    case Cell(q, step) => q == r && (step.Poll? || step.Work?)
  }

  predicate Polls(a: Action, r: nat) {
    a == Cell(r, W.Poll(W.Answer))
  }

  function Steps(s: System, acts: seq<Action>, r: nat): nat
    requires Runs(s, acts)
    decreases |acts|
  {
    if acts == [] then 0 else Steps(Apply(s, acts[0]), acts[1..], r) + if Moves(s, acts[0], r) then 1 else 0
  }

  function Answers(acts: seq<Action>, r: nat): nat {
    if acts == [] then 0 else Answers(acts[1..], r) + if Polls(acts[0], r) then 1 else 0
  }

  /** The size of an answer. */
  function Size(s: System, a: Action, r: nat): nat {
    if Polls(a, r) && r < |s.cells| then |W.Current(s.cells[r]).instances| else 0
  }

  function Polled(s: System, acts: seq<Action>, r: nat): nat
    requires Runs(s, acts)
    decreases |acts|
  {
    if acts == [] then 0 else Polled(Apply(s, acts[0]), acts[1..], r) + Size(s, acts[0], r)
  }

  /** Close has cancelled the base context. */
  predicate Closing(s: System) {
    s.table.closer.Draining? || s.table.closer.Closed?
  }

  lemma OpenedIsCancelled(s: System, r: nat)
    requires Inv(s) && Closing(s) && r < |s.cells| && W.WatchStarted(s.cells[r])
    ensures s.cells[r].cancelled
  {
    assert CellOk(s.table, s.cells[r], r);
    assert ContextDone(s.table, r);
  }

  lemma ClosingStays(s: System, a: Action)
    requires Inv(s) && Closing(s) && Enabled(s, a)
    ensures Closing(Apply(s, a)) && |Apply(s, a).cells| == |s.cells|
  {
    if a.Table? { RP.StepAfterClose(s.table, a.a); }
  }

  /** One step after that uses up work of the resolver it belongs to, and makes none. */
  lemma StepUsesUpWork(s: System, a: Action, r: nat)
    requires Inv(s) && Closing(s) && Enabled(s, a) && r < |s.cells| && |Apply(s, a).cells| == |s.cells|
    ensures var x, x' := s.cells[r], Apply(s, a).cells[r];
            && C.WorkLeft(x') + (if Moves(s, a, r) then 1 else 0) <= C.WorkLeft(x) + 6 * Size(s, a, r)
            && C.PollsOwed(x'.poller) + (if Polls(a, r) then 1 else 0) <= C.PollsOwed(x.poller)
  {
    var x := s.cells[r];
    assert CellOk(s.table, x, r);
    match a {
      case Table(b) =>
        if EffectOf(s.table, b).Does? && EffectOf(s.table, b).r == r { C.WorkStepDecreases(x, EffectOf(s.table, b).w); }
      case Cell(q, step) =>
        if q == r { CellUsesUpWork(s, r, step); }
    }
  }

  lemma CellUsesUpWork(s: System, r: nat, step: W.Action)
    requires Inv(s) && Closing(s) && Enabled(s, Cell(r, step))
    ensures var x, x' := s.cells[r], W.Apply(s.cells[r], step);
            && C.WorkLeft(x') + (if step.Poll? || step.Work? then 1 else 0) <= C.WorkLeft(x) + 6 * Size(s, Cell(r, step), r)
            && C.PollsOwed(x'.poller) + (if step == W.Poll(W.Answer) then 1 else 0) <= C.PollsOwed(x.poller)
  {
    var x := s.cells[r];
    assert CellOk(s.table, x, r);
    match step {
      case Work(w) => C.WorkStepDecreases(x, w);
      case Poll(p) =>
        OpenedIsCancelled(s, r);
        C.PollStepDecreases(x, p);
      case _ =>
    }
  }

  lemma {:induction false} ClosingRun(s: System, acts: seq<Action>, r: nat)
    requires Inv(s) && Closing(s) && Runs(s, acts) && r < |s.cells|
    ensures Inv(Final(s, acts)) && Closing(Final(s, acts)) && |Final(s, acts).cells| == |s.cells|
    ensures Steps(s, acts, r) <= C.WorkLeft(s.cells[r]) + 6 * Polled(s, acts, r)
    ensures Answers(acts, r) <= C.PollsOwed(s.cells[r].poller)
    decreases |acts|
  {
    if acts != [] {
      StepKeepsInv(s, acts[0]);
      ClosingStays(s, acts[0]);
      StepUsesUpWork(s, acts[0], r);
      ClosingRun(Apply(s, acts[0]), acts[1..], r);
    }
  }

  /** Nothing is left to do for the goroutines of resolver r. */
  ghost predicate Exhausted(s: System, r: nat) {
    forall step: W.Action :: step.Poll? || step.Work? ==> !Enabled(s, Cell(r, step))
  }

  lemma ExhaustedHasEnded(s: System, r: nat)
    requires r < |s.cells| && s.cells[r].cancelled && W.WatchStarted(s.cells[r])
    ensures Exhausted(s, r) <==> C.BothEnded(s.cells[r])
  {
    var x := s.cells[r];
    C.CancelledIsNeverStuck(x);
    if Exhausted(s, r) {
      assert !Enabled(s, Cell(r, W.Poll(C.WayOut(x))));
      assert !Enabled(s, Cell(r, W.Work(C.WriterWayOut(x))));
    }
  }

  /** Close stops every watch. Take any run in which Close has cancelled the base context
      and any continuation of it. No resolver is added. The goroutines of each resolver,
      also of one whose seed is still in flight and whose watch is opened only now, take
      no more steps in all than were left to them and the one poll that may still be
      answered accounts for. And when those of an opened watch can take no step, they
      have ended. */
  lemma CloseStopsEveryWatch(tag: string, acts: seq<Action>, after: seq<Action>, r: nat)
    requires Runs(Start(tag), acts) && Closing(Final(Start(tag), acts))
    requires Runs(Final(Start(tag), acts), after) && r < |Final(Final(Start(tag), acts), after).cells|
    ensures var s, s' := Final(Start(tag), acts), Final(Final(Start(tag), acts), after);
            && |s'.cells| == |s.cells|
            && Answers(after, r) <= C.PollsOwed(s.cells[r].poller) <= 1
            && Steps(s, after, r) <= C.WorkLeft(s.cells[r]) + 6 * Polled(s, after, r)
            && (W.WatchStarted(s'.cells[r]) ==> s'.cells[r].cancelled && (Exhausted(s', r) <==> C.BothEnded(s'.cells[r])))
  {
    var s := Final(Start(tag), acts);
    RP.InitInv();
    RunKeepsInv(Start(tag), acts);
    CellsStay(s, after);
    ClosingRun(s, after, r);
    var s' := Final(s, after);
    if W.WatchStarted(s'.cells[r]) {
      OpenedIsCancelled(s', r);
      ExhaustedHasEnded(s', r);
    }
  }

  lemma {:induction false} CellsStay(s: System, acts: seq<Action>)
    requires Inv(s) && Closing(s) && Runs(s, acts)
    ensures |Final(s, acts).cells| == |s.cells|
    decreases |acts|
  {
    if acts != [] {
      StepKeepsInv(s, acts[0]);
      ClosingStays(s, acts[0]);
      CellsStay(Apply(s, acts[0]), acts[1..]);
    }
  }
}
