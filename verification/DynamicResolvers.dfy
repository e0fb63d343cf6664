/** The auto-refreshing resolver (resolver.go): one immutable snapshot of address and
    scheme, seeded once and replaced by the update loop. */
module DynamicResolvers {
  import opened Wrappers
  import opened Decimal
  import opened Types
  import opened Cache
  import opened ResolvePaths

  datatype Snapshot = Snapshot(address: string, scheme: string)

  /** What a resolver is built with. */
  datatype Params = Params(fallback: string, fallbackScheme: string, view: EndpointView)

  /** An explicit view wins over the configured default. */
  function ChosenView(withView: EndpointView, preferView: EndpointView): EndpointView {
    if withView == "" then preferView else withView
  }

  /** WatchResolveService turns a fallback without an address into no fallback. */
  function ServiceParams(fallback: Service, view: EndpointView): Params {
    if fallback.address == "" then Params("", "", view)
    else Params(fallback.Addr(), fallback.scheme, view)
  }

  // What an outcome means to a resolver, stated without the loop.

  /** The outcome replaces the snapshot. */
  predicate Decides(p: Params, o: Outcome) {
    match o
    case Failed(_) => p.fallback != ""
    case Ok(svc) => svc.EndpointFor(p.view).Success?
  }

  /** The snapshot it is replaced by, address and scheme from one source. */
  function Decision(p: Params, o: Outcome): Snapshot
    requires Decides(p, o)
  {
    match o
    case Failed(_) => Snapshot(p.fallback, p.fallbackScheme)
    case Ok(svc) => Snapshot(svc.EndpointFor(p.view).value.Addr(), svc.EndpointFor(p.view).value.scheme)
  }

  /** What the seed of WatchResolve stores: the direct answer or the fallback, with no
      scheme either way. */
  function AddressSeed(p: Params, o: Outcome): Snapshot {
    match ResolveEndpointDirect(true, o, p.view, p.fallback)
    case Success(addr) => Snapshot(addr, "")
    case Failure(_) => Snapshot(p.fallback, "")
  }

  /** What the seed of WatchResolveService stores. */
  function ServiceSeed(p: Params, o: Outcome): Snapshot {
    if o.Ok? && Decides(p, o) then Decision(p, o) else Snapshot(p.fallback, p.fallbackScheme)
  }

  function Exposed(p: Params, seed: Snapshot, outcomes: seq<Outcome>): Snapshot {
    if outcomes == [] then seed
    else
      var o := outcomes[|outcomes| - 1];
      if Decides(p, o) then Decision(p, o) else Exposed(p, seed, outcomes[..|outcomes| - 1])
  }

  class DynamicResolver {
    const params: Params
    var snapshot: Option<Snapshot>

    constructor (p: Params)
      ensures params == p && snapshot == None
      ensures Address() == p.fallback && Scheme() == p.fallbackScheme
    {
      params, snapshot := p, None;
    }

    function Address(): string
      reads this
    {
      if snapshot.Some? then snapshot.value.address else params.fallback
    }

    function Scheme(): string
      reads this
    {
      if snapshot.Some? then snapshot.value.scheme else params.fallbackScheme
    }

    method Store(address: string, scheme: string)
      modifies this
      ensures snapshot == Some(Snapshot(address, scheme))
    {
      snapshot := Some(Snapshot(address, scheme));
    }

    /** The update loop over the outcomes of the re-resolves its events trigger. */
    method RunResolverUpdates(outcomes: seq<Outcome>)
      requires snapshot.Some?
      modifies this
      ensures snapshot == Some(Exposed(params, old(snapshot).value, outcomes))
      ensures Snapshot(Address(), Scheme()) == Exposed(params, old(Snapshot(Address(), Scheme())), outcomes)
    {
      for i := 0 to |outcomes|
        invariant snapshot == Some(Exposed(params, old(snapshot).value, outcomes[..i]))
      {
        assert outcomes[..i + 1][..i] == outcomes[..i];
        var o := outcomes[i];
        if o.Failed? {
          if params.fallback != "" {
            Store(params.fallback, params.fallbackScheme);
          }
          continue;
        }
        var ep := o.svc.EndpointFor(params.view);
        if ep.Failure? {
          continue;
        }
        Store(ep.value.Addr(), ep.value.scheme);
      }
      assert outcomes[..|outcomes|] == outcomes;
    }
  }

  /** The end of both constructors: when enabled, open the watch; if that fails with
      `watchError` there is no resolver. */
  method StartResolverWatch(enabled: bool, d: DynamicResolver, watchError: Option<Error>)
    returns (dr: DynamicResolver?, error: Option<Error>)
    ensures error == if enabled then watchError else None
    ensures dr == if error.Some? then null else d
  {
    if !enabled {
      return d, None;
    }
    if watchError.Some? {
      return null, watchError;
    }
    return d, None;
  }

  /** The error both constructors return, if any: disabled without a fallback, or enabled
      and the watch does not open. */
  function WatchResolveError(enabled: bool, hasFallback: bool, watchError: Option<Error>): Option<Error> {
    if enabled then watchError
    else if hasFallback then None
    else Some(ErrDiscoveryDisabledNoFallback)
  }

  /** When enabled the seed is fail-open, but a watch that does not open is fatal; when
      disabled, pinned to the fallback, which must exist. `o` is what the registry answers
      the seed, `watchError` the error of its Watch, if it fails. */
  method WatchResolve(
    enabled: bool, preferView: EndpointView, o: Outcome, watchError: Option<Error>, fallback: string, withView: EndpointView)
    returns (dr: DynamicResolver?, error: Option<Error>)
    ensures error == WatchResolveError(enabled, fallback != "", watchError)
    ensures dr == null <==> (!enabled && fallback == "") || (enabled && watchError.Some?)
    ensures dr != null ==>
              && fresh(dr)
              && dr.params == Params(fallback, "", if withView != "" then withView else preferView)
              && dr.snapshot == Some(if enabled then AddressSeed(dr.params, o) else Snapshot(fallback, ""))
              && dr.snapshot == Some(Snapshot(dr.Address(), dr.Scheme()))
  {
    var d := new DynamicResolver(Params(fallback, "", ChosenView(withView, preferView)));
    var seed := ResolveEndpointDirect(enabled, o, d.params.view, fallback);
    if !enabled {
      if seed.Failure? {
        return null, Some(seed.error);
      }
      d.Store(seed.value, "");
      dr, error := StartResolverWatch(enabled, d, watchError);
      return;
    }
    if seed.Failure? {
      d.Store(fallback, "");
    } else {
      d.Store(seed.value, "");
    }
    dr, error := StartResolverWatch(enabled, d, watchError);
  }

  method WatchResolveService(
    enabled: bool, preferView: EndpointView, o: Outcome, watchError: Option<Error>, fallback: Service, withView: EndpointView)
    returns (dr: DynamicResolver?, error: Option<Error>)
    ensures error == WatchResolveError(enabled, fallback.address != "", watchError)
    ensures dr == null <==> (!enabled && fallback.address == "") || (enabled && watchError.Some?)
    ensures dr != null ==>
              && fresh(dr)
              && dr.params.view == (if withView != "" then withView else preferView)
              && dr.params.fallback == (if fallback.address != "" then fallback.address + ":" + Itoa(fallback.port) else "")
              && dr.params.fallbackScheme == (if fallback.address != "" then fallback.scheme else "")
              && dr.snapshot == Some(if enabled then ServiceSeed(dr.params, o)
                                     else Snapshot(dr.params.fallback, dr.params.fallbackScheme))
              && dr.snapshot == Some(Snapshot(dr.Address(), dr.Scheme()))
  {
    var d := new DynamicResolver(ServiceParams(fallback, ChosenView(withView, preferView)));
    if !enabled {
      if fallback.address == "" {
        return null, Some(ErrDiscoveryDisabledNoFallback);
      }
      d.Store(d.params.fallback, d.params.fallbackScheme);
      dr, error := StartResolverWatch(enabled, d, watchError);
      return;
    }
    var seed := SeedServiceEndpoint(d.params, o, fallback);
    if seed.Failure? {
      d.Store(d.params.fallback, d.params.fallbackScheme);
    } else {
      d.Store(seed.value.address, seed.value.scheme);
    }
    dr, error := StartResolverWatch(enabled, d, watchError);
  }

  /** The seed read of WatchResolveService: a hit goes through the view, any miss takes
      the fallback as it is. */
  function SeedServiceEndpoint(p: Params, o: Outcome, fallback: Service): Result<Snapshot, Error> {
    match o
    case Ok(svc) =>
      (match svc.EndpointFor(p.view)
       case Success(ep) => Success(Snapshot(ep.Addr(), ep.scheme))
       case Failure(e) =>
         if fallback.address != "" then Success(Snapshot(p.fallback, p.fallbackScheme)) else Failure(e))
    case Failed(e) =>
      if fallback.address != "" then Success(Snapshot(p.fallback, p.fallbackScheme)) else Failure(e)
  }

  /** What one more re-resolve makes of the exposed pair, for every view: a service with an
      endpoint e for the view replaces it by e's address and e's scheme; a failure by the
      fallback and its scheme, if there is a fallback; all else leaves it. */
  lemma OneMoreOutcome(p: Params, seed: Snapshot, outcomes: seq<Outcome>, o: Outcome)
    ensures Exposed(p, seed, []) == seed
    ensures var before, after := Exposed(p, seed, outcomes), Exposed(p, seed, outcomes + [o]);
            match o
            case Ok(svc) =>
              (match ViewOf(svc, p.view)
               case Some(e) => after == Snapshot(e.address + ":" + Itoa(e.port), e.scheme)
               case None => after == before)
            case Failed(_) => after == if p.fallback != "" then Snapshot(p.fallback, p.fallbackScheme) else before
  {
    assert (outcomes + [o])[..|outcomes|] == outcomes;
  }

  /** What the seeds store, for every view: the endpoint of the service found, with its
      scheme only in WatchResolveService, or else the fallback. */
  lemma SeedsAreTheViews(p: Params, o: Outcome)
    ensures o.Ok? && ViewOf(o.svc, p.view).Some? ==>
              var e := ViewOf(o.svc, p.view).value;
              && AddressSeed(p, o) == Snapshot(e.address + ":" + Itoa(e.port), "")
              && ServiceSeed(p, o) == Snapshot(e.address + ":" + Itoa(e.port), e.scheme)
    ensures o.Failed? || ViewOf(o.svc, p.view).None? ==>
              && AddressSeed(p, o) == Snapshot(p.fallback, "")
              && ServiceSeed(p, o) == Snapshot(p.fallback, p.fallbackScheme)
  {
  }

  /** Exactly what is exposed after any run of events: the decision of the last outcome
      that decides, address and scheme together, or else the seed (k == -1). */
  lemma {:induction false} ExposedIsTheLastDecision(p: Params, seed: Snapshot, outcomes: seq<Outcome>, k: int)
    requires -1 <= k < |outcomes|
    requires k >= 0 ==> Decides(p, outcomes[k])
    requires forall j :: k < j < |outcomes| ==> !Decides(p, outcomes[j])
    ensures Exposed(p, seed, outcomes) == if k == -1 then seed else Decision(p, outcomes[k])
  {
    var last := |outcomes| - 1;
    if k < last {
      ExposedIsTheLastDecision(p, seed, outcomes[..last], k);
    }
  }

  /** The address is that of the external endpoint of the service resolved. */
  predicate FromExternal(address: string, o: Outcome) {
    o.Ok? && o.svc.external.Some? && address == o.svc.external.value.Addr()
  }

  /** View safety over whole runs: off the internal view, whatever the seed and the
      outcomes, the exposed address is the fallback (empty if there is none) or the
      address of the external endpoint of a service that the seed or an update resolved. */
  lemma {:induction false} OnlyExternalsAreExposed(p: Params, o: Outcome, outcomes: seq<Outcome>)
    requires p.view != INTERNAL
    ensures forall seed :: seed in {AddressSeed(p, o), ServiceSeed(p, o)} ==>
              var address := Exposed(p, seed, outcomes).address;
              || address == p.fallback
              || FromExternal(address, o)
              || exists i :: 0 <= i < |outcomes| && FromExternal(address, outcomes[i])
  {
    if outcomes != [] {
      OnlyExternalsAreExposed(p, o, outcomes[..|outcomes| - 1]);
    }
  }

  /** Two outcomes that are equal or resolve services with the same external endpoint,
      whatever else these hold: internal endpoint, flat mirror, metadata, identity. */
  predicate SameOutside(a: Outcome, b: Outcome) {
    a == b || (a.Ok? && b.Ok? && a.svc.external == b.svc.external)
  }

  /** Non-interference: off the internal view, two runs whose registry answers agree on
      the external endpoints expose the same address and scheme at every moment. */
  lemma {:induction false} InternalEndpointsDoNotInterfere(
    p: Params, o1: Outcome, o2: Outcome, run1: seq<Outcome>, run2: seq<Outcome>)
    requires p.view != INTERNAL && SameOutside(o1, o2)
    requires |run1| == |run2| && forall i :: 0 <= i < |run1| ==> SameOutside(run1[i], run2[i])
    ensures Exposed(p, AddressSeed(p, o1), run1) == Exposed(p, AddressSeed(p, o2), run2)
    ensures Exposed(p, ServiceSeed(p, o1), run1) == Exposed(p, ServiceSeed(p, o2), run2)
  {
    if run1 != [] {
      var last := |run1| - 1;
      assert SameOutside(run1[last], run2[last]);
      InternalEndpointsDoNotInterfere(p, o1, o2, run1[..last], run2[..last]);
    }
  }

  /** No outcome would store a scheme. */
  predicate Schemeless(p: Params, outcomes: seq<Outcome>) {
    forall i :: 0 <= i < |outcomes| ==> Decides(p, outcomes[i]) ==> Decision(p, outcomes[i]).scheme == ""
  }

  lemma {:induction false} SchemelessStaysEmpty(p: Params, seed: Snapshot, outcomes: seq<Outcome>)
    requires seed.scheme == "" && Schemeless(p, outcomes)
    ensures Exposed(p, seed, outcomes).scheme == ""
  {
    if outcomes != [] && !Decides(p, outcomes[|outcomes| - 1]) {
      SchemelessStaysEmpty(p, seed, outcomes[..|outcomes| - 1]);
    }
  }

  /** A resolver built by WatchResolve keeps an empty scheme throughout exactly when no
      update resolves an endpoint with a scheme: the seed drops it, the updates do not. */
  lemma AddressOnlySchemeExactly(p: Params, o: Outcome, outcomes: seq<Outcome>)
    requires p.fallbackScheme == ""
    ensures (forall n :: 0 <= n <= |outcomes| ==> Exposed(p, AddressSeed(p, o), outcomes[..n]).scheme == "")
            <==> Schemeless(p, outcomes)
  {
    var seed := AddressSeed(p, o);
    if Schemeless(p, outcomes) {
      forall n | 0 <= n <= |outcomes|
        ensures Exposed(p, seed, outcomes[..n]).scheme == ""
      {
        SchemelessStaysEmpty(p, seed, outcomes[..n]);
      }
    } else {
      var i :| 0 <= i < |outcomes| && Decides(p, outcomes[i]) && Decision(p, outcomes[i]).scheme != "";
      var shown := outcomes[..i + 1];
      assert shown[|shown| - 1] == outcomes[i];
      assert Exposed(p, seed, shown).scheme != "";
    }
  }
}
