/** The one-shot resolve paths: the managed one that answers from the cache (manager.go)
    and the direct one that asks the registry (resolver.go). */
module ResolvePaths {
  import opened Wrappers
  import opened Decimal
  import opened Types
  import opened Cache

  function OrFallback(fallback: string, e: Error): Result<string, Error> {
    if fallback != "" then Success(fallback) else Failure(e)
  }

  /** scheme://host:port; an endpoint without a scheme has no URL. */
  function UrlOf(ep: Endpoint): Result<string, Error> {
    if ep.scheme == "" then Failure(ErrEndpointViewUnavailable)
    else Success(ep.scheme + "://" + ep.Addr())
  }

  /** ResolveEndpoint and, with asURL, ResolveURL, on a cache in a given state. */
  function ResolveEndpoint(enabled: bool, c: Flags, view: EndpointView, fallback: string, asURL: bool)
    : Result<string, Error>
  {
    if !enabled then OrFallback(fallback, ErrDiscoveryDisabledNoFallback)
    else
      match Observe(c)
      case Miss(e) => OrFallback(fallback, e)
      case Hit(svc) =>
        match svc.EndpointFor(view)
        case Failure(e) => OrFallback(fallback, e)
        case Success(ep) =>
          if !asURL then Success(ep.Addr())
          else
            match UrlOf(ep)
            case Success(url) => Success(url)
            case Failure(e) => OrFallback(fallback, e)
  }

  /** The same question put straight to the registry. */
  function ResolveEndpointDirect(enabled: bool, o: Outcome, view: EndpointView, fallback: string)
    : Result<string, Error>
  {
    if !enabled then OrFallback(fallback, ErrDiscoveryDisabledNoFallback)
    else
      match o
      case Failed(e) => OrFallback(fallback, e)
      case Ok(svc) =>
        match svc.EndpointFor(view)
        case Failure(e) => OrFallback(fallback, e)
        case Success(ep) => Success(ep.Addr())
  }

  /** The fast path refines the direct one, for any seed and any updates: the cache
      answers as a direct read would have that returned the last outcome that was not
      transient (outcome number -1 is the seed, transient or not). */
  lemma FastPathRefinesDirect(seed: Outcome, updates: seq<Outcome>, k: int, view: EndpointView, fallback: string)
    requires -1 <= k < |updates|
    requires k == -1 || !Transient(updates[k])
    requires forall j :: k < j < |updates| ==> Transient(updates[j])
    ensures ResolveEndpoint(true, AfterUpdates(Seeded(EMPTY_FLAGS, seed), updates), view, fallback, false)
            == ResolveEndpointDirect(true, Nth(seed, updates, k), view, fallback)
  {
    FlagsMeanTheLastWord(seed, updates, k);
  }

  /** Resolve, on a cache in a given state: the flat mirror of the cached service. */
  function Resolve(enabled: bool, c: Flags, fallback: string): Result<string, Error> {
    if !enabled then OrFallback(fallback, ErrDiscoveryDisabledNoFallback)
    else
      match Observe(c)
      case Miss(e) => OrFallback(fallback, e)
      case Hit(svc) => Success(svc.Addr())
  }

  /** The endpoint that a service has for a view, if any. */
  function ViewOf(svc: Service, view: EndpointView): Option<Endpoint> {
    if view == "internal" && svc.internal.Some? then svc.internal else svc.external
  }

  /** What ResolveEndpoint (and, as a URL, ResolveURL) answers. A cached service whose
      endpoint e for the view exists (and has a scheme, for a URL) is answered with e's
      address or URL, whatever the fallback. Any other question gets the fallback, or
      without one the error: of the disabled library, of the empty cache, or that the view
      is unavailable. */
  lemma AnswersAreTheViews(enabled: bool, c: Flags, view: EndpointView, fallback: string, asURL: bool)
    ensures var r := ResolveEndpoint(enabled, c, view, fallback, asURL);
            && (!enabled ==> r == if fallback != "" then Success(fallback) else Failure(ErrDiscoveryDisabledNoFallback))
            && (enabled && c.seeded && c.current.Some? ==>
                  match ViewOf(c.current.value, view)
                  case Some(e) =>
                    if !asURL then r == Success(e.address + ":" + Itoa(e.port))
                    else if e.scheme != "" then r == Success(e.scheme + "://" + (e.address + ":" + Itoa(e.port)))
                    else r == (if fallback != "" then Success(fallback) else Failure(ErrEndpointViewUnavailable))
                  case None => r == (if fallback != "" then Success(fallback) else Failure(ErrEndpointViewUnavailable)))
            && (enabled && !c.seeded ==>
                  r == if fallback != "" then Success(fallback)
                       else if c.authEmpty || c.seedErr.None? then Failure(ErrNoHealthyInstances)
                       else Failure(c.seedErr.value))
  {
  }

  /** What the direct path answers: of a service found, the address of its endpoint for the
      view; else the fallback, or without one the error. */
  lemma DirectAnswersAreTheViews(enabled: bool, o: Outcome, view: EndpointView, fallback: string)
    ensures var r := ResolveEndpointDirect(enabled, o, view, fallback);
            && (!enabled ==> r == if fallback != "" then Success(fallback) else Failure(ErrDiscoveryDisabledNoFallback))
            && (enabled && o.Ok? && ViewOf(o.svc, view).Some? ==>
                  r == Success(ViewOf(o.svc, view).value.address + ":" + Itoa(ViewOf(o.svc, view).value.port)))
            && (enabled && o.Ok? && ViewOf(o.svc, view).None? ==>
                  r == if fallback != "" then Success(fallback) else Failure(ErrEndpointViewUnavailable))
            && (enabled && o.Failed? ==> r == if fallback != "" then Success(fallback) else Failure(o.error))
  {
  }

  /** Resolve differs from ResolveEndpoint only on a hit, where it answers with the flat
      fields. */
  lemma ResolveAnswers(enabled: bool, c: Flags, view: EndpointView, fallback: string)
    ensures !enabled || !c.seeded ==> Resolve(enabled, c, fallback) == ResolveEndpoint(enabled, c, view, fallback, false)
    ensures enabled && c.seeded && c.current.Some? ==>
              Resolve(enabled, c, fallback) == Success(c.current.value.address + ":" + Itoa(c.current.value.port))
  {
  }

  /** Off the internal view, two caches that differ in the cached service, but not in its
      external endpoint, give the same answer, error or URL. */
  lemma CachedAnswersHideTheInternal(c: Flags, other: Service, view: EndpointView, fallback: string, asURL: bool)
    requires c.current.Some? && c.current.value.external == other.external && view != INTERNAL
    ensures ResolveEndpoint(true, c.(current := Some(other)), view, fallback, asURL)
            == ResolveEndpoint(true, c, view, fallback, asURL)
  {
    ViewLaws(c.current.value, other, view);
  }

  /** Resolve is not bound to a view. Of a cached service whose flat fields mirror its
      root, as of every one read from the registry, it answers as the external view does
      exactly when there is an external endpoint (or the fallback happens to be the
      answer), and otherwise as the internal one: the address of an internal-only provider
      comes out. */
  lemma ResolveIsExternalExactly(c: Flags, fallback: string)
    requires Observe(c).Hit? && Observe(c).svc.HasEndpoint() && Observe(c).svc.Flat() == RootOrZero(Observe(c).svc)
    ensures Resolve(true, c, fallback) == ResolveEndpoint(true, c, EXTERNAL, fallback, false)
            <==> Observe(c).svc.external.Some? || (fallback != "" && fallback == Observe(c).svc.Addr())
    ensures Observe(c).svc.external.None? ==>
              Resolve(true, c, fallback) == ResolveEndpoint(true, c, INTERNAL, fallback, false)
  {
  }
}
