/** Services, endpoints and the view rule (types.go). */
module Types {
  import opened Wrappers
  import opened Decimal

  /** The errors the modelled paths return. `ErrRegistry` stands for any other
      failure of a registry call: a timeout, a refused connection, a server error. */
  datatype Error =
    | ErrNoEndpoint
    | ErrEndpointViewUnavailable
    | ErrNoHealthyInstances
    | ErrDiscoveryDisabledNoFallback
    | ErrInvalidTTL
    | ErrRegistry(text: string)

  datatype Endpoint = Endpoint(address: string, port: Int64, scheme: string) {
    /** host:port */
    function Addr(): string {
      HostPort(address, port)
    }
  }

  function HostPort(address: string, port: Int64): string {
    address + ":" + Itoa(port)
  }

  /** A view is free text: everything but "internal" selects the external endpoint. */
  type EndpointView = string

  const EXTERNAL: EndpointView := "external"
  const INTERNAL: EndpointView := "internal"

  /** The text of a health check's TTL, kept abstract: a duration in nanoseconds
      where it parses. `NoTtl` is the empty string, `BlankTtl` only white space. */
  datatype TtlText = NoTtl | BlankTtl | BadTtl(text: string) | Ttl(nanos: int)

  datatype HealthCheck = HealthCheck(http: string, interval: string, timeout: string, path: string, ttl: TtlText)

  /** A service instance. `address`, `port` and `scheme` are the deprecated flat
      mirror of the root routable endpoint. */
  datatype Service = Service(
    id: string, name: string,
    address: string, port: Int64, scheme: string,
    external: Option<Endpoint>, internal: Option<Endpoint>,
    tags: seq<string>, meta: map<string, string>, healthCheck: Option<HealthCheck>)
  {
    function Addr(): string {
      HostPort(address, port)
    }

    /** External when advertised, else internal, else none. */
    function RootEndpoint(): Option<Endpoint> {
      if external.Some? then external else internal
    }

    predicate HasEndpoint() {
      external.Some? || internal.Some?
    }

    predicate HasFlat() {
      address != "" || port != 0 || scheme != ""
    }

    /** The write-path synthesis of an external endpoint from the flat fields. */
    function ExternalEndpoint(): Option<Endpoint> {
      if external.Some? then external
      else if HasFlat() then Some(Endpoint(address, port, scheme))
      else None
    }

    /** The flat fields, as one endpoint. */
    function Flat(): Endpoint {
      Endpoint(address, port, scheme)
    }

    /** The endpoint a consumer reaches through a view. */
    function EndpointFor(view: EndpointView): Result<Endpoint, Error> {
      if view == INTERNAL then
        if internal.Some? then Success(internal.value)
        else if external.Some? then Success(external.value)
        else Failure(ErrEndpointViewUnavailable)
      else
        if external.Some? then Success(external.value)
        else Failure(ErrEndpointViewUnavailable)
    }
  }

  const ZERO_SERVICE := Service("", "", "", 0, "", None, None, [], map[], None)
  const ZERO_ENDPOINT := Endpoint("", 0, "")

  function RootOrZero(s: Service): Endpoint {
    match s.RootEndpoint()
    case Some(e) => e
    case None => ZERO_ENDPOINT
  }

  /** s with its flat fields overwritten by the root endpoint. */
  function Mirrored(s: Service): Service {
    var root := RootOrZero(s);
    s.(address := root.address, port := root.port, scheme := root.scheme)
  }

  /** The write-path normal form of s. */
  function Normalized(s: Service): Service {
    Mirrored(if s.HasEndpoint() then s else s.(external := s.ExternalEndpoint()))
  }

  /** A service held in a local variable, whose pointer-receiver methods overwrite it. */
  class ServiceRecord {
    var id: string
    var name: string
    var address: string
    var port: Int64
    var scheme: string
    var external: Option<Endpoint>
    var internal: Option<Endpoint>
    var tags: seq<string>
    var meta: map<string, string>
    var healthCheck: Option<HealthCheck>

    /** The value the variable holds. */
    function Value(): Service
      reads this
    {
      Service(id, name, address, port, scheme, external, internal, tags, meta, healthCheck)
    }

    constructor (s: Service)
      ensures Value() == s
    {
      id, name, address, port, scheme := s.id, s.name, s.address, s.port, s.scheme;
      external, internal, tags, meta, healthCheck := s.external, s.internal, s.tags, s.meta, s.healthCheck;
    }

    method MirrorFlat()
      modifies this
      ensures Value() == Mirrored(old(Value()))
    {
      var root := Value().RootEndpoint();
      if root.None? {
        address, port, scheme := "", 0, "";
        return;
      }
      address, port, scheme := root.value.address, root.value.port, root.value.scheme;
    }

    method NormalizeEndpoints()
      modifies this
      ensures Value() == Normalized(old(Value()))
    {
      if external.None? && internal.None? {
        external := Value().ExternalEndpoint();
      }
      MirrorFlat();
    }
  }

  /** The normal form is a fixed point that keeps every advertised endpoint, has its
      flat fields equal to the root, and gains an external endpoint in exactly one
      case: no endpoint was advertised and a flat field was set. */
  lemma NormalFormLaws(s: Service)
    ensures Normalized(Normalized(s)) == Normalized(s)
    ensures var n := Normalized(s);
            n.Flat() == if n.external.Some? then n.external.value
                        else if n.internal.Some? then n.internal.value
                        else Endpoint("", 0, "")
    ensures Mirrored(s).Flat() == if s.external.Some? then s.external.value
                                  else if s.internal.Some? then s.internal.value
                                  else Endpoint("", 0, "")
    ensures Mirrored(s).external == s.external && Mirrored(s).internal == s.internal
    ensures var n := Normalized(s);
            (n.id, n.name, n.tags, n.meta, n.healthCheck) == (s.id, s.name, s.tags, s.meta, s.healthCheck)
    ensures Normalized(s).internal == s.internal
    ensures Normalized(s).external != s.external <==>
            && s.external.None? && s.internal.None?
            && (s.address != "" || s.port != 0 || s.scheme != "")
    ensures Normalized(s).HasEndpoint() <==> s.HasEndpoint() || s.HasFlat()
    ensures Normalized(s).external != s.external ==>
              Normalized(s).external == Some(Endpoint(s.address, s.port, s.scheme))
  {
  }

  /** Off the internal view the answer depends on the external endpoint and on nothing
      else in the service; on it, an external-only provider answers exactly as it does
      off it. */
  lemma ViewLaws(s: Service, t: Service, view: EndpointView)
    ensures view != INTERNAL ==> (s.EndpointFor(view) == t.EndpointFor(view) <==> s.external == t.external)
    ensures view != "internal" ==> forall e :: s.EndpointFor(view) == Success(e) <==> s.external == Some(e)
    ensures forall e :: s.EndpointFor("internal") == Success(e) <==>
                        s.internal == Some(e) || (s.internal == None && s.external == Some(e))
    ensures s.EndpointFor(view).Failure? ==> s.EndpointFor(view).error == ErrEndpointViewUnavailable
    ensures s.internal.None? ==> s.EndpointFor(INTERNAL) == s.EndpointFor(EXTERNAL)
    ensures s.EndpointFor(INTERNAL).Failure? <==> !s.HasEndpoint()
  {
  }
}
