/** The write path of the Manager (manager.go): endpoints are derived from the
    configuration alone, then tags and the health check are completed. */
module ManagerRegister {
  import opened Wrappers
  import opened Decimal
  import opened Types
  import opened Codec
  import opened Timing

  /** The configuration Register reads, already parsed. */
  datatype Config = Config(
    enabled: bool,
    advertiseAddr: string, advertisePort: Int64, advertiseScheme: string,
    advertiseInternalAddr: string, advertiseInternalPort: Int64, advertiseInternalScheme: string,
    workload: string)

  function HealthCheckURL(scheme: string, addr: string, port: Int64, path: string): string {
    var s := if scheme == "" then "http" else scheme;
    var p := if path == "" then "/health" else path;
    s + "://" + HostPort(addr, port) + (if p[0] == '/' then p else "/" + p)
  }

  function WorkloadTag(workload: string): string {
    if workload == "" then "" else "workload=" + workload
  }

  /** The URL of a probe: plain HTTP and /health unless said otherwise, and one slash
      between the port and the path. */
  lemma HealthCheckURLs(scheme: string, addr: string, port: Int64, path: string)
    ensures var url := HealthCheckURL(scheme, addr, port, path);
            && (scheme != "" && path != "" && path[0] == '/' ==> url == scheme + "://" + (addr + ":" + Itoa(port)) + path)
            && (path == "" ==> url == HealthCheckURL(scheme, addr, port, "/health"))
            && (scheme == "" ==> url == HealthCheckURL("http", addr, port, path))
            && (path != "" && path[0] != '/' ==> url == HealthCheckURL(scheme, addr, port, "/" + path))
  {
  }

  /** What becomes of a health check, given the endpoint that a probe would be aimed at: a
      TTL is sent as at least the floor, the caller's own where that is above it; without
      one the probe gets the URL of the target. Everything else is the caller's. */
  predicate HealthSent(target: Option<Endpoint>, asked: Option<HealthCheck>, sent: Option<HealthCheck>) {
    && (sent.None? <==> asked.None?)
    && (sent.Some? && asked.value.ttl != NoTtl ==>
          && sent.value.ttl.Ttl? && sent.value.ttl.nanos >= TTL_FLOOR
          && (asked.value.ttl.Ttl? ==> sent.value.ttl.nanos == Max(asked.value.ttl.nanos, TTL_FLOOR))
          && (asked.value.ttl.BlankTtl? ==> sent.value.ttl.nanos == DEFAULT_TTL)
          && sent.value == asked.value.(ttl := sent.value.ttl))
    && (sent.Some? && asked.value.ttl == NoTtl ==>
          match target
          case Some(ep) => sent.value == asked.value.(http := HealthCheckURL(ep.scheme, ep.address, ep.port, asked.value.path))
          case None => sent == asked)
  }

  function Max(a: int, b: int): int {
    if a < b then b else a
  }

  // What a registration advertises, stated from the configuration and the caller's
  // port and scheme.

  function AdvertisedPort(cfg: Config, callerPort: Int64): Int64 {
    if cfg.advertisePort > 0 then cfg.advertisePort else callerPort
  }

  function AdvertisedExternal(cfg: Config, callerPort: Int64, callerScheme: string): Option<Endpoint> {
    if cfg.advertiseAddr == "" then None
    else Some(Endpoint(cfg.advertiseAddr, AdvertisedPort(cfg, callerPort),
                       if callerScheme != "" then callerScheme else cfg.advertiseScheme))
  }

  function AdvertisedInternal(cfg: Config, callerPort: Int64): Option<Endpoint> {
    if cfg.advertiseInternalAddr == "" then None
    else
      var port :=
        if cfg.advertiseInternalPort != 0 then cfg.advertiseInternalPort
        else if cfg.advertiseAddr != "" then AdvertisedPort(cfg, callerPort)
        else callerPort;
      Some(Endpoint(cfg.advertiseInternalAddr, port,
                    if cfg.advertiseInternalScheme != "" then cfg.advertiseInternalScheme else "http"))
  }

  /** What reaches the registry, or the error; `None` when discovery is disabled. */
  datatype Outcome = Disabled | Refused(error: Error) | Sent(svc: Service)

  /** The caller's flat fields and endpoint pointers are dropped from the local copy and
      replaced by what the configuration advertises. */
  method DeriveEndpoints(cfg: Config, svc: ServiceRecord)
    modifies svc
    ensures svc.Value() ==
            var was := old(svc.Value());
            Mirrored(was.(external := AdvertisedExternal(cfg, was.port, was.scheme),
                          internal := AdvertisedInternal(cfg, was.port)))
  {
    var callerPort, callerScheme := svc.port, svc.scheme;
    svc.address, svc.port, svc.scheme := "", 0, "";
    svc.external, svc.internal := None, None;

    var extPort := callerPort;
    if cfg.advertisePort > 0 {
      extPort := cfg.advertisePort;
    }
    if cfg.advertiseAddr != "" {
      var scheme := callerScheme;
      if scheme == "" {
        scheme := cfg.advertiseScheme;
      }
      svc.external := Some(Endpoint(cfg.advertiseAddr, extPort, scheme));
    }
    if cfg.advertiseInternalAddr != "" {
      var port := cfg.advertiseInternalPort;
      if port == 0 {
        if cfg.advertiseAddr != "" {
          port := extPort;
        } else {
          port := callerPort;
        }
      }
      var scheme := cfg.advertiseInternalScheme;
      if scheme == "" {
        scheme := "http";
      }
      svc.internal := Some(Endpoint(cfg.advertiseInternalAddr, port, scheme));
    }
    svc.NormalizeEndpoints();
  }

  /** A probe is aimed at the internal endpoint if advertised, else at the external. */
  function ProbeTarget(internal: Option<Endpoint>, external: Option<Endpoint>): Option<Endpoint> {
    if internal.Some? then internal else external
  }

  /** The caller's service is rewritten field by field in a local copy. */
  method Register(cfg: Config, s: Service) returns (r: Outcome)
    ensures r.Disabled? <==> !cfg.enabled
    ensures r == Refused(ErrNoEndpoint) <==>
            cfg.enabled && cfg.advertiseAddr == "" && cfg.advertiseInternalAddr == ""
    ensures r == Refused(ErrInvalidTTL) <==>
            && cfg.enabled && (cfg.advertiseAddr != "" || cfg.advertiseInternalAddr != "")
            && s.healthCheck.Some? && s.healthCheck.value.ttl.BadTtl?
    ensures r.Refused? ==> r.error == ErrNoEndpoint || r.error == ErrInvalidTTL
    ensures r.Sent? ==>
              && r.svc.external == AdvertisedExternal(cfg, s.port, s.scheme)
              && r.svc.internal == AdvertisedInternal(cfg, s.port)
              && r.svc == Normalized(r.svc)
              && (r.svc.id, r.svc.name, r.svc.meta) == (s.id, s.name, s.meta)
              && r.svc.tags == (if cfg.workload == "" then s.tags else s.tags + ["workload=" + cfg.workload])
              && HealthSent(ProbeTarget(AdvertisedInternal(cfg, s.port), AdvertisedExternal(cfg, s.port, s.scheme)),
                            s.healthCheck, r.svc.healthCheck)
    // The same of the endpoints and the health check, in terms of the configuration alone.
    ensures r.Sent? ==>
              && (r.svc.external.Some? <==> cfg.advertiseAddr != "")
              && (r.svc.internal.Some? <==> cfg.advertiseInternalAddr != "")
              && (r.svc.external.Some? ==>
                    var e := r.svc.external.value;
                    && e.address == cfg.advertiseAddr
                    && e.port == (if cfg.advertisePort > 0 then cfg.advertisePort else s.port)
                    && e.scheme == (if s.scheme != "" then s.scheme else cfg.advertiseScheme))
              && (r.svc.internal.Some? ==>
                    var i := r.svc.internal.value;
                    && i.address == cfg.advertiseInternalAddr
                    && (cfg.advertiseInternalPort != 0 ==> i.port == cfg.advertiseInternalPort)
                    && (cfg.advertiseInternalPort == 0 ==>
                          i.port == if r.svc.external.Some? then r.svc.external.value.port else s.port)
                    && i.scheme == (if cfg.advertiseInternalScheme != "" then cfg.advertiseInternalScheme else "http"))
    ensures r.Sent? && s.healthCheck.Some? ==>
              var asked := s.healthCheck.value;
              && r.svc.healthCheck.Some?
              && (match asked.ttl
                  case NoTtl =>
                    var ep := if r.svc.internal.Some? then r.svc.internal.value else r.svc.external.value;
                    r.svc.healthCheck.value == asked.(http := HealthCheckURL(ep.scheme, ep.address, ep.port, asked.path))
                  case Ttl(d) =>
                    r.svc.healthCheck.value == asked.(ttl := Ttl(if d < 15 * SECOND then 15 * SECOND else d))
                  case BlankTtl => r.svc.healthCheck.value == asked.(ttl := Ttl(30 * SECOND))
                  case BadTtl(_) => false)
    ensures r.Sent? && s.healthCheck.None? ==> r.svc.healthCheck.None?
  {
    if !cfg.enabled {
      return Disabled;
    }
    var svc := new ServiceRecord(s);
    DeriveEndpoints(cfg, svc);
    if svc.external.None? && svc.internal.None? {
      return Refused(ErrNoEndpoint);
    }
    if cfg.workload != "" {
      svc.tags := svc.tags + [WorkloadTag(cfg.workload)];
    }
    var applied := ApplyHealthCheck(svc);
    if applied.Failure? {
      return Refused(applied.error);
    }
    return Sent(svc.Value());
  }

  /** Completes the health check of the service being registered, on a copy of it. */
  method ApplyHealthCheck(svc: ServiceRecord) returns (r: Result<(), Error>)
    modifies svc
    ensures r.Failure? <==> old(svc.healthCheck).Some? && old(svc.healthCheck).value.ttl.BadTtl?
    ensures r.Failure? ==> r.error == ErrInvalidTTL && svc.Value() == old(svc.Value())
    ensures r.Success? ==>
              && svc.Value() == old(svc.Value()).(healthCheck := svc.healthCheck)
              && HealthSent(ProbeTarget(svc.internal, svc.external), old(svc.healthCheck), svc.healthCheck)
  {
    if svc.healthCheck.None? {
      return Success(());
    }
    var hc := svc.healthCheck.value;
    if hc.ttl != NoTtl {
      var ttl := TtlWithDefaults(hc.ttl);
      if ttl.Failure? {
        return Failure(ttl.error);
      }
      hc := hc.(ttl := ttl.value);
    } else {
      var target := svc.Value().EndpointFor(INTERNAL);
      if target.Success? {
        hc := hc.(http := HealthCheckURL(target.value.scheme, target.value.address, target.value.port, hc.path));
      }
    }
    svc.healthCheck := Some(hc);
    r := Success(());
  }

  /** Register, then a consumer reading the catalogue: for any view the consumer's
      answer is the one the configuration gives, and the caller's address, endpoint
      pointers and metadata have no part in it. */
  method RegisterThenRead(cfg: Config, s: Service, view: EndpointView) returns (seen: Option<Result<Endpoint, Error>>)
    ensures seen.Some? ==>
              var ext, inn := AdvertisedExternal(cfg, s.port, s.scheme), AdvertisedInternal(cfg, s.port);
              seen.value == ZERO_SERVICE.(external := ext, internal := inn).EndpointFor(view)
    ensures seen.None? <==>
            || !cfg.enabled
            || (cfg.advertiseAddr == "" && cfg.advertiseInternalAddr == "")
            || (s.healthCheck.Some? && s.healthCheck.value.ttl.BadTtl?)
  {
    var r := Register(cfg, s);
    if !r.Sent? {
      return None;
    }
    RoundTripExactly(r.svc);
    var reg := BuildRegistration(r.svc);
    return Some(ServiceFromEntry(reg.entry).EndpointFor(view));
  }
}
