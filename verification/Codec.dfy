/** How a service is written to the registry and read back (consul.go): the metadata
    keys, the registration record, and the reconstruction of a service from an entry. */
module Codec {
  import opened Wrappers
  import opened Decimal
  import opened Types

  const SCHEME := "scheme"
  const EXTERNAL_ADDRESS := "external_address"
  const EXTERNAL_PORT := "external_port"
  const EXTERNAL_SCHEME := "external_scheme"
  const INTERNAL_ADDRESS := "internal_address"
  const INTERNAL_PORT := "internal_port"
  const INTERNAL_SCHEME := "internal_scheme"

  /** The keys the library derives from the endpoints, whatever the caller supplied. */
  const RESERVED_META_KEYS: seq<string> := [
    SCHEME, EXTERNAL_ADDRESS, EXTERNAL_PORT, EXTERNAL_SCHEME,
    INTERNAL_ADDRESS, INTERNAL_PORT, INTERNAL_SCHEME
  ]

  predicate Reserved(k: string) {
    k in RESERVED_META_KEYS
  }

  lemma KeysAreDistinct()
    ensures |SCHEME| == 6
    ensures |EXTERNAL_ADDRESS| == |INTERNAL_ADDRESS| == 16
    ensures |EXTERNAL_PORT| == |INTERNAL_PORT| == 13
    ensures |EXTERNAL_SCHEME| == |INTERNAL_SCHEME| == 15
    ensures EXTERNAL_ADDRESS != INTERNAL_ADDRESS
    ensures EXTERNAL_PORT != INTERNAL_PORT
    ensures EXTERNAL_SCHEME != INTERNAL_SCHEME
  {
    assert EXTERNAL_ADDRESS[0] == 'e' && INTERNAL_ADDRESS[0] == 'i';
    assert EXTERNAL_PORT[0] == 'e' && INTERNAL_PORT[0] == 'i';
    assert EXTERNAL_SCHEME[0] == 'e' && INTERNAL_SCHEME[0] == 'i';
  }

  /** An instance as the registry stores and returns it. */
  datatype Entry = Entry(
    id: string, name: string, address: string, port: Int64, tags: seq<string>, meta: map<string, string>)

  datatype Check =
    | TtlCheck(checkId: string, ttl: TtlText)
    | HttpCheck(http: string, interval: string, timeout: string)

  datatype Registration = Registration(entry: Entry, check: Option<Check>)

  /** A missing key reads as the empty string. */
  function MetaGet(meta: map<string, string>, k: string): string {
    if k in meta then meta[k] else ""
  }

  // ---------------------------------------------------------------- reading

  function EndpointFromMeta(meta: map<string, string>, address: string, port: string, scheme: string): Endpoint {
    Endpoint(MetaGet(meta, address), AtoiSafe(MetaGet(meta, port)), MetaGet(meta, scheme))
  }

  function ServiceFromEntry(e: Entry): Service {
    var external :=
      if MetaGet(e.meta, EXTERNAL_ADDRESS) != "" then
        Some(EndpointFromMeta(e.meta, EXTERNAL_ADDRESS, EXTERNAL_PORT, EXTERNAL_SCHEME))
      else if MetaGet(e.meta, INTERNAL_ADDRESS) == "" then
        Some(Endpoint(e.address, e.port, MetaGet(e.meta, SCHEME)))
      else None;
    var internal :=
      if MetaGet(e.meta, INTERNAL_ADDRESS) != "" then
        Some(EndpointFromMeta(e.meta, INTERNAL_ADDRESS, INTERNAL_PORT, INTERNAL_SCHEME))
      else None;
    Mirrored(Service(e.id, e.name, "", 0, "", external, internal, e.tags, e.meta, None))
  }

  // ---------------------------------------------------------------- writing

  /** A scheme is written only when there is one. */
  function NonEmpty(s: string): Option<string> {
    if s == "" then None else Some(s)
  }

  /** The value a reserved key carries for a service in normal form; None means the
      key is absent. */
  function ReservedValue(n: Service, k: string): Option<string> {
    var ext, inn := n.external, n.internal;
    if k == SCHEME || k == EXTERNAL_SCHEME then
      if ext.Some? then NonEmpty(ext.value.scheme) else None
    else if k == EXTERNAL_ADDRESS then
      if ext.Some? then Some(ext.value.address) else None
    else if k == EXTERNAL_PORT then
      if ext.Some? then Some(Itoa(ext.value.port)) else None
    else if k == INTERNAL_ADDRESS then
      if inn.Some? then Some(inn.value.address) else None
    else if k == INTERNAL_PORT then
      if inn.Some? then Some(Itoa(inn.value.port)) else None
    else if k == INTERNAL_SCHEME then
      if inn.Some? then NonEmpty(inn.value.scheme) else None
    else None
  }

  /** The value of any key after writing: reserved keys come from the endpoints, all
      others from the caller. */
  function WireValue(n: Service, k: string): Option<string> {
    if Reserved(k) then ReservedValue(n, k)
    else if k in n.meta then Some(n.meta[k])
    else None
  }

  /** The metadata written for s. */
  function WireMeta(s: Service): map<string, string> {
    var n := Normalized(s);
    if !n.HasEndpoint() then s.meta
    else map k | k in n.meta.Keys + (set r | r in RESERVED_META_KEYS) && WireValue(n, k).Some? :: WireValue(n, k).value
  }

  lemma WireMetaAt(s: Service, k: string)
    requires Normalized(s).HasEndpoint()
    ensures k in WireMeta(s) <==> WireValue(Normalized(s), k).Some?
    ensures k in WireMeta(s) ==> Some(WireMeta(s)[k]) == WireValue(Normalized(s), k)
    ensures MetaGet(WireMeta(s), k) ==
            (match WireValue(Normalized(s), k) case Some(v) => v case None => "")
  {
  }

  /** The external endpoint's keys added to meta. */
  function WithExternal(meta: map<string, string>, ext: Endpoint): map<string, string> {
    var m := meta[EXTERNAL_ADDRESS := ext.address][EXTERNAL_PORT := Itoa(ext.port)];
    if ext.scheme != "" then m[EXTERNAL_SCHEME := ext.scheme][SCHEME := ext.scheme] else m
  }

  /** The internal endpoint's keys added to meta. */
  function WithInternal(meta: map<string, string>, inn: Endpoint): map<string, string> {
    var m := meta[INTERNAL_ADDRESS := inn.address][INTERNAL_PORT := Itoa(inn.port)];
    if inn.scheme != "" then m[INTERNAL_SCHEME := inn.scheme] else m
  }

  function Lookup(meta: map<string, string>, k: string): Option<string> {
    if k in meta then Some(meta[k]) else None
  }

  lemma WithExternalAt(meta: map<string, string>, n: Service, k: string)
    requires n.external.Some? && n.internal.None?
    ensures Lookup(WithExternal(meta, n.external.value), k) ==
            if ReservedValue(n, k).Some? then ReservedValue(n, k) else Lookup(meta, k)
  {
    KeysAreDistinct();
  }

  lemma WithInternalAt(meta: map<string, string>, n: Service, k: string)
    requires n.external.None? && n.internal.Some?
    ensures Lookup(WithInternal(meta, n.internal.value), k) ==
            if ReservedValue(n, k).Some? then ReservedValue(n, k) else Lookup(meta, k)
  {
    KeysAreDistinct();
  }

  lemma ReservedValueSplits(n: Service, k: string)
    ensures ReservedValue(n, k) ==
            if ReservedValue(n.(external := None), k).Some? then ReservedValue(n.(external := None), k)
            else ReservedValue(n.(internal := None), k)
    ensures ReservedValue(n.(internal := None), k).Some? ==> ReservedValue(n.(external := None), k).None?
    ensures ReservedValue(n, k).Some? ==> Reserved(k)
  {
    KeysAreDistinct();
    ReservedKeys();
  }

  /** The map the writer builds is the one specified: stripped of reserved keys, then
      given those of each endpoint in turn. */
  lemma MetaIsBuilt(s: Service, stripped: map<string, string>)
    requires Normalized(s).HasEndpoint()
    requires forall k :: Lookup(stripped, k) == if Reserved(k) then None else Lookup(s.meta, k)
    ensures var n := Normalized(s);
            var m := if n.external.Some? then WithExternal(stripped, n.external.value) else stripped;
            (if n.internal.Some? then WithInternal(m, n.internal.value) else m) == WireMeta(s)
  {
    var n := Normalized(s);
    var m := if n.external.Some? then WithExternal(stripped, n.external.value) else stripped;
    var built := if n.internal.Some? then WithInternal(m, n.internal.value) else m;
    forall k
      ensures Lookup(built, k) == Lookup(WireMeta(s), k)
    {
      if n.external.Some? { WithExternalAt(stripped, n.(internal := None), k); }
      if n.internal.Some? { WithInternalAt(m, n.(external := None), k); }
      ReservedValueSplits(n, k);
      WireMetaAt(s, k);
    }
    SameLookups(built, WireMeta(s));
  }

  lemma SameLookups(a: map<string, string>, b: map<string, string>)
    requires forall k :: Lookup(a, k) == Lookup(b, k)
    ensures a == b
  {
    forall k
      ensures k in a <==> k in b
      ensures k in a ==> a[k] == b[k]
    {
      assert Lookup(a, k) == Lookup(b, k);
    }
  }

  /** The metadata map is built in place: a copy of the caller's, stripped of every
      reserved key, then extended with the keys the endpoints give. */
  method ServiceMeta(s: Service) returns (meta: map<string, string>)
    ensures meta == WireMeta(s)
  {
    var svc := new ServiceRecord(s);
    svc.NormalizeEndpoints();
    ghost var n := Normalized(s);
    if svc.external.None? && svc.internal.None? {
      return svc.meta;
    }
    meta := svc.meta;
    for i := 0 to |RESERVED_META_KEYS|
      invariant forall k :: k in meta <==> k in s.meta && k !in RESERVED_META_KEYS[..i]
      invariant forall k :: k in meta ==> meta[k] == s.meta[k]
    {
      meta := meta - {RESERVED_META_KEYS[i]};
    }
    assert RESERVED_META_KEYS[..|RESERVED_META_KEYS|] == RESERVED_META_KEYS;
    MetaIsBuilt(s, meta);
    if svc.external.Some? {
      var ext := svc.external.value;
      meta := meta[EXTERNAL_ADDRESS := ext.address][EXTERNAL_PORT := Itoa(ext.port)];
      if ext.scheme != "" {
        meta := meta[EXTERNAL_SCHEME := ext.scheme][SCHEME := ext.scheme];
      }
    }
    if svc.internal.Some? {
      var inn := svc.internal.value;
      meta := meta[INTERNAL_ADDRESS := inn.address][INTERNAL_PORT := Itoa(inn.port)];
      if inn.scheme != "" {
        meta := meta[INTERNAL_SCHEME := inn.scheme];
      }
    }
  }

  function TtlCheckId(serviceId: string): string {
    "service:" + serviceId
  }

  /** The check registered for a health check: TTL mode whenever a TTL is present. */
  function CheckOf(s: Service): Option<Check> {
    match s.healthCheck
    case None => None
    case Some(hc) =>
      if hc.ttl != NoTtl then Some(TtlCheck(TtlCheckId(s.id), hc.ttl))
      else Some(HttpCheck(hc.http, hc.interval, hc.timeout))
  }

  /** What Register sends: the metadata, and the root endpoint as the address. */
  function RegistrationOf(s: Service): Registration {
    var root := RootOrZero(Normalized(s));
    Registration(Entry(s.id, s.name, root.address, root.port, s.tags, WireMeta(s)), CheckOf(s))
  }

  /** The registration record, field by field: identity and tags are the service's, the
      address is that of the external endpoint, else the internal (in normal form), and the
      check is a TTL check exactly when a TTL is set. */
  method BuildRegistration(s: Service) returns (reg: Registration)
    ensures reg == RegistrationOf(s)
    ensures reg.entry.id == s.id && reg.entry.name == s.name && reg.entry.tags == s.tags
    ensures var n := Normalized(s);
            && (n.external.Some? ==>
                  reg.entry.address == n.external.value.address && reg.entry.port == n.external.value.port)
            && (n.external.None? && n.internal.Some? ==>
                  reg.entry.address == n.internal.value.address && reg.entry.port == n.internal.value.port)
            && (!n.HasEndpoint() ==> reg.entry.address == "" && reg.entry.port == 0 && reg.entry.meta == s.meta)
    ensures match s.healthCheck
            case None => reg.check == None
            case Some(hc) =>
              reg.check == Some(if hc.ttl != NoTtl then TtlCheck("service:" + s.id, hc.ttl)
                                else HttpCheck(hc.http, hc.interval, hc.timeout))
  {
    var svc := new ServiceRecord(s);
    svc.NormalizeEndpoints();
    NormalFormLaws(s);
    var n := svc.Value();
    var meta := ServiceMeta(n);
    assert WireMeta(n) == WireMeta(s);
    var address, port := "", 0;
    var root := n.RootEndpoint();
    if root.Some? {
      address, port := root.value.address, root.value.port;
    }
    var check: Option<Check> := None;
    if svc.healthCheck.Some? {
      var hc := svc.healthCheck.value;
      if hc.ttl != NoTtl {
        check := Some(TtlCheck(TtlCheckId(svc.id), hc.ttl));
      } else {
        check := Some(HttpCheck(hc.http, hc.interval, hc.timeout));
      }
    }
    reg := Registration(Entry(svc.id, svc.name, address, port, svc.tags, meta), check);
  }

  // ---------------------------------------------------------------- round trip

  /** The service a consumer sees after s was registered. */
  function ReadBack(s: Service): Service {
    ServiceFromEntry(RegistrationOf(s).entry)
  }

  predicate EmptyAddress(e: Option<Endpoint>) {
    e.Some? && e.value.address == ""
  }

  lemma ReservedKeys()
    ensures Reserved(SCHEME) && Reserved(EXTERNAL_ADDRESS) && Reserved(EXTERNAL_PORT) && Reserved(EXTERNAL_SCHEME)
    ensures Reserved(INTERNAL_ADDRESS) && Reserved(INTERNAL_PORT) && Reserved(INTERNAL_SCHEME)
  {
    assert SCHEME == RESERVED_META_KEYS[0] && EXTERNAL_ADDRESS == RESERVED_META_KEYS[1];
    assert EXTERNAL_PORT == RESERVED_META_KEYS[2] && EXTERNAL_SCHEME == RESERVED_META_KEYS[3];
    assert INTERNAL_ADDRESS == RESERVED_META_KEYS[4] && INTERNAL_PORT == RESERVED_META_KEYS[5];
    assert INTERNAL_SCHEME == RESERVED_META_KEYS[6];
  }

  lemma ReservedValues(n: Service)
    ensures ReservedValue(n, SCHEME) == ReservedValue(n, EXTERNAL_SCHEME)
    ensures n.external.Some? ==>
              && ReservedValue(n, EXTERNAL_ADDRESS) == Some(n.external.value.address)
              && ReservedValue(n, EXTERNAL_PORT) == Some(Itoa(n.external.value.port))
              && ReservedValue(n, EXTERNAL_SCHEME) == NonEmpty(n.external.value.scheme)
    ensures n.external.None? ==>
              ReservedValue(n, EXTERNAL_ADDRESS) == ReservedValue(n, EXTERNAL_PORT) == ReservedValue(n, EXTERNAL_SCHEME) == None
    ensures n.internal.Some? ==>
              && ReservedValue(n, INTERNAL_ADDRESS) == Some(n.internal.value.address)
              && ReservedValue(n, INTERNAL_PORT) == Some(Itoa(n.internal.value.port))
              && ReservedValue(n, INTERNAL_SCHEME) == NonEmpty(n.internal.value.scheme)
    ensures n.internal.None? ==>
              ReservedValue(n, INTERNAL_ADDRESS) == ReservedValue(n, INTERNAL_PORT) == ReservedValue(n, INTERNAL_SCHEME) == None
  {
    KeysAreDistinct();
  }

  /** What the reader finds under the external keys, for a service with an endpoint. */
  lemma WireExternal(s: Service)
    requires Normalized(s).HasEndpoint()
    ensures var n, meta := Normalized(s), WireMeta(s);
            && (n.external.Some? ==>
                  && EndpointFromMeta(meta, EXTERNAL_ADDRESS, EXTERNAL_PORT, EXTERNAL_SCHEME) == n.external.value
                  && MetaGet(meta, SCHEME) == n.external.value.scheme)
            && (n.external.None? ==> MetaGet(meta, EXTERNAL_ADDRESS) == "" && MetaGet(meta, SCHEME) == "")
  {
    var n := Normalized(s);
    ReservedKeys();
    ReservedValues(n);
    WireMetaAt(s, SCHEME);
    WireMetaAt(s, EXTERNAL_ADDRESS);
    WireMetaAt(s, EXTERNAL_PORT);
    WireMetaAt(s, EXTERNAL_SCHEME);
    if n.external.Some? { PrintThenParse(n.external.value.port); }
  }

  /** What the reader finds under the internal keys, for a service with an endpoint. */
  lemma WireInternal(s: Service)
    requires Normalized(s).HasEndpoint()
    ensures var n, meta := Normalized(s), WireMeta(s);
            && (n.internal.Some? ==>
                  EndpointFromMeta(meta, INTERNAL_ADDRESS, INTERNAL_PORT, INTERNAL_SCHEME) == n.internal.value)
            && (n.internal.None? ==> MetaGet(meta, INTERNAL_ADDRESS) == "")
  {
    var n := Normalized(s);
    ReservedKeys();
    ReservedValues(n);
    WireMetaAt(s, INTERNAL_ADDRESS);
    WireMetaAt(s, INTERNAL_PORT);
    WireMetaAt(s, INTERNAL_SCHEME);
    if n.internal.Some? { PrintThenParse(n.internal.value.port); }
  }

  /** The keys on the wire, by name, for a service with an endpoint: the ones of an endpoint
      it has, and no other reserved key. */
  lemma WireFormat(s: Service)
    requires Normalized(s).HasEndpoint()
    ensures var n, meta := Normalized(s), WireMeta(s);
            && (n.external.Some? ==>
                  var e := n.external.value;
                  && Lookup(meta, "external_address") == Some(e.address)
                  && Lookup(meta, "external_port") == Some(Itoa(e.port))
                  && Lookup(meta, "external_scheme") == (if e.scheme == "" then None else Some(e.scheme))
                  && Lookup(meta, "scheme") == (if e.scheme == "" then None else Some(e.scheme)))
            && (n.external.None? ==>
                  && "external_address" !in meta && "external_port" !in meta
                  && "external_scheme" !in meta && "scheme" !in meta)
            && (n.internal.Some? ==>
                  var i := n.internal.value;
                  && Lookup(meta, "internal_address") == Some(i.address)
                  && Lookup(meta, "internal_port") == Some(Itoa(i.port))
                  && Lookup(meta, "internal_scheme") == (if i.scheme == "" then None else Some(i.scheme)))
            && (n.internal.None? ==>
                  "internal_address" !in meta && "internal_port" !in meta && "internal_scheme" !in meta)
  {
    var n := Normalized(s);
    ReservedKeys();
    ReservedValues(n);
    forall k | k in RESERVED_META_KEYS
      ensures Lookup(WireMeta(s), k) == ReservedValue(n, k)
    {
      WireMetaAt(s, k);
    }
  }

  /** Who the provider is survives the round trip: its identity, its name and its tags. */
  lemma IdentityIsReadBack(s: Service)
    ensures var back := ReadBack(s); back.id == s.id && back.name == s.name && back.tags == s.tags
  {
  }

  /** How any entry is read. An external address key gives the external endpoint; with
      neither address key the entry is one of an old writer and its own address and port
      are the external endpoint; an internal key alone gives none. */
  lemma EntriesAreRead(e: Entry)
    ensures var s := ServiceFromEntry(e);
            var ext, inn := MetaGet(e.meta, "external_address"), MetaGet(e.meta, "internal_address");
            && (ext != "" ==>
                  s.external == Some(Endpoint(ext, AtoiSafe(MetaGet(e.meta, "external_port")), MetaGet(e.meta, "external_scheme"))))
            && (ext == "" && inn == "" ==> s.external == Some(Endpoint(e.address, e.port, MetaGet(e.meta, "scheme"))))
            && (ext == "" && inn != "" ==> s.external == None)
            && (inn != "" ==>
                  s.internal == Some(Endpoint(inn, AtoiSafe(MetaGet(e.meta, "internal_port")), MetaGet(e.meta, "internal_scheme"))))
            && (inn == "" ==> s.internal == None)
            && (s.id, s.name, s.tags, s.meta) == (e.id, e.name, e.tags, e.meta) && s.healthCheck == None
  {
  }

  /** The exact condition for a lossless round trip. */
  lemma RoundTripExactly(s: Service)
    requires Normalized(s).HasEndpoint()
    ensures var n, back := Normalized(s), ReadBack(s);
            && back.external == n.external && back.internal == n.internal && back.Flat() == n.Flat()
            <==>
            && !EmptyAddress(n.internal)
            && (!EmptyAddress(n.external) || n.internal.None?)
  {
    WireExternal(s);
    WireInternal(s);
    NormalFormLaws(s);
  }

  /** An internal-only provider is unavailable through the external view after the
      round trip exactly when its internal address is non-empty: with an empty address
      the reader takes the entry for a legacy one and its root becomes external. */
  lemma InternalOnlyStaysInternalExactly(s: Service, view: EndpointView)
    requires Normalized(s).external.None? && Normalized(s).internal.Some? && view != INTERNAL
    ensures ReadBack(s).EndpointFor(view) == Failure(ErrEndpointViewUnavailable)
            <==> !EmptyAddress(Normalized(s).internal)
    ensures EmptyAddress(Normalized(s).internal) ==>
              ReadBack(s).EndpointFor(view) == Success(Endpoint("", Normalized(s).internal.value.port, ""))
  {
    WireExternal(s);
    WireInternal(s);
    NormalFormLaws(s);
  }

  /** Whether the internal endpoint a provider publishes can change the external one that
      is read back: exactly when the external address is empty. */
  lemma InternalMattersOutsideExactly(n: Service)
    requires n.external.Some?
    ensures (forall internal: Option<Endpoint> :: ReadBack(n.(internal := internal)).external == n.external)
            <==> !EmptyAddress(n.external)
  {
    if EmptyAddress(n.external) {
      var other := n.(internal := Some(Endpoint("10.0.0.1", 0, "")));
      WireExternal(other);
      WireInternal(other);
      assert ReadBack(other).external.None?;
    } else {
      forall internal: Option<Endpoint>
        ensures ReadBack(n.(internal := internal)).external == n.external
      {
        WireExternal(n.(internal := internal));
      }
    }
  }

  /** Whatever an entry holds, the reader finds at least one endpoint in it, so the
      internal view of a service read from the registry is always available. */
  lemma EntriesAlwaysReachable(e: Entry)
    ensures ServiceFromEntry(e).EndpointFor(INTERNAL).Success?
    ensures ServiceFromEntry(e).Flat() == RootOrZero(ServiceFromEntry(e))
  {
  }

  /** Whether the endpoints read back can depend on the caller's metadata: exactly
      when no endpoint was advertised. */
  lemma CallerMetaMattersExactly(s: Service)
    ensures (forall m: map<string, string> ::
               ReadBack(s.(meta := m)).external == ReadBack(s).external
               && ReadBack(s.(meta := m)).internal == ReadBack(s).internal
               && ReadBack(s.(meta := m)).Flat() == ReadBack(s).Flat())
            <==> Normalized(s).HasEndpoint()
  {
    if Normalized(s).HasEndpoint() {
      forall m: map<string, string>
        ensures ReadBack(s.(meta := m)).external == ReadBack(s).external
        ensures ReadBack(s.(meta := m)).internal == ReadBack(s).internal
        ensures ReadBack(s.(meta := m)).Flat() == ReadBack(s).Flat()
      {
        SameEndpointsReadBack(s, m);
      }
    } else {
      KeysAreDistinct();
      var m1, m2 := map[EXTERNAL_ADDRESS := "a"], map[EXTERNAL_ADDRESS := "b"];
      assert ReadBack(s.(meta := m1)).external.value.address == "a";
      assert ReadBack(s.(meta := m2)).external.value.address == "b";
      assert "a"[0] != "b"[0];
    }
  }

  lemma SameEndpointsReadBack(s: Service, m: map<string, string>)
    requires Normalized(s).HasEndpoint()
    ensures ReadBack(s.(meta := m)).external == ReadBack(s).external
    ensures ReadBack(s.(meta := m)).internal == ReadBack(s).internal
    ensures ReadBack(s.(meta := m)).Flat() == ReadBack(s).Flat()
  {
    var t := s.(meta := m);
    assert Normalized(t) == Normalized(s).(meta := m);
    WireExternal(s);
    WireExternal(t);
    WireInternal(s);
    WireInternal(t);
  }

  /** Every key but the seven that the library reserves reaches the reader exactly as the
      caller gave it, absent keys included. */
  lemma OtherKeysSurvive(s: Service, k: string)
    requires k !in {"scheme", "external_address", "external_port", "external_scheme",
                    "internal_address", "internal_port", "internal_scheme"}
    ensures k in ReadBack(s).meta <==> k in s.meta
    ensures k in s.meta ==> ReadBack(s).meta[k] == s.meta[k]
  {
    if Normalized(s).HasEndpoint() {
      WireMetaAt(s, k);
    }
  }
}
