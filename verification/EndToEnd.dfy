/** What a caller of ResolveEndpoint is told, across the whole watch-and-cache protocol. */
module EndToEnd {
  import opened Wrappers
  import opened Types
  import opened Cache
  import opened WatchCache
  import opened WatchCacheAgreement
  import opened WatchCacheReads
  import opened ResolvePaths
  import opened Codec
  import DynamicResolvers
  import ManagerRegister

  /** At rest, after any honest run whose last batch emitted an event, the cached answer
      is one that asking the registry directly, right now, could have returned. */
  lemma AnswersAtRestAreDirectAnswers(tag: string, c: Catalog, s: State, view: EndpointView, fallback: string)
    returns (o: Outcome)
    requires c.index > 0 && HonestlyReaches(Init(tag, c), s)
    requires AtRest(s) && s.batch != []
    ensures Truthful(o, Current(s).instances, tag) && !Transient(o)
    ensures o.Failed? <==> NoneOffered(Current(s).instances, tag)
    ensures ResolveEndpoint(true, s.cache, view, fallback, false) == ResolveEndpointDirect(true, o, view, fallback)
  {
    AgreementAtRest(tag, c, s);
    TagIsKept(tag, c, s);
    match Observe(s.cache) {
      case Hit(svc) => o := Ok(svc);
      case Miss(e) => o := Failed(e);
    }
  }

  /** Who finds a provider that was registered through a Manager, once it is passing: in
      any catalogue that lists it as it is read back, a read filtered by a tag offers it
      exactly when the tag is "", the caller's, or that of the Manager's workload. So a
      consumer of the same workload finds it, under its own identity and name. */
  method RegisterThenOffered(cfg: ManagerRegister.Config, s: Service, others: seq<Instance>) returns (found: Option<Service>)
    ensures found.Some? ==>
              var svc := found.value;
              && svc.id == s.id && svc.name == s.name
              && (cfg.workload != "" ==> svc in Healthy(others + [Instance(svc, true)], "workload=" + cfg.workload))
              && forall tag: string ::
                   svc in Healthy([Instance(svc, true)], tag) <==>
                   tag == "" || tag in s.tags || (cfg.workload != "" && tag == "workload=" + cfg.workload)
  {
    var r := ManagerRegister.Register(cfg, s);
    if !r.Sent? {
      return None;
    }
    var reg := BuildRegistration(r.svc);
    var svc := ServiceFromEntry(reg.entry);
    var listed := Instance(svc, true);
    assert svc.tags == r.svc.tags;
    assert svc.tags == s.tags + (if cfg.workload == "" then [] else ["workload=" + cfg.workload]);
    ReadsWhatIsOffered(others + [listed], "workload=" + cfg.workload);
    assert listed in others + [listed];
    forall tag: string
      ensures svc in Healthy([listed], tag) <==>
              tag == "" || tag in s.tags || (cfg.workload != "" && tag == "workload=" + cfg.workload)
    {
      ReadsWhatIsOffered([listed], tag);
      assert listed in [listed];
    }
    return Some(svc);
  }

  /** The outcome is what the registry gives back of the provider n, whatever internal
      endpoint it was published with. */
  ghost predicate PublishedAs(n: Service, o: Outcome) {
    exists internal: Option<Endpoint> :: o == Ok(ReadBack(n.(internal := internal)))
  }

  /** From the providers' Register to the consumers' accessors: off the internal view, two
      runs over the same providers, published with different internal endpoints each time
      they are read, expose the same address and scheme. */
  lemma PublishedInternalsDoNotInterfere(
    p: DynamicResolvers.Params, seed: Outcome, providers: seq<Service>, run1: seq<Outcome>, run2: seq<Outcome>)
    requires p.view != INTERNAL && |run1| == |run2| == |providers|
    requires forall i :: 0 <= i < |providers| ==>
               && providers[i].external.Some? && !EmptyAddress(providers[i].external)
               && PublishedAs(providers[i], run1[i]) && PublishedAs(providers[i], run2[i])
    ensures DynamicResolvers.Exposed(p, DynamicResolvers.AddressSeed(p, seed), run1)
            == DynamicResolvers.Exposed(p, DynamicResolvers.AddressSeed(p, seed), run2)
    ensures DynamicResolvers.Exposed(p, DynamicResolvers.ServiceSeed(p, seed), run1)
            == DynamicResolvers.Exposed(p, DynamicResolvers.ServiceSeed(p, seed), run2)
  {
    forall i | 0 <= i < |providers|
      ensures DynamicResolvers.SameOutside(run1[i], run2[i])
    {
      InternalMattersOutsideExactly(providers[i]);
    }
    DynamicResolvers.InternalEndpointsDoNotInterfere(p, seed, seed, run1, run2);
  }

  lemma TagIsKept(tag: string, c: Catalog, s: State)
    requires HonestlyReaches(Init(tag, c), s)
    ensures s.tag == tag
  {
    var acts :| HonestRun(Init(tag, c), acts) && Runs(Init(tag, c), acts) && Final(Init(tag, c), acts) == s;
    RunKeepsTag(Init(tag, c), acts);
  }
}
