/**
 * The exporter object: its descriptor table, `Describe`, the four
 * fetchers and `Collect`, which fetches the four resources in turn and
 * sends one sample per reading on the collection channel.
 */
module Exporter {
  import opened Wrappers
  import opened Hub6
  import opened Decimal
  import opened Seqs
  import opened Metrics
  import opened DeviceClient
  import opened Translate
  import opened Channels

  /** The JSON decoders of the four record shapes. */
  datatype Codecs = Codecs(
    downstream: Codec<Downstream>,
    upstream: Codec<Upstream>,
    serviceFlows: Codec<ServiceFlows>,
    state: Codec<State>)

  class HubExporter {
    /** host[:port] of the hub */
    const address: string
    /** The 29 descriptor fields, one per metric. */
    const descs: map<MetricId, Desc>

    /** Every metric has its descriptor. */
    ghost predicate Valid()
    {
      forall m :: m in descs && descs[m] == Descriptor(m)
    }

    /** `NewHubExporter(address, timeout)`; the timeout belongs to the HTTP client. */
    constructor (address: string)
      ensures this.address == address
      ensures Valid()
    {
      this.address := address;
      this.descs := map m: MetricId | m in DescribeOrder :: Descriptor(m);
      new;
      DescribeComplete();
    }

    /** The descriptor fields of a list of metrics, in the same order. */
    function Fields(ms: seq<MetricId>): seq<Desc>
      requires forall m :: m in ms ==> m in descs
    {
      seq(|ms|, i requires 0 <= i < |ms| => descs[ms[i]])
    }

    lemma FieldsAppend(a: seq<MetricId>, b: seq<MetricId>)
      requires forall m :: m in a + b ==> m in descs
      ensures Fields(a + b) == Fields(a) + Fields(b)
    {
    }

    /** The fields in `Describe` order split along its five groups. */
    lemma FieldsGroups()
      requires Valid()
      ensures Fields(DescribeOrder) == Fields(DownstreamMetrics) + Fields(UpstreamMetrics)
        + Fields(ServiceFlowMetrics) + Fields(CableMetrics) + Fields(UpMetrics)
    {
      var a := DownstreamMetrics + UpstreamMetrics;
      var b := a + ServiceFlowMetrics;
      var c := b + CableMetrics;
      FieldsAppend(c, UpMetrics);
      FieldsAppend(b, CableMetrics);
      FieldsAppend(a, ServiceFlowMetrics);
      FieldsAppend(DownstreamMetrics, UpstreamMetrics);
    }

    /** With the table filled in, the fields in `Describe` order are the described descriptors. */
    lemma FieldsDescribed()
      requires Valid()
      ensures Fields(DescribeOrder) == Described()
    {
    }

    /**
     * Sends every descriptor once: the downstream, upstream, service-flow
     * and cable-modem groups, then the up gauges.
     */
    method Describe(ch: Channel<Desc>)
      requires Valid()
      modifies ch
      ensures ch.sent == old(ch.sent) + Described()
    {
      DescribeDownstream(ch);
      DescribeUpstream(ch);
      DescribeServiceFlows(ch);
      DescribeCable(ch);
      DescribeUp(ch);
      FieldsGroups();
      FieldsDescribed();
      AppendFive(old(ch.sent), Fields(DownstreamMetrics), Fields(UpstreamMetrics),
                 Fields(ServiceFlowMetrics), Fields(CableMetrics), Fields(UpMetrics));
    }

    /** `Describe`'s sends of the seven downstream channel descriptors. */
    method DescribeDownstream(ch: Channel<Desc>)
      requires forall m :: m in descs
      modifies ch
      ensures ch.sent == old(ch.sent) + Fields(DownstreamMetrics)
    {
      ch.Send(descs[DownstreamPower]);
      ch.Send(descs[DownstreamSnr]);
      ch.Send(descs[DownstreamRxMer]);
      ch.Send(descs[DownstreamCorrected]);
      ch.Send(descs[DownstreamUncorrected]);
      ch.Send(descs[DownstreamLockStatus]);
      ch.Send(descs[DownstreamFrequencyHz]);
    }

    /** `Describe`'s sends of the eight upstream channel descriptors. */
    method DescribeUpstream(ch: Channel<Desc>)
      requires forall m :: m in descs
      modifies ch
      ensures ch.sent == old(ch.sent) + Fields(UpstreamMetrics)
    {
      ch.Send(descs[UpstreamPower]);
      ch.Send(descs[UpstreamSymbolRate]);
      ch.Send(descs[UpstreamLockStatus]);
      ch.Send(descs[UpstreamFrequencyHz]);
      ch.Send(descs[UpstreamT1]);
      ch.Send(descs[UpstreamT2]);
      ch.Send(descs[UpstreamT3]);
      ch.Send(descs[UpstreamT4]);
    }

    /** `Describe`'s sends of the four service-flow descriptors. */
    method DescribeServiceFlows(ch: Channel<Desc>)
      requires forall m :: m in descs
      modifies ch
      ensures ch.sent == old(ch.sent) + Fields(ServiceFlowMetrics)
    {
      ch.Send(descs[ServiceMaxTrafficRate]);
      ch.Send(descs[ServiceMaxTrafficBurst]);
      ch.Send(descs[ServiceMinReservedRate]);
      ch.Send(descs[ServiceMaxConcatBurst]);
    }

    /** `Describe`'s sends of the six cable-modem descriptors (uptime before status). */
    method DescribeCable(ch: Channel<Desc>)
      requires forall m :: m in descs
      modifies ch
      ensures ch.sent == old(ch.sent) + Fields(CableMetrics)
    {
      ch.Send(descs[CableInfo]);
      ch.Send(descs[CableUptimeSeconds]);
      ch.Send(descs[CableStatus]);
      ch.Send(descs[CableAccessAllowed]);
      ch.Send(descs[CableMaxCPEs]);
      ch.Send(descs[CableBaselinePrivacy]);
    }

    /** `Describe`'s sends of the four up-gauge descriptors. */
    method DescribeUp(ch: Channel<Desc>)
      requires forall m :: m in descs
      modifies ch
      ensures ch.sent == old(ch.sent) + Fields(UpMetrics)
    {
      ch.Send(descs[DownstreamUp]);
      ch.Send(descs[UpstreamUp]);
      ch.Send(descs[ServiceFlowsUp]);
      ch.Send(descs[StateUp]);
    }

    function FetchDownstream(device: Device, codecs: Codecs): (r: Result<Downstream, FetchError>)
      ensures r == Fetch(device, address, PathOf(DownstreamResource), codecs.downstream)
      ensures var x := device("http://" + address + "/rest/v1/cablemodem/downstream");
        if x.Response? && StatusAccepted(x.statusCode) && x.body.Some?
        then r == Decode(x.body.value, codecs.downstream) else r.Err?
    {
      Fetch(device, address, "/rest/v1/cablemodem/downstream", codecs.downstream)
    }

    function FetchUpstream(device: Device, codecs: Codecs): (r: Result<Upstream, FetchError>)
      ensures r == Fetch(device, address, PathOf(UpstreamResource), codecs.upstream)
      ensures var x := device("http://" + address + "/rest/v1/cablemodem/upstream");
        if x.Response? && StatusAccepted(x.statusCode) && x.body.Some?
        then r == Decode(x.body.value, codecs.upstream) else r.Err?
    {
      Fetch(device, address, "/rest/v1/cablemodem/upstream", codecs.upstream)
    }

    function FetchServiceFlows(device: Device, codecs: Codecs): (r: Result<ServiceFlows, FetchError>)
      ensures r == Fetch(device, address, PathOf(ServiceFlowsResource), codecs.serviceFlows)
      ensures var x := device("http://" + address + "/rest/v1/cablemodem/serviceflows");
        if x.Response? && StatusAccepted(x.statusCode) && x.body.Some?
        then r == Decode(x.body.value, codecs.serviceFlows) else r.Err?
    {
      Fetch(device, address, "/rest/v1/cablemodem/serviceflows", codecs.serviceFlows)
    }

    function FetchState(device: Device, codecs: Codecs): (r: Result<State, FetchError>)
      ensures r == Fetch(device, address, PathOf(StateResource), codecs.state)
      ensures var x := device("http://" + address + "/rest/v1/cablemodem/state_");
        if x.Response? && StatusAccepted(x.statusCode) && x.body.Some?
        then r == Decode(x.body.value, codecs.state) else r.Err?
    {
      Fetch(device, address, "/rest/v1/cablemodem/state_", codecs.state)
    }

    /** The four fetches of one scrape, in the order `Collect` makes them. */
    function Observe(device: Device, codecs: Codecs): (o: Outcomes)
      ensures forall r :: Succeeded(o, r) ==>
        var x := device(Url(address, PathOf(r)));
        x.Response? && StatusAccepted(x.statusCode) && x.body.Some?
    {
      Outcomes(FetchDownstream(device, codecs), FetchUpstream(device, codecs),
               FetchServiceFlows(device, codecs), FetchState(device, codecs))
    }

    /**
     * Each fetcher requests `http://` + address + its resource's path, and
     * a scrape requests nothing from the device but those four URLs: two
     * devices that answer them alike give the same outcomes.
     */
    lemma ObserveReadsFourUrls(d1: Device, d2: Device, codecs: Codecs)
      requires forall r :: d1(Url(address, PathOf(r))) == d2(Url(address, PathOf(r)))
      ensures Observe(d1, codecs) == Observe(d2, codecs)
    {
      FetchReadsOneUrl(d1, d2, address, PathOf(DownstreamResource), codecs.downstream);
      FetchReadsOneUrl(d1, d2, address, PathOf(UpstreamResource), codecs.upstream);
      FetchReadsOneUrl(d1, d2, address, PathOf(ServiceFlowsResource), codecs.serviceFlows);
      FetchReadsOneUrl(d1, d2, address, PathOf(StateResource), codecs.state);
    }

    /** What the fetchers pass on: success exactly when the device answered 2xx with a decodable body. */
    lemma ObserveSucceeds(device: Device, codecs: Codecs, r: Resource)
      ensures var x := device(Url(address, PathOf(r)));
        Succeeded(Observe(device, codecs), r)
        <==> x.Response? && StatusAccepted(x.statusCode) && x.body.Some?
             && match r
                case DownstreamResource =>
                  codecs.downstream.strict(x.body.value).Some? || codecs.downstream.lenient(x.body.value).Some?
                case UpstreamResource =>
                  codecs.upstream.strict(x.body.value).Some? || codecs.upstream.lenient(x.body.value).Some?
                case ServiceFlowsResource =>
                  codecs.serviceFlows.strict(x.body.value).Some? || codecs.serviceFlows.lenient(x.body.value).Some?
                case StateResource =>
                  codecs.state.strict(x.body.value).Some? || codecs.state.lenient(x.body.value).Some?
    {
    }

    /**
     * One scrape: each resource in turn, its samples if the fetch
     * succeeded, then its up gauge. Sends exactly `Scrape` of the four
     * fetch outcomes.
     */
    method Collect(ch: Channel<Sample>, device: Device, codecs: Codecs)
      modifies ch
      ensures ch.sent == old(ch.sent) + Scrape(Observe(device, codecs))
    {
      ghost var o := Observe(device, codecs);
      var ds := FetchDownstream(device, codecs);
      CollectDownstream(ch, ds, o);
      var us := FetchUpstream(device, codecs);
      CollectUpstream(ch, us, o);
      var sf := FetchServiceFlows(device, codecs);
      CollectServiceFlows(ch, sf, o);
      var st := FetchState(device, codecs);
      CollectState(ch, st, o);
      AppendFour(old(ch.sent), Section(o, DownstreamResource), Section(o, UpstreamResource),
                 Section(o, ServiceFlowsResource), Section(o, StateResource));
    }

    /** `Collect`'s downstream branch, given the outcome of the downstream fetch. */
    method CollectDownstream(ch: Channel<Sample>, ds: Result<Downstream, FetchError>, ghost o: Outcomes)
      requires o.ds == ds
      modifies ch
      ensures ch.sent == old(ch.sent) + Section(o, DownstreamResource)
    {
      var dsUp := 0.0;
      if ds.Ok? {
        dsUp := 1.0;
        var chs := ds.value.downstreamItem.downstreamChannels;
        var i := 0;
        while i < |chs|
          invariant i <= |chs|
          invariant ch.sent == old(ch.sent) + ConcatMap(chs[..i], DownstreamChannelSamples)
        {
          SendDownstreamChannel(ch, chs[i]);
          ConcatMapStep(chs, i, DownstreamChannelSamples);
          i := i + 1;
        }
        assert chs[..i] == chs;
      }
      ch.Send(Sample(DownstreamUp, [], dsUp));
    }

    /** `Collect`'s upstream branch, given the outcome of the upstream fetch. */
    method CollectUpstream(ch: Channel<Sample>, us: Result<Upstream, FetchError>, ghost o: Outcomes)
      requires o.us == us
      modifies ch
      ensures ch.sent == old(ch.sent) + Section(o, UpstreamResource)
    {
      var usUp := 0.0;
      if us.Ok? {
        usUp := 1.0;
        var chs := us.value.upstreamItem.channels;
        var i := 0;
        while i < |chs|
          invariant i <= |chs|
          invariant ch.sent == old(ch.sent) + ConcatMap(chs[..i], UpstreamChannelSamples)
        {
          SendUpstreamChannel(ch, chs[i]);
          ConcatMapStep(chs, i, UpstreamChannelSamples);
          i := i + 1;
        }
        assert chs[..i] == chs;
      }
      ch.Send(Sample(UpstreamUp, [], usUp));
    }

    /** `Collect`'s service-flow branch, given the outcome of the service-flow fetch. */
    method CollectServiceFlows(ch: Channel<Sample>, sf: Result<ServiceFlows, FetchError>, ghost o: Outcomes)
      requires o.sf == sf
      modifies ch
      ensures ch.sent == old(ch.sent) + Section(o, ServiceFlowsResource)
    {
      var sfUp := 0.0;
      if sf.Ok? {
        sfUp := 1.0;
        var fs := sf.value.serviceFlowItem.serviceFlows;
        var i := 0;
        while i < |fs|
          invariant i <= |fs|
          invariant ch.sent == old(ch.sent) + ConcatMap(fs[..i], ServiceFlowSamples)
        {
          SendServiceFlow(ch, fs[i]);
          ConcatMapStep(fs, i, ServiceFlowSamples);
          i := i + 1;
        }
        assert fs[..i] == fs;
      }
      ch.Send(Sample(ServiceFlowsUp, [], sfUp));
    }

    /** `Collect`'s state branch, given the outcome of the state fetch. */
    method CollectState(ch: Channel<Sample>, st: Result<State, FetchError>, ghost o: Outcomes)
      requires o.st == st
      modifies ch
      ensures ch.sent == old(ch.sent) + Section(o, StateResource)
    {
      var stUp := 0.0;
      if st.Ok? {
        stUp := 1.0;
        SendState(ch, st.value);
      }
      ch.Send(Sample(StateUp, [], stUp));
    }

    /** The body of `Collect`'s downstream loop: one channel's seven samples. */
    method SendDownstreamChannel(ch: Channel<Sample>, c: DownstreamChannel)
      modifies ch
      ensures ch.sent == old(ch.sent) + DownstreamChannelSamples(c)
    {
      var labels := [FormatUint(c.channelId), c.channelType, c.modulation];
      ch.Send(Sample(DownstreamPower, labels, c.power));
      ch.Send(Sample(DownstreamSnr, labels, c.snr as real));
      ch.Send(Sample(DownstreamRxMer, labels, c.rxMer as real));
      ch.Send(Sample(DownstreamCorrected, labels, c.correctedErrors as real));
      ch.Send(Sample(DownstreamUncorrected, labels, c.uncorrectedErrors as real));
      var lock := 0.0;
      if c.lockStatus {
        lock := 1.0;
      }
      ch.Send(Sample(DownstreamLockStatus, labels, lock));
      ch.Send(Sample(DownstreamFrequencyHz, labels, c.frequency as real));
    }

    /** The body of `Collect`'s upstream loop: one channel's eight samples. */
    method SendUpstreamChannel(ch: Channel<Sample>, c: UpstreamChannel)
      modifies ch
      ensures ch.sent == old(ch.sent) + UpstreamChannelSamples(c)
    {
      var labels := [FormatUint(c.channelId), c.channelType, c.modulation];
      ch.Send(Sample(UpstreamPower, labels, c.power));
      ch.Send(Sample(UpstreamSymbolRate, labels, c.symbolRate as real));
      var lock := 0.0;
      if c.lockStatus {
        lock := 1.0;
      }
      ch.Send(Sample(UpstreamLockStatus, labels, lock));
      ch.Send(Sample(UpstreamFrequencyHz, labels, c.frequency as real));
      ch.Send(Sample(UpstreamT1, labels, c.t1Timeout as real));
      ch.Send(Sample(UpstreamT2, labels, c.t2Timeout as real));
      ch.Send(Sample(UpstreamT3, labels, c.t3Timeout as real));
      ch.Send(Sample(UpstreamT4, labels, c.t4Timeout as real));
    }

    /** The body of `Collect`'s service-flow loop: one flow's four samples. */
    method SendServiceFlow(ch: Channel<Sample>, s: ServiceFlow)
      modifies ch
      ensures ch.sent == old(ch.sent) + ServiceFlowSamples(s)
    {
      var labels := [FormatUint(s.serviceFlowId), s.direction, s.scheduleType];
      ch.Send(Sample(ServiceMaxTrafficRate, labels, s.maxTrafficRate as real));
      ch.Send(Sample(ServiceMaxTrafficBurst, labels, s.maxTrafficBurst as real));
      ch.Send(Sample(ServiceMinReservedRate, labels, s.minReservedRate as real));
      ch.Send(Sample(ServiceMaxConcatBurst, labels, s.maxConcatenatedBurst as real));
    }

    /** `Collect`'s state branch after a successful fetch: info, status, and the four scalars. */
    method SendState(ch: Channel<Sample>, st: State)
      modifies ch
      ensures ch.sent == old(ch.sent) + StateSamples(st)
    {
      var cm := st.cableModem;
      ch.Send(Sample(CableInfo, [cm.bootFilename, cm.docsisVersion, cm.macAddress, cm.serialNumber], 1.0));
      ch.Send(Sample(CableStatus, [cm.status], 1.0));
      ch.Send(Sample(CableUptimeSeconds, [], cm.upTime as real));
      var access := 0.0;
      if cm.accessAllowed {
        access := 1.0;
      }
      ch.Send(Sample(CableAccessAllowed, [], access));
      ch.Send(Sample(CableMaxCPEs, [], cm.maxCpes as real));
      var privacy := 0.0;
      if cm.baselinePrivacyEnabled {
        privacy := 1.0;
      }
      ch.Send(Sample(CableBaselinePrivacy, [], privacy));
    }
  }
}
