/**
 * What one scrape emits, as a function of the four fetch outcomes: the
 * specification `Collect` is proved against, and the properties of it.
 */
module Translate {
  import opened Wrappers
  import opened Hub6
  import opened Decimal
  import opened Seqs
  import opened Metrics
  import opened DeviceClient

  /** A boolean field as a gauge value. */
  function Gauge(b: bool): (v: real)
    ensures v == 1.0 <==> b
    ensures v == 0.0 <==> !b
  {
    if b then 1.0 else 0.0
  }

  /** Label values of a channel or service flow: decimal id, then two strings. */
  function IdLabels(id: uint64, a: string, b: string): seq<string>
  {
    [FormatUint(id), a, b]
  }

  function DownstreamChannelSamples(c: DownstreamChannel): (out: seq<Sample>)
    ensures |out| == 7
    ensures forall x :: x in out ==> DetailSampleOf(DownstreamResource, x)
  {
    var labels := IdLabels(c.channelId, c.channelType, c.modulation);
    DownstreamGroup();
    [ Sample(DownstreamPower, labels, c.power),
      Sample(DownstreamSnr, labels, c.snr as real),
      Sample(DownstreamRxMer, labels, c.rxMer as real),
      Sample(DownstreamCorrected, labels, c.correctedErrors as real),
      Sample(DownstreamUncorrected, labels, c.uncorrectedErrors as real),
      Sample(DownstreamLockStatus, labels, Gauge(c.lockStatus)),
      Sample(DownstreamFrequencyHz, labels, c.frequency as real) ]
  }

  function UpstreamChannelSamples(c: UpstreamChannel): (out: seq<Sample>)
    ensures |out| == 8
    ensures forall x :: x in out ==> DetailSampleOf(UpstreamResource, x)
  {
    var labels := IdLabels(c.channelId, c.channelType, c.modulation);
    UpstreamGroup();
    [ Sample(UpstreamPower, labels, c.power),
      Sample(UpstreamSymbolRate, labels, c.symbolRate as real),
      Sample(UpstreamLockStatus, labels, Gauge(c.lockStatus)),
      Sample(UpstreamFrequencyHz, labels, c.frequency as real),
      Sample(UpstreamT1, labels, c.t1Timeout as real),
      Sample(UpstreamT2, labels, c.t2Timeout as real),
      Sample(UpstreamT3, labels, c.t3Timeout as real),
      Sample(UpstreamT4, labels, c.t4Timeout as real) ]
  }

  function ServiceFlowSamples(s: ServiceFlow): (out: seq<Sample>)
    ensures |out| == 4
    ensures forall x :: x in out ==> DetailSampleOf(ServiceFlowsResource, x)
  {
    var labels := IdLabels(s.serviceFlowId, s.direction, s.scheduleType);
    ServiceFlowGroup();
    [ Sample(ServiceMaxTrafficRate, labels, s.maxTrafficRate as real),
      Sample(ServiceMaxTrafficBurst, labels, s.maxTrafficBurst as real),
      Sample(ServiceMinReservedRate, labels, s.minReservedRate as real),
      Sample(ServiceMaxConcatBurst, labels, s.maxConcatenatedBurst as real) ]
  }

  function StateSamples(st: State): (out: seq<Sample>)
    ensures |out| == 6
    ensures forall x :: x in out ==> DetailSampleOf(StateResource, x)
  {
    var cm := st.cableModem;
    CableGroup();
    [ Sample(CableInfo, [cm.bootFilename, cm.docsisVersion, cm.macAddress, cm.serialNumber], 1.0),
      Sample(CableStatus, [cm.status], 1.0),
      Sample(CableUptimeSeconds, [], cm.upTime as real),
      Sample(CableAccessAllowed, [], Gauge(cm.accessAllowed)),
      Sample(CableMaxCPEs, [], cm.maxCpes as real),
      Sample(CableBaselinePrivacy, [], Gauge(cm.baselinePrivacyEnabled)) ]
  }

  function DownstreamDetail(ds: Downstream): seq<Sample>
  {
    ConcatMap(ds.downstreamItem.downstreamChannels, DownstreamChannelSamples)
  }

  function UpstreamDetail(us: Upstream): seq<Sample>
  {
    ConcatMap(us.upstreamItem.channels, UpstreamChannelSamples)
  }

  function ServiceFlowDetail(sf: ServiceFlows): seq<Sample>
  {
    ConcatMap(sf.serviceFlowItem.serviceFlows, ServiceFlowSamples)
  }

  /** The four fetch outcomes of one scrape. */
  datatype Outcomes = Outcomes(
    ds: Result<Downstream, FetchError>,
    us: Result<Upstream, FetchError>,
    sf: Result<ServiceFlows, FetchError>,
    st: Result<State, FetchError>)

  /** Did the fetch of resource r succeed? */
  function Succeeded(o: Outcomes, r: Resource): bool
  {
    match r
    case DownstreamResource => o.ds.Ok?
    case UpstreamResource => o.us.Ok?
    case ServiceFlowsResource => o.sf.Ok?
    case StateResource => o.st.Ok?
  }

  /** The detail samples of resource r: none when its fetch failed. */
  function Detail(o: Outcomes, r: Resource): (out: seq<Sample>)
    ensures !Succeeded(o, r) ==> out == []
    ensures Succeeded(o, r) && r == StateResource ==> |out| == 6
  {
    match r
    case DownstreamResource => if o.ds.Ok? then DownstreamDetail(o.ds.value) else []
    case UpstreamResource => if o.us.Ok? then UpstreamDetail(o.us.value) else []
    case ServiceFlowsResource => if o.sf.Ok? then ServiceFlowDetail(o.sf.value) else []
    case StateResource => if o.st.Ok? then StateSamples(o.st.value) else []
  }

  function UpSample(o: Outcomes, r: Resource): Sample
  {
    Sample(UpMetric(r), [], Gauge(Succeeded(o, r)))
  }

  /** One resource's branch of `Collect`: its detail samples, then its up gauge. */
  function Section(o: Outcomes, r: Resource): (out: seq<Sample>)
    ensures |out| == |Detail(o, r)| + 1
    ensures out[|out| - 1] == Sample(UpMetric(r), [], if Succeeded(o, r) then 1.0 else 0.0)
  {
    Detail(o, r) + [UpSample(o, r)]
  }

  /**
   * Everything one `Collect` sends, in order: at least the four up gauges,
   * and the state gauge last.
   */
  function Scrape(o: Outcomes): (out: seq<Sample>)
    ensures |out| >= 4
    ensures out[|out| - 1] == Sample(StateUp, [], if Succeeded(o, StateResource) then 1.0 else 0.0)
  {
    Section(o, DownstreamResource) + Section(o, UpstreamResource)
    + Section(o, ServiceFlowsResource) + Section(o, StateResource)
  }

  /** Number of records a successful fetch returned (0 on failure). */
  function RecordCount(o: Outcomes, r: Resource): nat
  {
    match r
    case DownstreamResource => if o.ds.Ok? then |o.ds.value.downstreamItem.downstreamChannels| else 0
    case UpstreamResource => if o.us.Ok? then |o.us.value.upstreamItem.channels| else 0
    case ServiceFlowsResource => if o.sf.Ok? then |o.sf.value.serviceFlowItem.serviceFlows| else 0
    case StateResource => if o.st.Ok? then 1 else 0
  }

  /** Samples per record of each resource. */
  function SamplesPerRecord(r: Resource): nat
  {
    match r
    case DownstreamResource => 7
    case UpstreamResource => 8
    case ServiceFlowsResource => 4
    case StateResource => 6
  }

  function SampleResource(s: Sample): Resource { ResourceOf(s.metric) }

  function SampleIsUp(s: Sample): bool { IsUp(s.metric) }

  /** The label values match the descriptor's label names (else MustNewConstMetric panics). */
  predicate WellFormed(s: Sample) { |s.labelValues| == |VariableLabels(s.metric)| }

  /** A detail sample of resource r that can be sent without a panic. */
  predicate DetailSampleOf(r: Resource, s: Sample)
  {
    SampleResource(s) == r && !SampleIsUp(s) && WellFormed(s)
  }

  // ---------------------------------------------------------------------
  // One record's samples

  /**
   * A downstream channel yields 7 samples, one per downstream descriptor in
   * `Describe` order, each carrying the matching field of the channel and
   * all labelled with the decimal channel id, the channel type and the
   * modulation; the lock-status sample is 1 exactly when the channel is
   * locked.
   */
  lemma DownstreamChannelLayout(c: DownstreamChannel)
    ensures var out := DownstreamChannelSamples(c);
      && |out| == 7
      && (forall k :: 0 <= k < 7 ==> out[k].metric == DescribeOrder[k])
      && (forall k :: 0 <= k < 7 ==> out[k].labelValues == [FormatUint(c.channelId), c.channelType, c.modulation])
      && out[0].value == c.power && out[1].value == c.snr as real && out[2].value == c.rxMer as real
      && out[3].value == c.correctedErrors as real && out[4].value == c.uncorrectedErrors as real
      && (out[5].value == 1.0 <==> c.lockStatus) && (out[5].value == 0.0 <==> !c.lockStatus)
      && out[6].value == c.frequency as real
      && ParseUint(out[0].labelValues[0]) == c.channelId
  {
    DownstreamChannelValues(c);
    DownstreamChannelLabels(c);
    ParseFormat(c.channelId);
  }

  /** The downstream samples follow `Describe` order and all carry the channel's labels. */
  lemma DownstreamChannelLabels(c: DownstreamChannel)
    ensures var out := DownstreamChannelSamples(c);
      && (forall k :: 0 <= k < 7 ==> out[k].metric == DescribeOrder[k])
      && (forall k :: 0 <= k < 7 ==> out[k].labelValues == [FormatUint(c.channelId), c.channelType, c.modulation])
  {
  }

  /** Each downstream sample carries the channel field its descriptor names. */
  lemma DownstreamChannelValues(c: DownstreamChannel)
    ensures var out := DownstreamChannelSamples(c);
      && out[0].value == c.power && out[1].value == c.snr as real && out[2].value == c.rxMer as real
      && out[3].value == c.correctedErrors as real && out[4].value == c.uncorrectedErrors as real
      && (out[5].value == 1.0 <==> c.lockStatus) && (out[5].value == 0.0 <==> !c.lockStatus)
      && out[6].value == c.frequency as real
  {
  }

  /**
   * An upstream channel yields 8 samples, one per upstream descriptor in
   * `Describe` order, each carrying the matching field of the channel and
   * all labelled with the decimal channel id, the channel
   * type and the modulation; the lock-status sample is 1 exactly when the
   * channel is locked.
   */
  lemma UpstreamChannelLayout(c: UpstreamChannel)
    ensures var out := UpstreamChannelSamples(c);
      && |out| == 8
      && (forall k :: 0 <= k < 8 ==> out[k].metric == DescribeOrder[7 + k])
      && (forall k :: 0 <= k < 8 ==> out[k].labelValues == [FormatUint(c.channelId), c.channelType, c.modulation])
      && out[0].value == c.power && out[1].value == c.symbolRate as real
      && (out[2].value == 1.0 <==> c.lockStatus) && (out[2].value == 0.0 <==> !c.lockStatus)
      && out[3].value == c.frequency as real
      && out[4].value == c.t1Timeout as real && out[5].value == c.t2Timeout as real
      && out[6].value == c.t3Timeout as real && out[7].value == c.t4Timeout as real
      && ParseUint(out[0].labelValues[0]) == c.channelId
  {
    UpstreamChannelValues(c);
    UpstreamChannelLabels(c);
    ParseFormat(c.channelId);
  }

  /** The upstream samples follow `Describe` order and all carry the channel's labels. */
  lemma UpstreamChannelLabels(c: UpstreamChannel)
    ensures var out := UpstreamChannelSamples(c);
      && (forall k :: 0 <= k < 8 ==> out[k].metric == DescribeOrder[7 + k])
      && (forall k :: 0 <= k < 8 ==> out[k].labelValues == [FormatUint(c.channelId), c.channelType, c.modulation])
  {
  }

  /** Each upstream sample carries the channel field its descriptor names. */
  lemma UpstreamChannelValues(c: UpstreamChannel)
    ensures var out := UpstreamChannelSamples(c);
      && out[0].value == c.power && out[1].value == c.symbolRate as real
      && (out[2].value == 1.0 <==> c.lockStatus) && (out[2].value == 0.0 <==> !c.lockStatus)
      && out[3].value == c.frequency as real
      && out[4].value == c.t1Timeout as real && out[5].value == c.t2Timeout as real
      && out[6].value == c.t3Timeout as real && out[7].value == c.t4Timeout as real
  {
  }

  /**
   * A service flow yields 4 samples, one per service-flow descriptor in
   * `Describe` order, each carrying the matching field of the flow and all
   * labelled with the decimal flow id, the direction
   * and the schedule type.
   */
  lemma ServiceFlowLayout(f: ServiceFlow)
    ensures var out := ServiceFlowSamples(f);
      && |out| == 4
      && (forall k :: 0 <= k < 4 ==> out[k].metric == DescribeOrder[15 + k])
      && (forall k :: 0 <= k < 4 ==> out[k].labelValues == [FormatUint(f.serviceFlowId), f.direction, f.scheduleType])
      && out[0].value == f.maxTrafficRate as real && out[1].value == f.maxTrafficBurst as real
      && out[2].value == f.minReservedRate as real && out[3].value == f.maxConcatenatedBurst as real
      && ParseUint(out[0].labelValues[0]) == f.serviceFlowId
  {
    ParseFormat(f.serviceFlowId);
  }

  /**
   * A successful state fetch yields 6 samples: the six cable descriptors of
   * `Describe`, except that status comes before uptime. Info and status
   * carry the identity and status strings as labels and the value 1; the
   * other four take no labels and carry the uptime, the access flag, the
   * maximum CPE count and the privacy flag, the booleans as 1 or 0.
   */
  lemma StateLayout(st: State)
    ensures var out := StateSamples(st); var cm := st.cableModem; var d := DescribeOrder[19..25];
      && |out| == 6
      && [out[0].metric, out[1].metric, out[2].metric, out[3].metric, out[4].metric, out[5].metric]
         == [d[0], d[2], d[1], d[3], d[4], d[5]]
      && out[0].labelValues == [cm.bootFilename, cm.docsisVersion, cm.macAddress, cm.serialNumber]
      && out[1].labelValues == [cm.status]
      && out[0].value == 1.0 && out[1].value == 1.0
      && out[2].value == cm.upTime as real && out[4].value == cm.maxCpes as real
      && (forall k :: 2 <= k < 6 ==> out[k].labelValues == [])
      && (out[3].value == 1.0 <==> cm.accessAllowed) && (out[3].value == 0.0 <==> !cm.accessAllowed)
      && (out[5].value == 1.0 <==> cm.baselinePrivacyEnabled)
      && (out[5].value == 0.0 <==> !cm.baselinePrivacyEnabled)
  {
  }

  // ---------------------------------------------------------------------
  // One resource's block

  /** The i-th downstream channel's 7 samples sit at [7i, 7i + 7) of the downstream block. */
  lemma DownstreamBlock(ds: Downstream, i: nat)
    requires i < |ds.downstreamItem.downstreamChannels|
    ensures var out := DownstreamDetail(ds); var chs := ds.downstreamItem.downstreamChannels;
      |out| == 7 * |chs| && out[7 * i .. 7 * i + 7] == DownstreamChannelSamples(chs[i])
  {
    var chs := ds.downstreamItem.downstreamChannels;
    ConcatMapBlock(chs, DownstreamChannelSamples, 7, i);
  }

  /** The i-th upstream channel's 8 samples sit at [8i, 8i + 8) of the upstream block. */
  lemma UpstreamBlock(us: Upstream, i: nat)
    requires i < |us.upstreamItem.channels|
    ensures var out := UpstreamDetail(us); var chs := us.upstreamItem.channels;
      |out| == 8 * |chs| && out[8 * i .. 8 * i + 8] == UpstreamChannelSamples(chs[i])
  {
    var chs := us.upstreamItem.channels;
    ConcatMapBlock(chs, UpstreamChannelSamples, 8, i);
  }

  /** The i-th service flow's 4 samples sit at [4i, 4i + 4) of the service-flow block. */
  lemma ServiceFlowBlock(sf: ServiceFlows, i: nat)
    requires i < |sf.serviceFlowItem.serviceFlows|
    ensures var out := ServiceFlowDetail(sf); var fs := sf.serviceFlowItem.serviceFlows;
      |out| == 4 * |fs| && out[4 * i .. 4 * i + 4] == ServiceFlowSamples(fs[i])
  {
    var fs := sf.serviceFlowItem.serviceFlows;
    ConcatMapBlock(fs, ServiceFlowSamples, 4, i);
  }

  /**
   * A resource's detail block has a fixed number of samples per record,
   * and each of them is a well-formed detail sample of that resource.
   */
  lemma DetailShape(o: Outcomes, r: Resource)
    ensures |Detail(o, r)| == SamplesPerRecord(r) * RecordCount(o, r)
    ensures forall x :: x in Detail(o, r) ==> DetailSampleOf(r, x)
  {
    match r
    case DownstreamResource =>
      if o.ds.Ok? {
        var chs := o.ds.value.downstreamItem.downstreamChannels;
        ConcatMapUniformLength(chs, DownstreamChannelSamples, 7);
        ConcatMapAll(chs, DownstreamChannelSamples, x => DetailSampleOf(r, x));
      }
    case UpstreamResource =>
      if o.us.Ok? {
        var chs := o.us.value.upstreamItem.channels;
        ConcatMapUniformLength(chs, UpstreamChannelSamples, 8);
        ConcatMapAll(chs, UpstreamChannelSamples, x => DetailSampleOf(r, x));
      }
    case ServiceFlowsResource =>
      if o.sf.Ok? {
        var fs := o.sf.value.serviceFlowItem.serviceFlows;
        ConcatMapUniformLength(fs, ServiceFlowSamples, 4);
        ConcatMapAll(fs, ServiceFlowSamples, x => DetailSampleOf(r, x));
      }
    case StateResource =>

  }

  // ---------------------------------------------------------------------
  // The whole scrape

  /** A resource's section: its detail block then its up gauge, all of them its own and well formed. */
  lemma SectionShape(o: Outcomes, r: Resource)
    ensures |Section(o, r)| == SamplesPerRecord(r) * RecordCount(o, r) + 1
    ensures Section(o, r)[|Section(o, r)| - 1] == UpSample(o, r)
    ensures forall x :: x in Section(o, r) ==> SampleResource(x) == r && WellFormed(x)
  {
    DetailShape(o, r);
    UpGroup();
    assert UpMetrics[ResourceIndex(r)] == UpMetric(r);
  }

  /**
   * One scrape sends 7 samples per downstream channel, 8 per upstream
   * channel, 4 per service flow, 6 for a successful state fetch, and the
   * four up gauges, whatever failed.
   */
  lemma ScrapeLength(o: Outcomes)
    ensures |Scrape(o)| == 4 + 7 * RecordCount(o, DownstreamResource) + 8 * RecordCount(o, UpstreamResource)
                         + 4 * RecordCount(o, ServiceFlowsResource) + 6 * RecordCount(o, StateResource)
  {
    SectionShape(o, DownstreamResource);
    SectionShape(o, UpstreamResource);
    SectionShape(o, ServiceFlowsResource);
    SectionShape(o, StateResource);
  }

  /** Picking resource r's samples out of one section gives the whole section or nothing. */
  lemma SelectSection(o: Outcomes, r: Resource, q: Resource)
    ensures Select(Section(o, q), SampleResource, r) == if q == r then Section(o, r) else []
  {
    SectionShape(o, q);
    if q == r {
      SelectAll(Section(o, q), SampleResource, r);
    } else {
      SelectNone(Section(o, q), SampleResource, r);
    }
  }

  /**
   * The samples of resource r in a scrape are exactly r's section, in the
   * order it was sent: the other sections contribute none of them.
   */
  lemma ScrapeByResource(o: Outcomes, r: Resource)
    ensures Select(Scrape(o), SampleResource, r) == Section(o, r)
  {
    var a := Section(o, DownstreamResource);
    var b := Section(o, UpstreamResource);
    var c := Section(o, ServiceFlowsResource);
    var d := Section(o, StateResource);
    SelectAppend4(a, b, c, d, SampleResource, r);
    SelectSection(o, r, DownstreamResource);
    SelectSection(o, r, UpstreamResource);
    SelectSection(o, r, ServiceFlowsResource);
    SelectSection(o, r, StateResource);
    OneOfFour(Select(a, SampleResource, r), Select(b, SampleResource, r),
              Select(c, SampleResource, r), Select(d, SampleResource, r), Section(o, r));
  }

  /**
   * A failed fetch hides the resource: its only sample is its up gauge at
   * 0, and conversely a resource reported by nothing but a 0 up gauge is
   * one whose fetch failed.
   */
  lemma FailureWithheld(o: Outcomes, r: Resource)
    ensures Select(Scrape(o), SampleResource, r) == [Sample(UpMetric(r), [], 0.0)] <==> !Succeeded(o, r)
  {
    ScrapeByResource(o, r);
    if Section(o, r) == [Sample(UpMetric(r), [], 0.0)] {
      assert Section(o, r)[|Section(o, r)| - 1] == UpSample(o, r);
    }
  }

  /**
   * A successful fetch is reported in full: every record's samples in
   * order, then an up gauge of 1.
   */
  lemma SuccessReported(o: Outcomes, r: Resource)
    requires Succeeded(o, r)
    ensures Select(Scrape(o), SampleResource, r) == Detail(o, r) + [Sample(UpMetric(r), [], 1.0)]
    ensures |Detail(o, r)| == SamplesPerRecord(r) * RecordCount(o, r)
  {
    ScrapeByResource(o, r);
    DetailShape(o, r);
  }

  /** Two scrapes agree on resource r's fetch. */
  predicate SameFetch(o1: Outcomes, o2: Outcomes, r: Resource)
  {
    match r
    case DownstreamResource => o1.ds == o2.ds
    case UpstreamResource => o1.us == o2.us
    case ServiceFlowsResource => o1.sf == o2.sf
    case StateResource => o1.st == o2.st
  }

  /**
   * The fetches are independent: what a scrape reports about resource r
   * depends on r's fetch alone, so a failure elsewhere changes nothing.
   */
  lemma Isolation(o1: Outcomes, o2: Outcomes, r: Resource)
    requires SameFetch(o1, o2, r)
    ensures Select(Scrape(o1), SampleResource, r) == Select(Scrape(o2), SampleResource, r)
  {
    ScrapeByResource(o1, r);
    ScrapeByResource(o2, r);
  }

  /** The up gauge of a section is its only up sample. */
  lemma SectionUpSamples(o: Outcomes, r: Resource)
    ensures Select(Section(o, r), SampleIsUp, true) == [UpSample(o, r)]
  {
    DetailShape(o, r);
    SelectAppend(Detail(o, r), [UpSample(o, r)], SampleIsUp, true);
    SelectNone(Detail(o, r), SampleIsUp, true);
    SelectAll([UpSample(o, r)], SampleIsUp, true);
  }

  /**
   * Every scrape sends the four up gauges, in resource order, and no other
   * sample is an up gauge.
   */
  lemma ScrapeUpSamples(o: Outcomes)
    ensures Select(Scrape(o), SampleIsUp, true)
         == [UpSample(o, DownstreamResource), UpSample(o, UpstreamResource),
             UpSample(o, ServiceFlowsResource), UpSample(o, StateResource)]
  {
    SelectAppend4(Section(o, DownstreamResource), Section(o, UpstreamResource),
                  Section(o, ServiceFlowsResource), Section(o, StateResource), SampleIsUp, true);
    SectionUpSamples(o, DownstreamResource);
    SectionUpSamples(o, UpstreamResource);
    SectionUpSamples(o, ServiceFlowsResource);
    SectionUpSamples(o, StateResource);
    var w, x, y, z := UpSample(o, DownstreamResource), UpSample(o, UpstreamResource),
                      UpSample(o, ServiceFlowsResource), UpSample(o, StateResource);
    Singletons(w, x, y, z);
  }

  /** An up gauge is unlabelled and is 1 exactly when its resource's fetch succeeded. */
  lemma UpGaugeValue(o: Outcomes, r: Resource)
    ensures UpSample(o, r).metric == UpMetric(r) && UpSample(o, r).labelValues == []
    ensures UpSample(o, r).value == 1.0 <==> Succeeded(o, r)
    ensures UpSample(o, r).value == 0.0 <==> !Succeeded(o, r)
  {
  }

  /**
   * Where the up gauges sit: each closes its section, so the downstream
   * one follows the downstream block, and so on; the state one is last.
   */
  lemma UpPositions(o: Outcomes)
    ensures var n1 := 7 * RecordCount(o, DownstreamResource);
      var n2 := n1 + 1 + 8 * RecordCount(o, UpstreamResource);
      var n3 := n2 + 1 + 4 * RecordCount(o, ServiceFlowsResource);
      n3 < |Scrape(o)|
      && Scrape(o)[n1] == UpSample(o, DownstreamResource)
      && Scrape(o)[n2] == UpSample(o, UpstreamResource)
      && Scrape(o)[n3] == UpSample(o, ServiceFlowsResource)
      && Scrape(o)[|Scrape(o)| - 1] == UpSample(o, StateResource)
  {
    var a := Section(o, DownstreamResource);
    var b := Section(o, UpstreamResource);
    var c := Section(o, ServiceFlowsResource);
    var d := Section(o, StateResource);
    SectionShape(o, DownstreamResource);
    SectionShape(o, UpstreamResource);
    SectionShape(o, ServiceFlowsResource);
    SectionShape(o, StateResource);
    assert Scrape(o) == a + (b + (c + d));
  }

  /**
   * Every sample of a scrape is of a described metric and carries as many
   * label values as its descriptor has label names, so none panics.
   */
  lemma ScrapeWellFormed(o: Outcomes)
    ensures forall x :: x in Scrape(o) ==> WellFormed(x) && x.metric in DescribeOrder
  {
    DescribeComplete();
    SectionShape(o, DownstreamResource);
    SectionShape(o, UpstreamResource);
    SectionShape(o, ServiceFlowsResource);
    SectionShape(o, StateResource);
  }

  // ---------------------------------------------------------------------
  // Two scrapes worked out

  /** A scrape in which every fetch failed sends four up gauges at 0 and nothing else. */
  lemma AllFailed(o: Outcomes)
    requires o.ds.Err? && o.us.Err? && o.sf.Err? && o.st.Err?
    ensures Scrape(o) == [Sample(DownstreamUp, [], 0.0), Sample(UpstreamUp, [], 0.0),
                          Sample(ServiceFlowsUp, [], 0.0), Sample(StateUp, [], 0.0)]
  {
  }

  /**
   * One locked 256-QAM downstream channel and nothing else answering: seven
   * samples labelled "1", "sc_qam", "256qam", the downstream up gauge at 1,
   * then the three other up gauges at 0.
   */
  lemma OneDownstreamChannel(e: FetchError)
    ensures var c := DownstreamChannel("sc_qam", 1, 650000000, 4.2, "256qam", 38, 40, 7, 0, true);
      var o := Outcomes(Ok(Downstream(DownstreamItem([c]))), Err(e), Err(e), Err(e));
      var labels := ["1", "sc_qam", "256qam"];
      Scrape(o) == [
        Sample(DownstreamPower, labels, 4.2),
        Sample(DownstreamSnr, labels, 38.0),
        Sample(DownstreamRxMer, labels, 40.0),
        Sample(DownstreamCorrected, labels, 7.0),
        Sample(DownstreamUncorrected, labels, 0.0),
        Sample(DownstreamLockStatus, labels, 1.0),
        Sample(DownstreamFrequencyHz, labels, 650000000.0),
        Sample(DownstreamUp, [], 1.0),
        Sample(UpstreamUp, [], 0.0),
        Sample(ServiceFlowsUp, [], 0.0),
        Sample(StateUp, [], 0.0)]
  {
    var c := DownstreamChannel("sc_qam", 1, 650000000, 4.2, "256qam", 38, 40, 7, 0, true);
    var o := Outcomes(Ok(Downstream(DownstreamItem([c]))), Err(e), Err(e), Err(e));
    assert FormatUint(1) == "1";
    assert DownstreamDetail(o.ds.value) == DownstreamChannelSamples(c) by {
      assert [c] == [] + [c];
      ConcatMapSnoc([], c, DownstreamChannelSamples);
    }
    var rest := [Sample(UpstreamUp, [], 0.0), Sample(ServiceFlowsUp, [], 0.0), Sample(StateUp, [], 0.0)];
    assert Section(o, UpstreamResource) + Section(o, ServiceFlowsResource) + Section(o, StateResource) == rest;
    assert Scrape(o) == Section(o, DownstreamResource)
      + (Section(o, UpstreamResource) + Section(o, ServiceFlowsResource) + Section(o, StateResource));
  }
}
