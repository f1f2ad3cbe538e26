/**
 * The exporter's metric descriptors (the table `NewHubExporter` builds),
 * the order `Describe` sends them in, and the samples `Collect` emits.
 */
module Metrics {
  import opened Hub6

  /** One identity per descriptor field of the exporter. */
  datatype MetricId =
    | DownstreamPower | DownstreamSnr | DownstreamRxMer | DownstreamCorrected
    | DownstreamUncorrected | DownstreamLockStatus | DownstreamFrequencyHz
    | UpstreamPower | UpstreamSymbolRate | UpstreamLockStatus | UpstreamFrequencyHz
    | UpstreamT1 | UpstreamT2 | UpstreamT3 | UpstreamT4
    | ServiceMaxTrafficRate | ServiceMaxTrafficBurst | ServiceMinReservedRate | ServiceMaxConcatBurst
    | CableInfo | CableStatus | CableUptimeSeconds | CableAccessAllowed | CableMaxCPEs | CableBaselinePrivacy
    | DownstreamUp | UpstreamUp | ServiceFlowsUp | StateUp

  /** A Prometheus descriptor: fully-qualified name, help text, variable label names. */
  datatype Desc = Desc(fqName: string, help: string, variableLabels: seq<string>)

  /** A constant gauge sample: its descriptor's identity, label values and value. */
  datatype Sample = Sample(metric: MetricId, labelValues: seq<string>, value: real)

  const Prefix := "virginmedia_hub6_"

  /** A character Prometheus allows anywhere in a label name. */
  predicate LabelChar(c: char) { 'a' <= c <= 'z' || 'A' <= c <= 'Z' || '0' <= c <= '9' || c == '_' }

  /**
   * Prometheus label-name syntax, `[a-zA-Z_][a-zA-Z0-9_]*`, without the
   * reserved `__` prefix.
   */
  predicate ValidLabelName(s: string)
  {
    && |s| > 0 && !('0' <= s[0] <= '9') && (forall i :: 0 <= i < |s| ==> LabelChar(s[i]))
    && !(|s| >= 2 && s[0] == '_' && s[1] == '_')
  }

  /** The label-name lists `NewHubExporter` passes to its descriptors. */
  datatype LabelSchema = DownstreamLabels | UpstreamLabels | ServiceFlowLabels | InfoLabels | StatusLabels | Unlabelled

  /** No list names a label twice, which `prometheus.NewDesc` would reject. */
  function SchemaLabels(k: LabelSchema): (ls: seq<string>)
    ensures forall i, j :: 0 <= i < j < |ls| ==> ls[i] != ls[j]
  {
    match k
    case DownstreamLabels => ["channel_id", "channel_type", "modulation"]
    case UpstreamLabels => ["channel_id", "channel_type", "modulation"]
    case ServiceFlowLabels => ["serviceflow_id", "direction", "schedule_type"]
    case InfoLabels => ["boot_filename", "docsis_version", "mac_address", "serial_number"]
    case StatusLabels => ["status"]
    case Unlabelled => []
  }

  /** Every label name `NewHubExporter` uses is one `prometheus.NewDesc` accepts. */
  lemma LabelNamesValid(k: LabelSchema)
    ensures forall i :: 0 <= i < |SchemaLabels(k)| ==> ValidLabelName(SchemaLabels(k)[i])
  {
    match k
    case DownstreamLabels => ChannelLabelNamesValid();
    case UpstreamLabels => ChannelLabelNamesValid();
    case ServiceFlowLabels => ServiceFlowLabelNamesValid();
    case InfoLabels => InfoLabelNamesValid();
    case StatusLabels => assert ValidLabelName("status");
    case Unlabelled =>
  }

  lemma ChannelLabelNamesValid()
    ensures ValidLabelName("channel_id") && ValidLabelName("channel_type") && ValidLabelName("modulation")
  {
  }

  lemma ServiceFlowLabelNamesValid()
    ensures ValidLabelName("serviceflow_id") && ValidLabelName("direction") && ValidLabelName("schedule_type")
  {
  }

  lemma InfoLabelNamesValid()
    ensures ValidLabelName("boot_filename") && ValidLabelName("docsis_version")
    ensures ValidLabelName("mac_address") && ValidLabelName("serial_number")
  {
  }

  /**
   * The descriptor table built by `NewHubExporter`, one column at a time:
   * the name after the product prefix, the help text, the label names.
   */
  function NameSuffix(m: MetricId): string
  {
    match m
    case DownstreamPower => "downstream_power_dbmv"
    case DownstreamSnr => "downstream_snr_db"
    case DownstreamRxMer => "downstream_rxmer_db"
    case DownstreamCorrected => "downstream_corrected_errors"
    case DownstreamUncorrected => "downstream_uncorrected_errors"
    case DownstreamLockStatus => "downstream_lock_status"
    case DownstreamFrequencyHz => "downstream_frequency_hertz"
    case UpstreamPower => "upstream_power_dbmv"
    case UpstreamSymbolRate => "upstream_symbol_rate_ksps"
    case UpstreamLockStatus => "upstream_lock_status"
    case UpstreamFrequencyHz => "upstream_frequency_hertz"
    case UpstreamT1 => "upstream_t1_timeouts"
    case UpstreamT2 => "upstream_t2_timeouts"
    case UpstreamT3 => "upstream_t3_timeouts"
    case UpstreamT4 => "upstream_t4_timeouts"
    case ServiceMaxTrafficRate => "serviceflow_max_traffic_rate_bps"
    case ServiceMaxTrafficBurst => "serviceflow_max_traffic_burst_bytes"
    case ServiceMinReservedRate => "serviceflow_min_reserved_rate_bps"
    case ServiceMaxConcatBurst => "serviceflow_max_concatenated_burst_bytes"
    case CableInfo => "info"
    case CableStatus => "status"
    case CableUptimeSeconds => "uptime_seconds"
    case CableAccessAllowed => "access_allowed"
    case CableMaxCPEs => "max_cpes"
    case CableBaselinePrivacy => "baseline_privacy_enabled"
    case DownstreamUp => "downstream_up"
    case UpstreamUp => "upstream_up"
    case ServiceFlowsUp => "serviceflows_up"
    case StateUp => "state_up"
  }

  function HelpText(m: MetricId): string
  {
    match m
    case DownstreamPower => "Downstream channel power in dBmV"
    case DownstreamSnr => "Downstream channel SNR in dB"
    case DownstreamRxMer => "Downstream channel RxMER in dB"
    case DownstreamCorrected => "Downstream channel corrected RS errors"
    case DownstreamUncorrected => "Downstream channel uncorrected RS errors"
    case DownstreamLockStatus => "Downstream channel lock status (1 = locked, 0 = unlocked)"
    case DownstreamFrequencyHz => "Downstream channel frequency in Hz"
    case UpstreamPower => "Upstream channel power in dBmV"
    case UpstreamSymbolRate => "Upstream channel symbol rate in ksps"
    case UpstreamLockStatus => "Upstream channel lock status (1 = locked, 0 = unlocked)"
    case UpstreamFrequencyHz => "Upstream channel frequency in Hz"
    case UpstreamT1 => "Upstream channel T1 timeouts"
    case UpstreamT2 => "Upstream channel T2 timeouts"
    case UpstreamT3 => "Upstream channel T3 timeouts"
    case UpstreamT4 => "Upstream channel T4 timeouts"
    case ServiceMaxTrafficRate => "ServiceFlow max traffic rate in bps"
    case ServiceMaxTrafficBurst => "ServiceFlow max traffic burst in bytes"
    case ServiceMinReservedRate => "ServiceFlow min reserved rate in bps"
    case ServiceMaxConcatBurst => "ServiceFlow max concatenated burst in bytes"
    case CableInfo => "Cable modem info labels (value is always 1)"
    case CableStatus => "Cable modem status (value 1 with status label)"
    case CableUptimeSeconds => "Cable modem uptime in seconds"
    case CableAccessAllowed => "Cable modem access allowed (1 = allowed, 0 = not allowed)"
    case CableMaxCPEs => "Cable modem maximum CPEs"
    case CableBaselinePrivacy => "Cable modem baseline privacy enabled (1 = enabled, 0 = disabled)"
    case DownstreamUp => "Whether the downstream endpoint was scraped successfully (1 = up, 0 = down)"
    case UpstreamUp => "Whether the upstream endpoint was scraped successfully (1 = up, 0 = down)"
    case ServiceFlowsUp => "Whether the serviceflows endpoint was scraped successfully (1 = up, 0 = down)"
    case StateUp => "Whether the state endpoint was scraped successfully (1 = up, 0 = down)"
  }

  /**
   * Only info and status take identity or status labels; the up gauges and
   * the four scalar cable-modem metrics take none.
   */
  function Schema(m: MetricId): (k: LabelSchema)
    ensures k == InfoLabels <==> m == CableInfo
    ensures k == StatusLabels <==> m == CableStatus
    ensures k == Unlabelled
        <==> (IsUp(m) || m == CableUptimeSeconds || m == CableAccessAllowed
              || m == CableMaxCPEs || m == CableBaselinePrivacy)
  {
    match m
    case DownstreamPower => DownstreamLabels
    case DownstreamSnr => DownstreamLabels
    case DownstreamRxMer => DownstreamLabels
    case DownstreamCorrected => DownstreamLabels
    case DownstreamUncorrected => DownstreamLabels
    case DownstreamLockStatus => DownstreamLabels
    case DownstreamFrequencyHz => DownstreamLabels
    case UpstreamPower => UpstreamLabels
    case UpstreamSymbolRate => UpstreamLabels
    case UpstreamLockStatus => UpstreamLabels
    case UpstreamFrequencyHz => UpstreamLabels
    case UpstreamT1 => UpstreamLabels
    case UpstreamT2 => UpstreamLabels
    case UpstreamT3 => UpstreamLabels
    case UpstreamT4 => UpstreamLabels
    case ServiceMaxTrafficRate => ServiceFlowLabels
    case ServiceMaxTrafficBurst => ServiceFlowLabels
    case ServiceMinReservedRate => ServiceFlowLabels
    case ServiceMaxConcatBurst => ServiceFlowLabels
    case CableInfo => InfoLabels
    case CableStatus => StatusLabels
    case CableUptimeSeconds => Unlabelled
    case CableAccessAllowed => Unlabelled
    case CableMaxCPEs => Unlabelled
    case CableBaselinePrivacy => Unlabelled
    case DownstreamUp => Unlabelled
    case UpstreamUp => Unlabelled
    case ServiceFlowsUp => Unlabelled
    case StateUp => Unlabelled
  }

  function VariableLabels(m: MetricId): seq<string>
  {
    SchemaLabels(Schema(m))
  }

  /**
   * Every descriptor's name is under the product prefix, and its label
   * names are ones `prometheus.NewDesc` accepts: valid, none twice.
   */
  function Descriptor(m: MetricId): (d: Desc)
    ensures |d.fqName| >= |Prefix| && d.fqName[..|Prefix|] == Prefix
    ensures forall i :: 0 <= i < |d.variableLabels| ==> ValidLabelName(d.variableLabels[i])
    ensures forall i, j :: 0 <= i < j < |d.variableLabels| ==> d.variableLabels[i] != d.variableLabels[j]
  {
    LabelNamesValid(Schema(m));
    PrefixOf(Prefix, NameSuffix(m));
    Desc(Prefix + NameSuffix(m), HelpText(m), VariableLabels(m))
  }

  lemma PrefixOf(a: string, b: string)
    ensures |a + b| >= |a| && (a + b)[..|a|] == a
  {
  }

  /** The resource whose fetch produces samples of m. */
  function ResourceOf(m: MetricId): Resource
  {
    match m
    case DownstreamPower | DownstreamSnr | DownstreamRxMer | DownstreamCorrected
       | DownstreamUncorrected | DownstreamLockStatus | DownstreamFrequencyHz | DownstreamUp
      => DownstreamResource
    case UpstreamPower | UpstreamSymbolRate | UpstreamLockStatus | UpstreamFrequencyHz
       | UpstreamT1 | UpstreamT2 | UpstreamT3 | UpstreamT4 | UpstreamUp
      => UpstreamResource
    case ServiceMaxTrafficRate | ServiceMaxTrafficBurst | ServiceMinReservedRate
       | ServiceMaxConcatBurst | ServiceFlowsUp
      => ServiceFlowsResource
    case CableInfo | CableStatus | CableUptimeSeconds | CableAccessAllowed
       | CableMaxCPEs | CableBaselinePrivacy | StateUp
      => StateResource
  }

  predicate IsUp(m: MetricId)
  {
    m.DownstreamUp? || m.UpstreamUp? || m.ServiceFlowsUp? || m.StateUp?
  }

  /** The per-endpoint availability gauge of each resource. */
  function UpMetric(r: Resource): (m: MetricId)
    ensures IsUp(m) && ResourceOf(m) == r
  {
    match r
    case DownstreamResource => DownstreamUp
    case UpstreamResource => UpstreamUp
    case ServiceFlowsResource => ServiceFlowsUp
    case StateResource => StateUp
  }

  /** Per-channel downstream metrics, in the order `Describe` and `Collect` use. */
  const DownstreamMetrics: seq<MetricId> := [
    DownstreamPower, DownstreamSnr, DownstreamRxMer, DownstreamCorrected,
    DownstreamUncorrected, DownstreamLockStatus, DownstreamFrequencyHz]

  /** Per-channel upstream metrics, in the order `Describe` and `Collect` use. */
  const UpstreamMetrics: seq<MetricId> := [
    UpstreamPower, UpstreamSymbolRate, UpstreamLockStatus, UpstreamFrequencyHz,
    UpstreamT1, UpstreamT2, UpstreamT3, UpstreamT4]

  /** Per-flow service-flow metrics, in the order `Describe` and `Collect` use. */
  const ServiceFlowMetrics: seq<MetricId> := [
    ServiceMaxTrafficRate, ServiceMaxTrafficBurst, ServiceMinReservedRate, ServiceMaxConcatBurst]

  /** The cable-modem metrics in the order `Describe` sends them (uptime before status). */
  const CableMetrics: seq<MetricId> := [
    CableInfo, CableUptimeSeconds, CableStatus, CableAccessAllowed, CableMaxCPEs, CableBaselinePrivacy]

  const UpMetrics: seq<MetricId> := [DownstreamUp, UpstreamUp, ServiceFlowsUp, StateUp]

  /** Position of each resource in `Collect`'s fixed order. */
  function ResourceIndex(r: Resource): (i: nat)
    ensures i < 4 && UpMetrics[i] == UpMetric(r)
  {
    match r
    case DownstreamResource => 0
    case UpstreamResource => 1
    case ServiceFlowsResource => 2
    case StateResource => 3
  }

  /** The order in which `Describe` sends the descriptors. */
  const DescribeOrder: seq<MetricId> :=
    DownstreamMetrics + UpstreamMetrics + ServiceFlowMetrics + CableMetrics + UpMetrics

  /** The descriptors of a list of metrics, in the same order. */
  function Descriptors(ms: seq<MetricId>): seq<Desc>
  {
    seq(|ms|, i requires 0 <= i < |ms| => Descriptor(ms[i]))
  }

  /** The descriptors `Describe` sends, in order. */
  function Described(): seq<Desc>
  {
    Descriptors(DescribeOrder)
  }

  /** Where m stands in `DescribeOrder`. */
  function DescribeIndex(m: MetricId): nat
  {
    match m
    case DownstreamPower => 0
    case DownstreamSnr => 1
    case DownstreamRxMer => 2
    case DownstreamCorrected => 3
    case DownstreamUncorrected => 4
    case DownstreamLockStatus => 5
    case DownstreamFrequencyHz => 6
    case UpstreamPower => 7
    case UpstreamSymbolRate => 8
    case UpstreamLockStatus => 9
    case UpstreamFrequencyHz => 10
    case UpstreamT1 => 11
    case UpstreamT2 => 12
    case UpstreamT3 => 13
    case UpstreamT4 => 14
    case ServiceMaxTrafficRate => 15
    case ServiceMaxTrafficBurst => 16
    case ServiceMinReservedRate => 17
    case ServiceMaxConcatBurst => 18
    case CableInfo => 19
    case CableUptimeSeconds => 20
    case CableStatus => 21
    case CableAccessAllowed => 22
    case CableMaxCPEs => 23
    case CableBaselinePrivacy => 24
    case DownstreamUp => 25
    case UpstreamUp => 26
    case ServiceFlowsUp => 27
    case StateUp => 28
  }

  /** `DescribeIndex(m)` is a position of m in `DescribeOrder`. */
  lemma DescribeIndexCorrect(m: MetricId)
    ensures DescribeIndex(m) < |DescribeOrder| && DescribeOrder[DescribeIndex(m)] == m
  {
  }

  /** `Describe` sends 29 descriptors and leaves no metric out. */
  lemma DescribeComplete()
    ensures |DescribeOrder| == 29
    ensures forall m :: m in DescribeOrder
  {
    forall m: MetricId ensures m in DescribeOrder {
      DescribeIndexCorrect(m);
    }
  }

  // `DescribeIndex` inverts each group's place in `DescribeOrder`.

  lemma DownstreamIndices()
    ensures forall k :: 0 <= k < 7 ==> DescribeIndex(DownstreamMetrics[k]) == k
  {
  }

  lemma UpstreamIndices()
    ensures forall k :: 0 <= k < 8 ==> DescribeIndex(UpstreamMetrics[k]) == 7 + k
  {
  }

  lemma ServiceFlowIndices()
    ensures forall k :: 0 <= k < 4 ==> DescribeIndex(ServiceFlowMetrics[k]) == 15 + k
  {
  }

  lemma CableIndices()
    ensures forall k :: 0 <= k < 6 ==> DescribeIndex(CableMetrics[k]) == 19 + k
  {
  }

  lemma UpIndices()
    ensures forall k :: 0 <= k < 4 ==> DescribeIndex(UpMetrics[k]) == 25 + k
  {
  }

  /** No metric is described twice. */
  lemma DescribeDistinct()
    ensures forall i, j :: 0 <= i < j < |DescribeOrder| ==> DescribeOrder[i] != DescribeOrder[j]
  {
    DescribeGroups();
    DownstreamIndices();
    UpstreamIndices();
    ServiceFlowIndices();
    CableIndices();
    UpIndices();
    forall i | 0 <= i < |DescribeOrder| ensures DescribeIndex(DescribeOrder[i]) == i {
      if i < 7 {
        assert DescribeOrder[i] == DescribeOrder[..7][i];
      } else if i < 15 {
        assert DescribeOrder[i] == DescribeOrder[7..15][i - 7];
      } else if i < 19 {
        assert DescribeOrder[i] == DescribeOrder[15..19][i - 15];
      } else if i < 25 {
        assert DescribeOrder[i] == DescribeOrder[19..25][i - 19];
      } else {
        assert DescribeOrder[i] == DescribeOrder[25..][i - 25];
      }
    }
  }

  /**
   * `Describe` sends the groups in a fixed order: 7 downstream, 8 upstream,
   * 4 service-flow and 6 cable-modem descriptors, then the 4 up gauges.
   */
  lemma DescribeGroups()
    ensures DescribeOrder[..7] == DownstreamMetrics
    ensures DescribeOrder[7..15] == UpstreamMetrics
    ensures DescribeOrder[15..19] == ServiceFlowMetrics
    ensures DescribeOrder[19..25] == CableMetrics
    ensures DescribeOrder[25..] == UpMetrics
  {
    var a := DownstreamMetrics + UpstreamMetrics;
    var b := a + ServiceFlowMetrics;
    var c := b + CableMetrics;
    assert DescribeOrder == c + UpMetrics;
    assert c[..|b|] == b && b[..|a|] == a;
  }

  /** Downstream channel metrics belong to the downstream resource and are labelled by channel. */
  lemma DownstreamGroup()
    ensures forall m :: m in DownstreamMetrics ==>
      ResourceOf(m) == DownstreamResource && !IsUp(m)
      && VariableLabels(m) == ["channel_id", "channel_type", "modulation"]
  {
  }

  /** Upstream channel metrics belong to the upstream resource and are labelled by channel. */
  lemma UpstreamGroup()
    ensures forall m :: m in UpstreamMetrics ==>
      ResourceOf(m) == UpstreamResource && !IsUp(m)
      && VariableLabels(m) == ["channel_id", "channel_type", "modulation"]
  {
  }

  /** Service-flow metrics belong to the service-flow resource and are labelled by flow. */
  lemma ServiceFlowGroup()
    ensures forall m :: m in ServiceFlowMetrics ==>
      ResourceOf(m) == ServiceFlowsResource && !IsUp(m)
      && VariableLabels(m) == ["serviceflow_id", "direction", "schedule_type"]
  {
  }

  /**
   * Cable-modem metrics belong to the state resource. Info takes four
   * identity labels and status one; uptime, access, max CPEs and privacy
   * take none.
   */
  lemma CableGroup()
    ensures forall m :: m in CableMetrics ==> ResourceOf(m) == StateResource && !IsUp(m)
    ensures VariableLabels(CableInfo)
         == ["boot_filename", "docsis_version", "mac_address", "serial_number"]
    ensures VariableLabels(CableStatus) == ["status"]
    ensures forall m :: m in CableMetrics && m !in {CableInfo, CableStatus} ==> VariableLabels(m) == []
  {
  }

  /** The up gauges: one per resource, in resource order, and unlabelled. */
  lemma UpGroup()
    ensures UpMetrics == [UpMetric(DownstreamResource), UpMetric(UpstreamResource),
                          UpMetric(ServiceFlowsResource), UpMetric(StateResource)]
    ensures forall m :: m in UpMetrics ==> IsUp(m) && VariableLabels(m) == []
  {
  }

  /** Every up gauge is the one of its own resource: there are no others. */
  lemma UpExclusive(m: MetricId)
    ensures IsUp(m) <==> m in UpMetrics
    ensures IsUp(m) ==> m == UpMetric(ResourceOf(m))
  {
    if IsUp(m) {
      assert m == UpMetrics[ResourceIndex(ResourceOf(m))];
    }
  }
}
