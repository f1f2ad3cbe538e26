# Virgin Media Hub 6 exporter, modelled in Dafny

This project models the core of a Prometheus exporter for the Virgin Media
Hub 6 cable modem. On every scrape the exporter reads four REST resources
from the hub and turns them into gauge samples:

- downstream channels;
- upstream channels;
- DOCSIS service flows;
- cable-modem state.

Each resource also yields one `*_up` gauge that says whether it could be
read.

The model covers:

- **the descriptor table** built by `NewHubExporter`, and `Describe`, which
  sends it. This is 29 metrics, each with a fixed name, help text and list
  of label names.
- **`fetch`**: it builds the URL `http://` + address + path, and accepts
  only a status in [200, 300). It then decodes the body strictly, falls
  back to a lenient decode, and fails only when both fail. The four
  fetchers use fixed resource paths.
- **`Collect`**: it visits downstream, upstream, service flows and state
  in turn. For each one it sends every record's samples when the fetch
  succeeded, then that resource's up gauge.
- **the record shapes** the hub returns.

Files:

- `hub6.dfy`: the record shapes.
- `decimal.dfy`: base-10 `strconv.FormatUint`, with a parser as its
  inverse.
- `device_client.dfy`: `fetch`.
- `metrics.dfy`: the descriptor table and `Describe` order.
- `translate.dfy`: what one scrape sends, as a function of the four fetch
  outcomes, and the properties of it.
- `exporter.dfy`: the `HubExporter` class. It holds the constructor,
  `Describe`, the fetchers and `Collect`.
- `channel.dfy`: a Go send-only channel, modelled as an object whose
  sequence of sent values grows.
- `seqs.dfy` and `wrappers.dfy`: generic helpers.

Modelling choices:

- **The network** is a function from each requested URL to the final
  outcome the HTTP client reports for it: the request could not be built,
  the transport failed, or a status code with a body (or a failed body
  read).
- **The two JSON decoders** are partial functions over the body bytes.
  So `Collect` is proved against `Translate.Scrape` for every possible
  device and decoder.
- **`Describe` and `Collect`** are methods that append to the channel's
  `sent` sequence. The straight-line sends of each group are split into
  their own methods, and so is the body of each resource's branch. Their
  composition is proved equal to the whole.
- **Go's `uint64` fields** are a subset type of `int`. The `float64`
  readings and the `float64(uint64)` conversions are exact `real`s.

## Model

| member | source | states |
|---|---|---|
| Decimal.FormatUint | exporter/exporter.go:271 | The channel-id label is canonical decimal: only digits, no leading zero, and "0" exactly for id 0 |
| Decimal.ParseFormat | exporter/exporter.go:271 | Parsing the label text gives the id back, so the label identifies the channel |
| Decimal.FormatParse | exporter/exporter.go:293 | Every canonical decimal string is the label of the number it spells (the inverse direction) |
| Decimal.FormatInjective | exporter/exporter.go:316 | Distinct ids get distinct labels |
| DeviceClient.PathOf | exporter/exporter.go:412-442 | Every fetcher path lies under /rest/v1/cablemodem/ |
| DeviceClient.PathsDistinct | exporter/exporter.go:412-442 | The four resources are fetched from four different paths |
| DeviceClient.UrlShape | exporter/exporter.go:375 | The URL is "http://", then the address, then the path, in that order |
| DeviceClient.UrlInjective | exporter/exporter.go:375 | For a fixed path, the URL determines the address it was built from |
| DeviceClient.Decode | exporter/exporter.go:398-409 | A strict success is returned as is. The lenient result is used only after a strict failure. Decoding fails, as a decode error, exactly when both decoders fail |
| DeviceClient.Fetch | exporter/exporter.go:374-410 | Request, transport, status and read failures each give their own error. A status outside [200, 300) is rejected with that code. Success holds exactly when the status is 2xx, the body was read and one decoder accepts it. A read 2xx body gives the strict-first decode: the strict record, else the lenient one, else DecodeError |
| DeviceClient.FetchReadsOneUrl | exporter/exporter.go:374-386 | A fetch depends on the device only through the one URL it requests |
| DeviceClient.FetchTolerance | exporter/exporter.go:398-409 | When the lenient decoder reads a body the strict decoder rejects as exactly the record the strict decoder reads from a plain body, and both answers carry the same status, the two fetches give the same result: that record on a 2xx |
| DeviceClient.StrictPassChangesNothing | exporter/exporter.go:398-409 | When the lenient decoder agrees with every strict success, the strict-first order changes no result |
| Metrics.SchemaLabels | exporter/exporter.go:63-65 | No label-name list `NewHubExporter` passes names a label twice, which `prometheus.NewDesc` would reject |
| Metrics.LabelNamesValid | exporter/exporter.go:63-198 | Every label name used is a valid Prometheus label name (`[a-zA-Z_][a-zA-Z0-9_]*`, not starting with `__`) |
| Metrics.Schema | exporter/exporter.go:63-220 | Only info takes the four identity labels and only status takes "status". The up gauges and the uptime, access, max-CPEs and privacy metrics take none. All other metrics take a channel or flow label list |
| Metrics.Descriptor | exporter/exporter.go:70-220 | Every descriptor's name starts with virginmedia_hub6_, and its label names are valid and distinct |
| Metrics.UpMetric | exporter/exporter.go:200-220 | Each resource has an up gauge of its own |
| Metrics.DescribeComplete | exporter/exporter.go:225-260 | `Describe` sends 29 descriptors and leaves no metric out |
| Metrics.DescribeDistinct | exporter/exporter.go:225-260 | No metric is described twice |
| Metrics.DescribeGroups | exporter/exporter.go:225-260 | The groups come in order: 7 downstream, 8 upstream, 4 service-flow, 6 cable-modem, then the 4 up gauges |
| Metrics.DownstreamGroup | exporter/exporter.go:63-105 | The downstream metrics belong to the downstream resource, are not up gauges, and are labelled channel_id, channel_type, modulation |
| Metrics.UpstreamGroup | exporter/exporter.go:64-146 | The upstream metrics belong to the upstream resource, are not up gauges, and are labelled channel_id, channel_type, modulation |
| Metrics.ServiceFlowGroup | exporter/exporter.go:65-167 | The service-flow metrics belong to the service-flow resource, are not up gauges, and are labelled serviceflow_id, direction, schedule_type |
| Metrics.CableGroup | exporter/exporter.go:169-198 | The cable-modem metrics belong to the state resource. Info takes the four identity labels and status takes "status". Uptime, access, max CPEs and privacy take no labels |
| Metrics.UpGroup | exporter/exporter.go:200-220 | The four up gauges are in resource order and take no labels |
| Metrics.UpExclusive | exporter/exporter.go:200-220 | A metric is an up gauge exactly when it is one of the four, and each is the gauge of its own resource |
| Translate.Gauge | exporter/exporter.go:277-280 | A boolean becomes 1 exactly when true and 0 exactly when false |
| Translate.DownstreamChannelSamples | exporter/exporter.go:270-283 | A downstream channel gives 7 samples, each a well-labelled downstream detail sample |
| Translate.UpstreamChannelSamples | exporter/exporter.go:292-306 | An upstream channel gives 8 samples, each a well-labelled upstream detail sample |
| Translate.ServiceFlowSamples | exporter/exporter.go:315-321 | A service flow gives 4 samples, each a well-labelled service-flow detail sample |
| Translate.StateSamples | exporter/exporter.go:328-369 | A state record gives 6 samples, each a well-labelled state detail sample |
| Translate.DownstreamChannelLayout | exporter/exporter.go:270-283 | The samples follow the descriptor order power, snr, rxmer, corrected, uncorrected, lock, frequency, and each carries the channel field of that name. All are labelled [decimal id, channel type, modulation]. Lock is 1 exactly when locked. The id label parses back to the id |
| Translate.DownstreamChannelValues | exporter/exporter.go:272-282 | Power, SNR, RxMER, corrected and uncorrected errors and frequency carry the channel's own fields; lock is 1 exactly when locked |
| Translate.DownstreamChannelLabels | exporter/exporter.go:271-282 | The seven samples follow the downstream descriptors in `Describe` order and all carry [decimal id, channel type, modulation] |
| Translate.UpstreamChannelLayout | exporter/exporter.go:292-306 | The samples follow the descriptor order power, symbol rate, lock, frequency, T1-T4, and each carries the channel field of that name. All are labelled [decimal id, channel type, modulation]. Lock is 1 exactly when locked |
| Translate.UpstreamChannelValues | exporter/exporter.go:294-305 | Power, symbol rate, frequency and the T1-T4 timeout counts carry the channel's own fields, each in its own sample; lock is 1 exactly when locked |
| Translate.UpstreamChannelLabels | exporter/exporter.go:293-305 | The eight samples follow the upstream descriptors in `Describe` order and all carry [decimal id, channel type, modulation] |
| Translate.ServiceFlowLayout | exporter/exporter.go:315-321 | The samples are max rate, max burst, min reserved rate and max concatenated burst, each carrying the flow field of that name. All are labelled [decimal id, direction, schedule type] |
| Translate.StateLayout | exporter/exporter.go:328-369 | The samples are info, status, uptime, access, max CPEs and privacy (status before uptime, unlike `Describe`). Info and status have value 1 and carry their labels. Uptime and max CPEs carry the modem's uptime and CPE limit. Access and privacy are 1 exactly when true |
| Translate.DownstreamBlock | exporter/exporter.go:270-284 | Channel i's samples occupy positions [7i, 7i+7) of the downstream block |
| Translate.UpstreamBlock | exporter/exporter.go:292-307 | Channel i's samples occupy positions [8i, 8i+8) of the upstream block |
| Translate.ServiceFlowBlock | exporter/exporter.go:315-322 | Flow i's samples occupy positions [4i, 4i+4) of the service-flow block |
| Translate.Detail | exporter/exporter.go:266-370 | None when the fetch failed; six for a successful state fetch (the per-record counts of the other resources are stated by Translate.DetailShape) |
| Translate.Section | exporter/exporter.go:266-371 | A resource's branch sends its detail samples and then one unlabelled up gauge, 1 on success and 0 on failure |
| Translate.Scrape | exporter/exporter.go:263-372 | A scrape sends at least the four up gauges, and the state up gauge is the last sample |
| Translate.DetailShape | exporter/exporter.go:266-370 | A resource's detail block has a fixed number of samples per record, and none when the fetch failed. Every sample is a well-formed, non-up sample of that resource |
| Translate.SectionShape | exporter/exporter.go:266-371 | A resource's branch ends with its up gauge, and all its samples belong to it and are well formed |
| Translate.ScrapeLength | exporter/exporter.go:263-372 | Total samples = 4 + 7 per downstream channel + 8 per upstream channel + 4 per flow + 6 for a successful state fetch |
| Translate.ScrapeByResource | exporter/exporter.go:263-372 | The samples of one resource are exactly its branch's output, in order. No other branch sends any |
| Translate.FailureWithheld | exporter/exporter.go:267-286 | A resource's only sample is an up gauge of 0 exactly when its fetch failed |
| Translate.SuccessReported | exporter/exporter.go:268-286 | A successful fetch is reported in full: every record's samples in order, then an up gauge of 1 |
| Translate.Isolation | exporter/exporter.go:263-372 | What a scrape reports about a resource depends on that resource's fetch alone |
| Translate.ScrapeUpSamples | exporter/exporter.go:263-372 | Every scrape sends exactly four up gauges, in the order downstream, upstream, service flows, state |
| Translate.UpGaugeValue | exporter/exporter.go:267-269 | An up gauge is unlabelled and is 1 exactly when its fetch succeeded, 0 otherwise |
| Translate.UpPositions | exporter/exporter.go:263-372 | Each up gauge comes right after its resource's detail block. The state gauge comes last |
| Translate.ScrapeWellFormed | exporter/exporter.go:263-372 | Every sample is of a described metric and has as many label values as the descriptor has label names, so no send panics |
| Translate.AllFailed | exporter/exporter.go:263-372 | When every fetch fails, the scrape is the four up gauges at 0 |
| Translate.OneDownstreamChannel | exporter/exporter.go:263-286 | Worked example: one locked channel gives its seven samples with labels "1", "sc_qam", "256qam", then up gauges 1, 0, 0, 0 |
| Exporter.HubExporter.constructor | exporter/exporter.go:62-222 | The exporter keeps the address and has the descriptor of every metric |
| Exporter.HubExporter.FieldsDescribed | exporter/exporter.go:225-260 | The descriptor fields, read in `Describe` order, are the described descriptors |
| Exporter.HubExporter.FieldsGroups | exporter/exporter.go:225-260 | The fields in `Describe` order split into its five groups |
| Exporter.HubExporter.Describe | exporter/exporter.go:225-260 | Sends exactly the 29 descriptors in `Describe` order and nothing else. No fetch is made |
| Exporter.HubExporter.DescribeDownstream | exporter/exporter.go:226-232 | Sends the seven downstream descriptors |
| Exporter.HubExporter.DescribeUpstream | exporter/exporter.go:234-241 | Sends the eight upstream descriptors |
| Exporter.HubExporter.DescribeServiceFlows | exporter/exporter.go:243-246 | Sends the four service-flow descriptors |
| Exporter.HubExporter.DescribeCable | exporter/exporter.go:248-253 | Sends the six cable-modem descriptors, with uptime before status |
| Exporter.HubExporter.DescribeUp | exporter/exporter.go:256-259 | Sends the four up-gauge descriptors |
| Exporter.HubExporter.FetchDownstream | exporter/exporter.go:412-418 | Requests http://address/rest/v1/cablemodem/downstream. A 2xx response with a read body gives the strict-first decode of it; anything else is an error |
| Exporter.HubExporter.FetchUpstream | exporter/exporter.go:420-426 | The same for /rest/v1/cablemodem/upstream |
| Exporter.HubExporter.FetchServiceFlows | exporter/exporter.go:428-434 | The same for /rest/v1/cablemodem/serviceflows |
| Exporter.HubExporter.FetchState | exporter/exporter.go:436-442 | The same for /rest/v1/cablemodem/state_ |
| Exporter.HubExporter.Observe | exporter/exporter.go:268-328 | A resource counts as fetched only if its URL answered 2xx with a body that could be read |
| Exporter.HubExporter.ObserveReadsFourUrls | exporter/exporter.go:412-442 | A scrape requests only the four URLs http://address/rest/v1/cablemodem/{downstream,upstream,serviceflows,state_} |
| Exporter.HubExporter.ObserveSucceeds | exporter/exporter.go:374-442 | A resource counts as up exactly when its URL answered 2xx with a body that one of the decoders accepts |
| Exporter.HubExporter.Collect | exporter/exporter.go:263-372 | Appends exactly `Scrape` of the four fetch outcomes to the channel |
| Exporter.HubExporter.CollectDownstream | exporter/exporter.go:266-286 | The downstream branch: the loop's invariant is that the sent samples are those of the channels visited so far. Then the up gauge is sent |
| Exporter.HubExporter.CollectUpstream | exporter/exporter.go:288-309 | The upstream branch, with the same loop invariant, then the up gauge |
| Exporter.HubExporter.CollectServiceFlows | exporter/exporter.go:311-324 | The service-flow branch, with the same loop invariant, then the up gauge |
| Exporter.HubExporter.CollectState | exporter/exporter.go:326-371 | The state branch: six samples on success, then the up gauge |
| Exporter.HubExporter.SendDownstreamChannel | exporter/exporter.go:271-283 | The downstream loop body sends exactly one channel's seven samples |
| Exporter.HubExporter.SendUpstreamChannel | exporter/exporter.go:293-305 | The upstream loop body sends exactly one channel's eight samples |
| Exporter.HubExporter.SendServiceFlow | exporter/exporter.go:316-320 | The service-flow loop body sends exactly one flow's four samples |
| Exporter.HubExporter.SendState | exporter/exporter.go:330-368 | The state branch sends info, status, uptime, access, max CPEs and privacy |

## Left out

- The HTTP client is not modelled: request construction, the per-request timeout passed to `NewHubExporter`, `context`, closing the body and `io.ReadAll`. The device is a function from each requested URL to the final outcome the client reports for it.
- The internals of `encoding/json` are not modelled: `DisallowUnknownFields`, case-insensitive key matching, a strict `Decoder` accepting trailing data, and the record a failed strict pass leaves partly filled before the lenient pass. The strict and lenient decoders are arbitrary partial functions of the body bytes.
- The Prometheus client library is not modelled. A descriptor is a (name, help, label names) record and a sample is a (metric, label values, value) triple. `MustNewConstMetric`'s panic on a label-count mismatch is shown never to happen, by Translate.ScrapeWellFormed. Its checks of label values and the exposition format are not modelled.
- Translate.DownstreamChannelSamples: `float64(uint64)` conversions are exact reals, so rounding above 2^53 is not modelled. The same holds for Translate.UpstreamChannelSamples, Translate.ServiceFlowSamples and Translate.StateSamples.
- Metrics.DescribeComplete: descriptor names are the prefix `virginmedia_hub6_` followed by a per-metric suffix, by construction. That the 29 names are pairwise distinct and are valid Prometheus metric names is not proved, and no property of the help texts is stated: the name and help columns (Metrics.NameSuffix, Metrics.HelpText) are string tables without contracts, because reasoning about the characters of 29 literal strings at once exceeds the verifier's resource limit.
- Concurrency is not modelled. Prometheus may call `Collect` from several goroutines, and the channel is consumed concurrently. Here a channel is the sequence of values sent on it.
- The command-line program (`cmd/root.go`, `cmd/server.go`, `cmd/main.go`) is not part of this model. It holds flags, environment overrides, logging and the HTTP server.
- The root-level `serviceflows.go` is not part of this model. It declares a single-item variant that `Collect` does not use. The shape `Collect` reads is the list variant from `hub6/serviceflows.go`.
- The malformed JSON tag on `State.CableModem` (state.go:24) is not modelled. The wrapper key is taken to be "cablemodem", which Go's case-insensitive matching of the field name also accepts.
- The source sends `Describe`'s cable-modem group with uptime before status (exporter/exporter.go:248-253), while `Collect` sends status before uptime. The model keeps both orders as written.
- Redirects are not modelled separately. The client has no `CheckRedirect`, so Go follows up to 10 redirects and may request URLs other than the four. The device function stands for the client's final outcome per requested URL, redirects included. A 3xx reaches the status check only when the client did not follow it.
