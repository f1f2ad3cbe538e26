/**
 * The exporter's `fetch`: one GET against the hub, a status check, and a
 * strict decode with a lenient fallback. The network is a function from
 * URL to the outcome of the exchange; the two JSON decoders are partial
 * functions over the response body.
 */
module DeviceClient {
  import opened Wrappers
  import opened Hub6

  type byte = x: int | 0 <= x < 256

  /** What the HTTP client finally reports for one requested URL. */
  datatype Exchange =
    | RequestInvalid                                    // the request could not be built
    | TransportFailed                                   // connection refused, timeout, ...
    | Response(statusCode: int, body: Option<seq<byte>>) // body None: reading it failed

  datatype FetchError =
    | RequestError
    | TransportError
    | StatusError(statusCode: int)
    | ReadError
    | DecodeError

  /**
   * The device as the exporter sees it: for each URL requested, the final
   * outcome the HTTP client reports (after any redirects it followed).
   */
  type Device = string -> Exchange

  /**
   * Decoding one record shape: `strict` rejects unknown fields, `lenient`
   * ignores them. None means that decoder returned an error.
   */
  datatype Codec<T> = Codec(strict: seq<byte> -> Option<T>, lenient: seq<byte> -> Option<T>)

  const Scheme := "http://"

  const ApiRoot := "/rest/v1/cablemodem/"

  /**
   * The resource paths the four fetchers request, all under the hub's
   * cable-modem REST root.
   */
  function PathOf(r: Resource): (p: string)
    ensures |p| > |ApiRoot| && p[..|ApiRoot|] == ApiRoot
  {
    match r
    case DownstreamResource => "/rest/v1/cablemodem/downstream"
    case UpstreamResource => "/rest/v1/cablemodem/upstream"
    case ServiceFlowsResource => "/rest/v1/cablemodem/serviceflows"
    case StateResource => "/rest/v1/cablemodem/state_"
  }

  /** Distinct resources are fetched from distinct paths. */
  lemma PathsDistinct(r1: Resource, r2: Resource)
    ensures r1 != r2 ==> PathOf(r1) != PathOf(r2)
  {
    if r1 != r2 {
      assert |PathOf(r1)| != |PathOf(r2)|;
    }
  }

  function Url(address: string, path: string): string
  {
    Scheme + address + path
  }

  /** The URL is the scheme, then the address, then the path, each in its own slice. */
  lemma UrlShape(address: string, path: string)
    ensures var u := Url(address, path);
      |u| == |Scheme| + |address| + |path| && u[..|Scheme|] == Scheme
      && u[|Scheme|..|Scheme| + |address|] == address && u[|u| - |path|..] == path
  {
  }

  /** A URL determines the address it was built from, given the path. */
  lemma UrlInjective(a1: string, a2: string, path: string)
    ensures Url(a1, path) == Url(a2, path) ==> a1 == a2
  {
    UrlShape(a1, path);
    UrlShape(a2, path);
  }

  /** Go's `resp.StatusCode < 200 || resp.StatusCode >= 300` is the rejecting test. */
  predicate StatusAccepted(code: int) { 200 <= code < 300 }

  /** Strict pass first; the lenient pass only when the strict one fails. */
  function Decode<T>(body: seq<byte>, codec: Codec<T>): (r: Result<T, FetchError>)
    ensures codec.strict(body).Some? ==> r == Ok(codec.strict(body).value)
    ensures codec.strict(body).None? && codec.lenient(body).Some? ==> r == Ok(codec.lenient(body).value)
    ensures r.Err? <==> codec.strict(body).None? && codec.lenient(body).None?
    ensures r.Err? ==> r.error == DecodeError
  {
    match codec.strict(body)
    case Some(v) => Ok(v)
    case None =>
      match codec.lenient(body)
      case Some(v) => Ok(v)
      case None => Err(DecodeError)
  }

  /** `fetch(ctx, path, out)` against the hub at `address`. */
  function Fetch<T>(device: Device, address: string, path: string, codec: Codec<T>): (r: Result<T, FetchError>)
    ensures var x := device(Url(address, path));
      && (x.RequestInvalid? ==> r == Err(RequestError))
      && (x.TransportFailed? ==> r == Err(TransportError))
      && (x.Response? && !StatusAccepted(x.statusCode) ==> r == Err(StatusError(x.statusCode)))
      && (x.Response? && StatusAccepted(x.statusCode) && x.body.None? ==> r == Err(ReadError))
      && (r.Ok? <==> x.Response? && StatusAccepted(x.statusCode) && x.body.Some?
                     && (codec.strict(x.body.value).Some? || codec.lenient(x.body.value).Some?))
    ensures var x := device(Url(address, path));
      x.Response? && StatusAccepted(x.statusCode) && x.body.Some? ==> r == Decode(x.body.value, codec)
  {
    match device(Url(address, path))
    case RequestInvalid => Err(RequestError)
    case TransportFailed => Err(TransportError)
    case Response(code, body) =>
      if code < 200 || code >= 300 then Err(StatusError(code))
      else if body.None? then Err(ReadError)
      else Decode(body.value, codec)
  }

  /**
   * The result depends on the device only through the one URL requested:
   * two devices that answer that URL alike give the same result.
   */
  lemma FetchReadsOneUrl<T>(d1: Device, d2: Device, address: string, path: string, codec: Codec<T>)
    requires d1(Url(address, path)) == d2(Url(address, path))
    ensures Fetch(d1, address, path, codec) == Fetch(d2, address, path, codec)
  {
  }

  /**
   * Decode tolerance: a body the strict pass rejects (an extra field, say)
   * but the lenient pass reads as the same record that the strict pass
   * reads from another body fetches to the same result.
   */
  lemma FetchTolerance<T>(d1: Device, d2: Device, address: string, path: string, codec: Codec<T>,
                          extended: seq<byte>, plain: seq<byte>, code: int)
    requires d1(Url(address, path)) == Response(code, Some(extended))
    requires d2(Url(address, path)) == Response(code, Some(plain))
    requires codec.strict(extended).None? && codec.strict(plain).Some?
    requires codec.lenient(extended) == codec.strict(plain)
    ensures Fetch(d1, address, path, codec) == Fetch(d2, address, path, codec)
    ensures StatusAccepted(code) ==> Fetch(d1, address, path, codec) == Ok(codec.strict(plain).value)
  {
  }

  /**
   * When the lenient decoder agrees with the strict one wherever the strict
   * one succeeds, the strict pass changes no result: fetching is the same
   * as decoding leniently alone.
   */
  lemma StrictPassChangesNothing<T>(device: Device, address: string, path: string, codec: Codec<T>)
    requires forall b :: codec.strict(b).Some? ==> codec.lenient(b) == codec.strict(b)
    ensures Fetch(device, address, path, codec)
         == Fetch(device, address, path, Codec(codec.lenient, codec.lenient))
  {
  }
}
