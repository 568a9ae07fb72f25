/** The values that pass between the client and the network: a URL split into
    the five components `urllib.parse.urlsplit` produces, the request the client
    hands to the transport, the response object callers receive, and what the
    transport (the `requests` library and the network, an oracle here) does. */
module Http {
  import opened Common
  import opened Json

  /** `urlsplit(url)`: scheme, netloc (host with any port), path, query, fragment. */
  datatype SplitUrl = SplitUrl(scheme: string, netloc: string, path: string, query: string, fragment: string)

  /** A `timeout` argument: one duration, or a (connect, read) pair, in
      hundredths of a second. */
  datatype Timeout = Total(t: nat) | ConnectRead(connect: nat, read: nat)

  /** One call `request(method, url, **kwargs)`: the keyword arguments the core
      reads or writes are `headers`, `verify` and `timeout`; None means the
      caller did not pass that keyword. */
  datatype HttpRequest = HttpRequest(
    verb: string,
    url: SplitUrl,
    headers: Option<map<string, string>>,
    verify: Option<bool>,
    timeout: Option<Timeout>)

  /** A `requests.Response` as the validators see it: the status code (None on
      the empty response built after a transport exception), what `res.json()`
      decodes the body to (None when it raises ValueError), and the URL. */
  datatype Response = Response(status: Option<int>, body: Option<Json>, url: SplitUrl)

  /** What sending one request does: the transport raises, or a round trip
      completes with a status, a body and the final URL. */
  datatype Transport = Raised | Answered(status: int, body: Option<Json>, finalUrl: SplitUrl)
}
