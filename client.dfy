/** The client: `XSession` (throttled, time-limited sends that never raise) and
    `PixivBase` on top of it (domain fronting through the fixed host table
    `PIXIV_HOSTS`). The network is the `transport` oracle. */
module Client {
  import opened Common
  import opened Json
  import opened Http

  /** `PIXIV_HOSTS`: host name to the IP literal a fronted request is sent to. */
  const PixivHosts: map<string, string> := map[
    "s.pximg.net" := "210.140.92.141",
    "i.pximg.net" := "210.140.92.141",
    "ns1.pixiv.net" := "210.140.131.236",
    "ns2.pixiv.net" := "210.140.131.238",
    "pixiv.net" := "210.140.131.222",
    "m.pixiv.net" := "210.140.131.222",
    "help.pixiv.net" := "210.140.131.222",
    "factory.pixiv.net" := "210.140.131.222",
    "touch.pixiv.net" := "210.140.131.222",
    "p2.pixiv.net" := "210.140.131.222",
    "payment.pixiv.net" := "210.140.131.222",
    "ssl.pixiv.net" := "210.140.131.222",
    "chat.pixiv.net" := "210.140.131.222",
    "blog.pixiv.net" := "210.140.131.222",
    "en.dic.pixiv.net" := "210.140.131.222",
    "genepixiv.pr.pixiv.net" := "210.140.131.222",
    "inside.pixiv.net" := "210.140.131.222",
    "www.pixiv.net" := "210.140.92.186",
    "fanbox.pixiv.net" := "210.140.131.222",
    "goods.pixiv.net" := "210.140.131.222",
    "sensei.pixiv.net" := "210.140.131.222",
    "app-api.pixiv.net" := "210.140.131.222",
    "imgaz.pixiv.net" := "210.140.131.145",
    "i1.pixiv.net" := "210.140.131.145",
    "comic.pixiv.net" := "210.140.131.145",
    "novel.pixiv.net" := "210.140.131.145",
    "source.pixiv.net" := "210.140.131.145",
    "sketch.pixiv.net" := "210.140.174.37",
    "accounts.pixiv.net" := "210.140.131.222",
    "dev.pixiv.net" := "210.140.131.222",
    "festa.pixiv.net" := "210.140.131.222",
    "times.pixiv.net" := "210.140.131.222",
    "iracon.pixiv.net" := "210.140.131.222",
    "matsuri.pixiv.net" := "210.140.131.222",
    "doc.pixiv.net" := "210.140.131.222",
    "g-client-proxy.pixiv.net" := "210.140.131.222"
  ]

  /** The headers the caller passed, or none. */
  function GivenHeaders(req: HttpRequest): map<string, string>
  {
    if req.headers.Some? then req.headers.value else map[]
  }

  /** The fronting branch of `PixivBase.request`, given the host table and the
      `domain_fronting` flag. The table is looked up with the whole netloc, so a
      netloc with a port is never rewritten. */
  function Rewrite(hosts: map<string, string>, enabled: bool, req: HttpRequest): (r: HttpRequest)
    // disabled: the request goes out exactly as the caller made it
    ensures !enabled ==> r == req
    // enabled: Host carries the original netloc ...
    ensures enabled ==> r.headers.Some? && "Host" in r.headers.value && r.headers.value["Host"] == req.url.netloc
    // ... the destination is the table's entry, or the netloc itself when it has none
    ensures enabled ==> r.url.netloc == (if req.url.netloc in hosts then hosts[req.url.netloc] else req.url.netloc)
    // ... the other headers the caller passed are kept, and no other header appears
    ensures enabled ==> r.headers.value.Keys == GivenHeaders(req).Keys + {"Host"}
    ensures enabled ==> forall k :: k in GivenHeaders(req) && k != "Host" ==> r.headers.value[k] == GivenHeaders(req)[k]
    // ... and certificates are not verified
    ensures enabled ==> r.verify == Some(false)
    // scheme, path, query, fragment, method and timeout never change
    ensures r.url.scheme == req.url.scheme && r.url.path == req.url.path
    ensures r.url.query == req.url.query && r.url.fragment == req.url.fragment
    ensures r.verb == req.verb && r.timeout == req.timeout
  {
    if !enabled then req
    else
      var netloc := req.url.netloc;
      req.(url := req.url.(netloc := if netloc in hosts then hosts[netloc] else netloc),
           headers := Some(GivenHeaders(req)["Host" := netloc]),
           verify := Some(false))
  }

  /** `kwargs.setdefault("timeout", self.timeout)`. */
  function WithDefaultTimeout(req: HttpRequest, default: Timeout): (r: HttpRequest)
  {
    if req.timeout.Some? then req else req.(timeout := Some(default))
  }

  /** `XSession.request` after its throttling sleep: one send with the session's
      timeout unless the caller gave one. A transport exception becomes an empty
      response (no status, no body) that keeps the requested URL; any completed
      round trip, whatever its status, is returned as it came. */
  function Deliver(req: HttpRequest, default: Timeout, transport: HttpRequest -> Transport): (res: Response)
    ensures res.status.None? <==> transport(WithDefaultTimeout(req, default)).Raised?
    ensures res.status.None? ==> res.body.None? && res.url == req.url
    ensures res.status.Some? ==>
              var t := transport(WithDefaultTimeout(req, default));
              res.status.value == t.status && res.body == t.body && res.url == t.finalUrl
  {
    match transport(WithDefaultTimeout(req, default))
    case Raised => Response(None, None, req.url)
    case Answered(status, body, finalUrl) => Response(Some(status), body, finalUrl)
  }

  /** A `PixivBase` session and the configuration it keeps in its fields. */
  class PixivBase {
    var interval: int      // seconds between requests, in hundredths; at least 1
    var timeout: Timeout
    var maxRetries: int
    var domainFronting: bool

    /** The class invariant: the constructor sets it up, every setter keeps it,
        and the request methods rely on it. */
    ghost predicate Valid()
      reads this
    {
      interval >= 1
    }

    /** The defaults: 0.01 s interval, 30 s timeout, 3 transport retries, no fronting. */
    constructor ()
      ensures Valid()
      ensures interval == 1 && timeout == Total(3000) && maxRetries == 3 && !domainFronting
    {
      interval := 1;
      timeout := Total(3000);
      maxRetries := 3;
      domainFronting := false;
    }

    /** The `interval` setter clamps to the 0.01 s minimum. */
    method SetInterval(value: int)
      modifies this`interval
      ensures Valid()
      ensures interval == if value < 1 then 1 else value
    {
      interval := if value < 1 then 1 else value;
    }

    method SetTimeout(value: Timeout)
      requires Valid()
      modifies this`timeout
      ensures Valid()
      ensures timeout == value
    {
      timeout := value;
    }

    /** The `max_retries` setter (the transport adapters it remounts are left out). */
    method SetMaxRetries(value: int)
      requires Valid()
      modifies this`maxRetries
      ensures Valid()
      ensures maxRetries == value
    {
      maxRetries := value;
    }

    method SetDomainFronting(value: bool)
      requires Valid()
      modifies this`domainFronting
      ensures Valid()
      ensures domainFronting == value
    {
      domainFronting := value;
    }

    /** `XSession.request` as the session runs it, reading its own `timeout`
        field; `Deliver` is the same send as a function of that value. */
    method SessionRequest(req: HttpRequest, transport: HttpRequest -> Transport) returns (res: Response)
      requires Valid()
      ensures res == Deliver(req, timeout, transport)
    {
      var sent := if req.timeout.Some? then req else req.(timeout := Some(timeout));
      match transport(sent)
      case Raised =>
        res := Response(None, None, req.url);
      case Answered(status, body, finalUrl) =>
        res := Response(Some(status), body, finalUrl);
    }

    /** `PixivBase.request`: the fronting branch updating `components`, the
        headers and `verify` in turn, then `XSession.request`; `Rewrite` is that
        branch as a function, the form the lemmas about the table use. */
    method Request(req: HttpRequest, transport: HttpRequest -> Transport) returns (res: Response)
      requires Valid()
      ensures res == Deliver(Rewrite(PixivHosts, domainFronting, req), timeout, transport)
    {
      var sent := req;
      if domainFronting {
        var components := req.url;
        var headers := if req.headers.Some? then req.headers.value else map[];
        headers := headers["Host" := components.netloc];
        components := components.(netloc := if components.netloc in PixivHosts
                                            then PixivHosts[components.netloc]
                                            else components.netloc);
        sent := sent.(url := components, headers := Some(headers), verify := Some(false));
      }
      res := SessionRequest(sent, transport);
    }
  }

  /** The request of the class's own documentation, rewritten with the table:
      www.pixiv.net is sent to 210.140.92.186 with `Host: www.pixiv.net`. */
  lemma FrontingWwwExample()
    ensures Rewrite(PixivHosts, true,
                    HttpRequest("GET", SplitUrl("https", "www.pixiv.net", "/ajax/top/illust", "mode=all", ""), None, None, None))
         == HttpRequest("GET", SplitUrl("https", "210.140.92.186", "/ajax/top/illust", "mode=all", ""),
                        Some(map["Host" := "www.pixiv.net"]), Some(false), None)
  {
  }

  /** A netloc with a port is not a key of the table: the destination stays as
      it is, while Host still carries it and verification is still off. */
  lemma FrontingKeepsNetlocWithPort()
    ensures var r := Rewrite(PixivHosts, true,
                             HttpRequest("GET", SplitUrl("https", "www.pixiv.net:443", "/", "", ""), None, None, None));
            r.url.netloc == "www.pixiv.net:443" && r.headers == Some(map["Host" := "www.pixiv.net:443"]) &&
            r.verify == Some(false)
  {
  }
}
