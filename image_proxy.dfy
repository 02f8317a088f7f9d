/** The fixed-host forwarder (`netlify/edge-functions/image-proxy.ts`): the
    inbound URL is re-pointed at `image.anosu.top`, sent with two browser-like
    default headers plus every inbound header, and whatever comes back is
    relayed with CORS and security headers laid over it; a thrown error
    becomes a 500. The fetch's answer is an input. */
module ImageProxy {
  import opened Http

  const UpstreamHost := "image.anosu.top"
  const BrowserUserAgent := "Mozilla/5.0 (Windows NT 10.0; Win64; x64) AppleWebKit/537.36 (KHTML, like Gecko) Chrome/126.0.0.0 Safari/537.36"
  const SiteReferer := "https://aetck.netlify.app"
  const FrontEndOrigin := "https://aetck.netlify.app"
  const AllowedMethods := "GET, OPTIONS"

  const UserAgentName := "User-Agent"
  const RefererName := "Referer"
  const AllowOriginName := "Access-Control-Allow-Origin"
  const AllowMethodsName := "Access-Control-Allow-Methods"
  const NoSniffName := "X-Content-Type-Options"
  const XssProtectionName := "X-XSS-Protection"
  const ContentTypeName := "Content-Type"

  const ErrorPrefix := "转发失败: "

  /** The parts of a parsed WHATWG URL that its serialisation is made of. */
  datatype Url = Url(protocol: string, hostname: string, port: string, pathname: string, search: string, hash: string)

  /** A request: method, URL and headers. The outbound request carries no
      body, because the source builds it without one. */
  datatype Request = Request(httpMethod: string, url: Url, headers: Headers)

  /** What `fetch(proxyRequest)` did: answered, or threw with a message. */
  datatype Outcome = Responded(response: Response) | Threw(message: string)

  /** A header name as `Headers` iteration yields it: no ASCII upper-case
      letter, since the platform lower-cases every name. */
  predicate IsLowerCaseName(name: string) {
    forall i :: 0 <= i < |name| ==> !('A' <= name[i] <= 'Z')
  }

  /** The header record `{ "User-Agent": …, "Referer": …, ...inbound }`. The
      spread's names come from `request.headers.entries()` and are lower-case,
      so they never coincide with the two capitalised defaults: both defaults
      are always present and every inbound entry is kept as it is. */
  function OutboundHeaders(inbound: Headers): (h: Headers)
    requires forall name :: name in inbound ==> IsLowerCaseName(name)
    ensures h.Keys == inbound.Keys + {"User-Agent", "Referer"}
    ensures forall name :: name in inbound ==> h[name] == inbound[name]
    ensures h["User-Agent"] == BrowserUserAgent
    ensures h["Referer"] == "https://aetck.netlify.app"
  {
    assert !IsLowerCaseName(UserAgentName) by { assert UserAgentName[0] == 'U'; }
    assert !IsLowerCaseName(RefererName) by { assert RefererName[0] == 'R'; }
    map[UserAgentName := BrowserUserAgent, RefererName := SiteReferer] + inbound
  }

  /** The handler: the request it builds for upstream, and the response it
      gives. `forwarded` is the request as built; it is sent only when building
      it succeeds, and a failure to build it is part of `Threw`, in which case
      nothing reaches the upstream. */
  method Handle(request: Request, upstream: Outcome) returns (forwarded: Request, response: Response)
    requires forall name :: name in request.headers ==> IsLowerCaseName(name)
    ensures forwarded.httpMethod == request.httpMethod
    ensures && forwarded.url.hostname == "image.anosu.top"
            && forwarded.url.protocol == request.url.protocol
            && forwarded.url.port == request.url.port
            && forwarded.url.pathname == request.url.pathname
            && forwarded.url.search == request.url.search
            && forwarded.url.hash == request.url.hash
    ensures forwarded.headers == OutboundHeaders(request.headers)
    ensures upstream.Responded? ==>
      var relayed := upstream.response;
      var added := {"Access-Control-Allow-Origin", "Access-Control-Allow-Methods", "X-Content-Type-Options", "X-XSS-Protection"};
      && response.status == relayed.status
      && response.body == relayed.body
      && response.headers.Keys == relayed.headers.Keys + added
      && response.headers["Access-Control-Allow-Origin"] == "https://aetck.netlify.app"
      && response.headers["Access-Control-Allow-Methods"] == "GET, OPTIONS"
      && response.headers["X-Content-Type-Options"] == "nosniff"
      && response.headers["X-XSS-Protection"] == "1; mode=block"
      && (forall name :: name in relayed.headers && name !in added ==> response.headers[name] == relayed.headers[name])
    ensures upstream.Threw? ==>
      && response.status == 500
      && response.body == Text("转发失败: " + upstream.message)
      && response.headers == map["X-Content-Type-Options" := "nosniff", "Content-Type" := "text/plain; charset=utf-8"]
      && "Access-Control-Allow-Origin" !in response.headers
  {
    var url := request.url;
    url := url.(hostname := UpstreamHost);
    forwarded := Request(request.httpMethod, url, OutboundHeaders(request.headers));
    match upstream {
      case Threw(message) =>
        response := Response(500,
          map[NoSniffName := "nosniff", ContentTypeName := "text/plain; charset=utf-8"],
          Text(ErrorPrefix + message));
      case Responded(relayed) =>
        var headers := new HeaderMap(relayed.headers);
        headers.Set(AllowOriginName, FrontEndOrigin);
        headers.Set(AllowMethodsName, AllowedMethods);
        headers.Set(NoSniffName, "nosniff");
        headers.Set(XssProtectionName, "1; mode=block");
        response := Response(relayed.status, headers.entries, relayed.body);
    }
  }
}
