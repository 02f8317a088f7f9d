/** The allow-list proxy (`netlify/edge-functions/proxy.js`): answer a CORS
    preflight, validate the `target` query parameter against five origin
    prefixes, serve `pixiv/direct` targets from the edge cache when present,
    otherwise fetch the target with a 10 s timeout, decorate a 2xx answer with
    CORS headers (and cache it when cacheable), and turn every failure into a
    500. The fetch and the cache store's answers are inputs. */
module Proxy {
  import opened Http
  import opened Strings

  const FrontEndOrigin := "https://aetck.netlify.app"

  const AllowOriginName := "Access-Control-Allow-Origin"
  const AllowMethodsName := "Access-Control-Allow-Methods"
  const AllowHeadersName := "Access-Control-Allow-Headers"
  const MaxAgeName := "Access-Control-Max-Age"
  const VaryName := "Vary"
  const ContentTypeName := "Content-Type"
  const CacheControlName := "Cache-Control"

  const AllowedMethods := "GET, OPTIONS"
  const AllowedHeaders := "Content-Type, Origin, Referer"
  const PreflightMaxAge := "86400"

  /** The `allowedOrigins` list, in source order. */
  const AllowedOrigins: seq<string> := [
    "https://www.loliapi.com",
    "https://nekos.best",
    "https://api.waifu.im",
    "https://image.anosu.top",
    "https://aetck.netlify.app"
  ]

  const CacheMarker := "pixiv/direct"
  const CacheNamespace := "__proxy_cache__"
  const CacheControl := "public, max-age=3600, stale-while-revalidate=86400"
  /** Seconds an entry lives in the edge cache; expiry is the store's business. */
  const CacheTtl: nat := 3600
  /** Milliseconds the fetch may take before the race yields `Timeout`. */
  const UpstreamTimeoutMs: nat := 10000

  const TimeoutMessage := "Timeout"
  const InvalidTargetText := "Invalid target URL"
  const FailurePrefix := "Proxy failed: "
  const StatusFailurePrefix := "Target server responded with "

  /** An inbound request: its method, the decoded `target` query parameter
      (absent when the query has none) and its headers, which this handler
      never reads. */
  datatype Request = Request(httpMethod: string, target: Option<string>, headers: Headers)

  /** How the race between `fetch(target)` and the 10 s timer settled. */
  datatype FetchOutcome = Fetched(response: Response) | Timeout | NetworkError(message: string)

  /** How the edge cache's `put` settled. */
  datatype PutOutcome = Stored | PutFailed(message: string)

  /** A stored response together with the TTL it was put with. */
  datatype CacheEntry = CacheEntry(response: Response, ttl: nat)

  /** Everything one call decides: the response, the URL fetched upstream
      (none when no fetch was made) and the cache contents afterwards. */
  datatype Decision = Decision(response: Response, fetched: Option<string>, cache: map<string, CacheEntry>)

  function PreflightResponse(): Response {
    Response(204,
      map[AllowOriginName := FrontEndOrigin, AllowMethodsName := AllowedMethods,
          AllowHeadersName := AllowedHeaders, MaxAgeName := PreflightMaxAge, VaryName := "Origin"],
      NoBody)
  }

  function RejectedResponse(): Response {
    Response(403,
      map[AllowOriginName := FrontEndOrigin, AllowMethodsName := AllowedMethods, VaryName := "Origin"],
      Text(InvalidTargetText))
  }

  function FailureResponse(message: string): Response {
    Response(500,
      map[AllowOriginName := FrontEndOrigin, ContentTypeName := "text/plain"],
      Text(FailurePrefix + message))
  }

  /** `!target || !allowedOrigins.some(origin => target.startsWith(origin))`
      is false: the parameter is present, non-empty, and starts with one of the
      five prefixes as a plain string. */
  function IsValidTarget(target: Option<string>): (ok: bool)
    ensures ok <==> (target.Some? && target.value != "" &&
                     (|| StartsWith(target.value, "https://www.loliapi.com")
                      || StartsWith(target.value, "https://nekos.best")
                      || StartsWith(target.value, "https://api.waifu.im")
                      || StartsWith(target.value, "https://image.anosu.top")
                      || StartsWith(target.value, "https://aetck.netlify.app")))
  {
    if target.None? || target.value == "" then false
    else AllowedOriginsListed(target.value); SomeStartsWith(AllowedOrigins, target.value)
  }

  /** Starting with some element of `AllowedOrigins` is starting with one of
      the five literals. */
  lemma AllowedOriginsListed(s: string)
    ensures (exists i :: 0 <= i < |AllowedOrigins| && StartsWith(s, AllowedOrigins[i])) <==>
            (|| StartsWith(s, "https://www.loliapi.com")
             || StartsWith(s, "https://nekos.best")
             || StartsWith(s, "https://api.waifu.im")
             || StartsWith(s, "https://image.anosu.top")
             || StartsWith(s, "https://aetck.netlify.app"))
  {
    if StartsWith(s, "https://www.loliapi.com") { assert StartsWith(s, AllowedOrigins[0]); }
    if StartsWith(s, "https://nekos.best") { assert StartsWith(s, AllowedOrigins[1]); }
    if StartsWith(s, "https://api.waifu.im") { assert StartsWith(s, AllowedOrigins[2]); }
    if StartsWith(s, "https://image.anosu.top") { assert StartsWith(s, AllowedOrigins[3]); }
    if StartsWith(s, "https://aetck.netlify.app") { assert StartsWith(s, AllowedOrigins[4]); }
  }

  /** `isPixivRequest ? "__proxy_cache__" + target : null`: a key exactly when
      the target contains `pixiv/direct` somewhere. */
  function CacheKey(target: string): (key: Option<string>)
    ensures key.Some? <==> exists i: nat :: OccursAt(target, CacheMarker, i)
    ensures key.Some? ==> key.value == CacheNamespace + target
  {
    if Includes(target, CacheMarker) then Some(CacheNamespace + target) else None
  }

  /** The message of the error thrown for a non-2xx upstream status. */
  function StatusFailure(status: nat): string {
    StatusFailurePrefix + DecimalString(status)
  }

  /** The message of the error the `try` block throws for an upstream outcome,
      or none when that outcome is a 2xx response. */
  function UpstreamFailure(upstream: FetchOutcome): (message: Option<string>)
    ensures message.None? <==> upstream.Fetched? && IsOkStatus(upstream.response.status)
  {
    match upstream
    case Timeout => Some(TimeoutMessage)
    case NetworkError(m) => Some(m)
    case Fetched(r) => if IsOkStatus(r.status) then None else Some(StatusFailure(r.status))
  }

  /** A cached response re-issued with an `Access-Control-Allow-Origin` of `*`. */
  function FromCache(cached: Response): Response {
    cached.(headers := cached.headers[AllowOriginName := "*"])
  }

  /** A 2xx upstream response with the four CORS headers set. */
  function WithCors(upstream: Response): Response {
    upstream.(headers := upstream.headers[AllowOriginName := FrontEndOrigin]
                                         [AllowMethodsName := AllowedMethods]
                                         [AllowHeadersName := AllowedHeaders]
                                         [VaryName := "Origin"])
  }

  function WithCacheControl(r: Response): Response {
    r.(headers := r.headers[CacheControlName := CacheControl])
  }

  /** The handler's behaviour as a value: the response, the fetch made and the
      new cache, for a given cache, request and answers of the outside world. */
  function Decide(cache: map<string, CacheEntry>, request: Request, upstream: FetchOutcome, put: PutOutcome): Decision {
    if request.httpMethod == "OPTIONS" then Decision(PreflightResponse(), None, cache)
    else if !IsValidTarget(request.target) then Decision(RejectedResponse(), None, cache)
    else
      var target := request.target.value;
      var key := CacheKey(target);
      if key.Some? && key.value in cache then Decision(FromCache(cache[key.value].response), None, cache)
      else
        match UpstreamFailure(upstream)
        case Some(message) => Decision(FailureResponse(message), Some(target), cache)
        case None =>
          var decorated := WithCors(upstream.response);
          if key.None? then Decision(decorated, Some(target), cache)
          else
            var stored := WithCacheControl(decorated);
            match put
            case Stored => Decision(stored, Some(target), cache[key.value := CacheEntry(stored, CacheTtl)])
            case PutFailed(message) => Decision(FailureResponse(message), Some(target), cache)
  }

  /** The `context` the platform passes in: its edge cache, and a ghost log of
      the URLs fetched upstream so far. */
  class Context {
    var cache: map<string, CacheEntry>
    ghost var fetched: seq<string>

    constructor (entries: map<string, CacheEntry>)
      ensures cache == entries && fetched == []
    {
      cache := entries;
      fetched := [];
    }

    /** `context.cache.get(key)`. */
    method Get(key: string) returns (hit: Option<Response>)
      ensures hit.Some? <==> key in cache
      ensures hit.Some? ==> hit.value == cache[key].response
    {
      hit := if key in cache then Some(cache[key].response) else None;
    }

    /** `context.cache.put(key, response, { ttl })`, settling as `outcome`
        says; a rejection is returned as the error's message. */
    method Put(key: string, response: Response, ttl: nat, outcome: PutOutcome) returns (error: Option<string>)
      modifies this
      ensures error == if outcome.PutFailed? then Some(outcome.message) else None
      ensures cache == if outcome.Stored? then old(cache)[key := CacheEntry(response, ttl)] else old(cache)
      ensures fetched == old(fetched)
    {
      match outcome
      case Stored =>
        cache := cache[key := CacheEntry(response, ttl)];
        error := None;
      case PutFailed(message) =>
        error := Some(message);
    }
  }

  /** The default-export handler, step by step as the source runs it. */
  method Handle(request: Request, context: Context, upstream: FetchOutcome, put: PutOutcome) returns (response: Response)
    modifies context
    ensures var d := Decide(old(context.cache), request, upstream, put);
      && response == d.response
      && context.cache == d.cache
      && context.fetched == old(context.fetched) + (if d.fetched.Some? then [d.fetched.value] else [])
  {
    if request.httpMethod == "OPTIONS" {
      return PreflightResponse();
    }
    var target := request.target;
    if target.None? || target.value == "" || !SomeStartsWith(AllowedOrigins, target.value) {
      return RejectedResponse();
    }
    var isPixivRequest := Includes(target.value, CacheMarker);
    var cacheKey: Option<string> := if isPixivRequest then Some(CacheNamespace + target.value) else None;
    if cacheKey.Some? {
      var cached := context.Get(cacheKey.value);
      if cached.Some? {
        var headers := new HeaderMap(cached.value.headers);
        headers.Set(AllowOriginName, "*");
        return Response(cached.value.status, headers.entries, cached.value.body);
      }
    }
    context.fetched := context.fetched + [target.value];
    match upstream {
      case Timeout =>
        return FailureResponse(TimeoutMessage);
      case NetworkError(message) =>
        return FailureResponse(message);
      case Fetched(upstreamResponse) =>
        if !IsOkStatus(upstreamResponse.status) {
          return FailureResponse(StatusFailure(upstreamResponse.status));
        }
        var headers := new HeaderMap(upstreamResponse.headers);
        headers.Set(AllowOriginName, FrontEndOrigin);
        headers.Set(AllowMethodsName, AllowedMethods);
        headers.Set(AllowHeadersName, AllowedHeaders);
        headers.Set(VaryName, "Origin");
        if isPixivRequest {
          headers.Set(CacheControlName, CacheControl);
          var putError := context.Put(cacheKey.value, Response(upstreamResponse.status, headers.entries, upstreamResponse.body), CacheTtl, put);
          if putError.Some? {
            return FailureResponse(putError.value);
          }
        }
        return Response(upstreamResponse.status, headers.entries, upstreamResponse.body);
    }
  }

  // ---------------------------------------------------------------------------
  // Properties of the handler

  /** A preflight is answered with 204, no body and exactly the five CORS
      headers, before validation, cache or fetch. */
  lemma PreflightShortCircuits(cache: map<string, CacheEntry>, request: Request, upstream: FetchOutcome, put: PutOutcome)
    requires request.httpMethod == "OPTIONS"
    ensures var d := Decide(cache, request, upstream, put);
      && d.response.status == 204
      && d.response.body == NoBody
      && d.response.headers == map[
           "Access-Control-Allow-Origin" := "https://aetck.netlify.app",
           "Access-Control-Allow-Methods" := "GET, OPTIONS",
           "Access-Control-Allow-Headers" := "Content-Type, Origin, Referer",
           "Access-Control-Max-Age" := "86400",
           "Vary" := "Origin"]
      && d.fetched.None? && d.cache == cache
  {
  }

  /** A non-preflight request whose target fails validation gets 403 with the
      fixed text and three headers; nothing is fetched and the cache stays. */
  lemma RejectedTargetIsForbidden(cache: map<string, CacheEntry>, request: Request, upstream: FetchOutcome, put: PutOutcome)
    requires request.httpMethod != "OPTIONS" && !IsValidTarget(request.target)
    ensures var d := Decide(cache, request, upstream, put);
      && d.response.status == 403
      && d.response.body == Text("Invalid target URL")
      && d.response.headers == map[
           "Access-Control-Allow-Origin" := "https://aetck.netlify.app",
           "Access-Control-Allow-Methods" := "GET, OPTIONS",
           "Vary" := "Origin"]
      && d.fetched.None? && d.cache == cache
  {
  }

  /** Validation is a raw prefix test: a look-alike host that merely extends an
      allowed origin passes, a different scheme or a missing or empty parameter
      does not. */
  lemma ValidationIsRawPrefix()
    ensures IsValidTarget(Some("https://aetck.netlify.app.x"))
    ensures IsValidTarget(Some("https://nekos.best.example.com/a"))
    ensures IsValidTarget(Some("https://api.waifu.im/foo"))
    ensures !IsValidTarget(Some("http://nekos.best/a"))
    ensures !IsValidTarget(Some("https://NEKOS.best/a"))
    ensures !IsValidTarget(Some(""))
    ensures !IsValidTarget(None)
  {
    assert StartsWith("https://aetck.netlify.app.x", "https://aetck.netlify.app");
    assert StartsWith("https://nekos.best.example.com/a", "https://nekos.best");
    assert StartsWith("https://api.waifu.im/foo", "https://api.waifu.im");
    var http := "http://nekos.best/a";
    forall i | 0 <= i < |AllowedOrigins| ensures !StartsWith(http, AllowedOrigins[i]) {
      assert AllowedOrigins[i][4] == 's';
      if |AllowedOrigins[i]| <= |http| { assert http[..|AllowedOrigins[i]|][4] == http[4] == ':'; }
    }
    var upper := "https://NEKOS.best/a";
    forall i | 0 <= i < |AllowedOrigins| ensures !StartsWith(upper, AllowedOrigins[i]) {
      assert 'a' <= AllowedOrigins[i][8] <= 'z';
      if |AllowedOrigins[i]| <= |upper| { assert upper[..|AllowedOrigins[i]|][8] == upper[8] == 'N'; }
    }
  }

  /** Two targets with the same cache key are the same target. */
  lemma CacheKeyInjective(a: string, b: string)
    requires CacheKey(a).Some? && CacheKey(a) == CacheKey(b)
    ensures a == b
  {
    var n := |CacheNamespace|;
    assert a == (CacheNamespace + a)[n..];
    assert b == (CacheNamespace + b)[n..];
  }

  /** A `pixiv/direct` path is cacheable, a sibling path is not. */
  lemma CacheKeyExamples()
    ensures var t := "https://image.anosu.top/pixiv/direct/123"; CacheKey(t) == Some(CacheNamespace + t)
    ensures CacheKey("https://image.anosu.top/pixiv/123").None?
  {
    assert OccursAt("https://image.anosu.top/pixiv/direct/123", CacheMarker, 24);
    var t := "https://image.anosu.top/pixiv/123";
    assert forall j :: 0 <= j < |t| ==> t[j] != 'd';
    forall i: nat ensures !OccursAt(t, CacheMarker, i) {
      if i + |CacheMarker| <= |t| {
        assert t[i..i + |CacheMarker|][6] == t[i + 6];
      }
    }
  }

  /** A cache hit returns the stored status and body, with only the
      Allow-Origin header replaced by `*`; nothing is fetched or stored. */
  lemma CacheHitServesStored(cache: map<string, CacheEntry>, request: Request, upstream: FetchOutcome, put: PutOutcome)
    requires request.httpMethod != "OPTIONS" && IsValidTarget(request.target)
    requires CacheKey(request.target.value).Some?
    requires CacheNamespace + request.target.value in cache
    ensures var d := Decide(cache, request, upstream, put);
      var cached := cache[CacheNamespace + request.target.value].response;
      && d.response.status == cached.status
      && d.response.body == cached.body
      && d.response.headers == cached.headers["Access-Control-Allow-Origin" := "*"]
      && d.fetched.None? && d.cache == cache
  {
  }

  /** An upstream status outside 200..299 becomes a 500 naming that status;
      the target was fetched once and nothing is stored. */
  lemma ErrorStatusIsFailure(cache: map<string, CacheEntry>, request: Request, upstream: FetchOutcome, put: PutOutcome)
    requires request.httpMethod != "OPTIONS" && IsValidTarget(request.target)
    requires var key := CacheKey(request.target.value); !(key.Some? && key.value in cache)
    requires upstream.Fetched? && !(200 <= upstream.response.status <= 299)
    ensures var d := Decide(cache, request, upstream, put);
      && d.response.status == 500
      && d.response.body == Text("Proxy failed: Target server responded with " + DecimalString(upstream.response.status))
      && d.response.headers == map["Access-Control-Allow-Origin" := "https://aetck.netlify.app", "Content-Type" := "text/plain"]
      && d.fetched == Some(request.target.value) && d.cache == cache
  {
    var d := Decide(cache, request, upstream, put);
    assert d.response == FailureResponse(StatusFailure(upstream.response.status));
    StatusFailureText(upstream.response.status);
  }

  lemma StatusFailureText(status: nat)
    ensures FailurePrefix + StatusFailure(status) == "Proxy failed: Target server responded with " + DecimalString(status)
  {
  }

  /** Different upstream statuses give different failure texts. */
  lemma StatusFailureDistinguishes(a: nat, b: nat)
    requires StatusFailure(a) == StatusFailure(b)
    ensures a == b
  {
    var n := |StatusFailurePrefix|;
    assert DecimalString(a) == StatusFailure(a)[n..];
    assert DecimalString(b) == StatusFailure(b)[n..];
    DecimalStringInjective(a, b);
  }

  /** A timeout or a network error becomes a 500 carrying the error's message
      (`Timeout` for the timer) and exactly two headers. */
  lemma TransportErrorIsFailure(cache: map<string, CacheEntry>, request: Request, upstream: FetchOutcome, put: PutOutcome)
    requires request.httpMethod != "OPTIONS" && IsValidTarget(request.target)
    requires var key := CacheKey(request.target.value); !(key.Some? && key.value in cache)
    requires !upstream.Fetched?
    ensures var d := Decide(cache, request, upstream, put);
      var message := if upstream.Timeout? then "Timeout" else upstream.message;
      && d.response.status == 500
      && d.response.body == Text("Proxy failed: " + message)
      && d.response.headers == map["Access-Control-Allow-Origin" := "https://aetck.netlify.app", "Content-Type" := "text/plain"]
      && d.fetched == Some(request.target.value) && d.cache == cache
  {
  }

  /** A 2xx upstream response keeps its status and body, gains the four CORS
      headers (and Cache-Control when cacheable) and keeps every other header;
      a cacheable one is stored under its key, with TTL 3600, exactly as
      returned, and no other key changes. */
  lemma SuccessIsDecoratedAndCached(cache: map<string, CacheEntry>, request: Request, upstream: FetchOutcome, put: PutOutcome)
    requires request.httpMethod != "OPTIONS" && IsValidTarget(request.target)
    requires var key := CacheKey(request.target.value); !(key.Some? && key.value in cache)
    requires upstream.Fetched? && 200 <= upstream.response.status <= 299
    requires CacheKey(request.target.value).Some? ==> put.Stored?
    ensures var d := Decide(cache, request, upstream, put);
      var target := request.target.value;
      var cacheable := exists i: nat :: OccursAt(target, "pixiv/direct", i);
      var h := d.response.headers;
      var added := {"Access-Control-Allow-Origin", "Access-Control-Allow-Methods", "Access-Control-Allow-Headers", "Vary"}
                   + (if cacheable then {"Cache-Control"} else {});
      && d.response.status == upstream.response.status
      && d.response.body == upstream.response.body
      && h.Keys == upstream.response.headers.Keys + added
      && h["Access-Control-Allow-Origin"] == "https://aetck.netlify.app"
      && h["Access-Control-Allow-Methods"] == "GET, OPTIONS"
      && h["Access-Control-Allow-Headers"] == "Content-Type, Origin, Referer"
      && h["Vary"] == "Origin"
      && (cacheable ==> h["Cache-Control"] == "public, max-age=3600, stale-while-revalidate=86400")
      && (forall name :: name in upstream.response.headers && name !in added ==> h[name] == upstream.response.headers[name])
      && d.fetched == Some(target)
      && d.cache == if cacheable then cache["__proxy_cache__" + target := CacheEntry(d.response, 3600)] else cache
  {
  }

  /** A cacheable 2xx response whose `put` rejects is answered with a 500
      carrying the rejection's message. */
  lemma PutFailureIsFailure(cache: map<string, CacheEntry>, request: Request, upstream: FetchOutcome, put: PutOutcome)
    requires request.httpMethod != "OPTIONS" && IsValidTarget(request.target)
    requires var key := CacheKey(request.target.value); key.Some? && key.value !in cache
    requires upstream.Fetched? && 200 <= upstream.response.status <= 299
    requires put.PutFailed?
    ensures var d := Decide(cache, request, upstream, put);
      && d.response == Response(500,
           map["Access-Control-Allow-Origin" := "https://aetck.netlify.app", "Content-Type" := "text/plain"],
           Text("Proxy failed: " + put.message))
      && d.fetched == Some(request.target.value) && d.cache == cache
  {
  }

  /** Exactly one fetch, of the target itself, happens precisely for a valid
      non-preflight request that is not a cache hit. */
  lemma FetchOnlyOnMiss(cache: map<string, CacheEntry>, request: Request, upstream: FetchOutcome, put: PutOutcome)
    ensures var d := Decide(cache, request, upstream, put);
      && (d.fetched.Some? <==>
            request.httpMethod != "OPTIONS" && IsValidTarget(request.target) &&
            !(CacheKey(request.target.value).Some? && CacheNamespace + request.target.value in cache))
      && (d.fetched.Some? ==> d.fetched == request.target)
  {
  }

  /** The cache changes in at most one key, the target's, and then to the
      response returned with TTL 3600; entries are never removed. */
  lemma CacheChangesOnlyAtTargetKey(cache: map<string, CacheEntry>, request: Request, upstream: FetchOutcome, put: PutOutcome)
    ensures var d := Decide(cache, request, upstream, put);
      || d.cache == cache
      || (&& request.target.Some?
          && CacheKey(request.target.value).Some?
          && d.cache == cache[CacheNamespace + request.target.value := CacheEntry(d.response, CacheTtl)])
  {
  }

  /** Every response carries an Access-Control-Allow-Origin header. */
  lemma AllowOriginAlwaysSet(cache: map<string, CacheEntry>, request: Request, upstream: FetchOutcome, put: PutOutcome)
    ensures AllowOriginName in Decide(cache, request, upstream, put).response.headers
  {
  }

  /** Repeating a cacheable request after a stored 2xx answer is served from
      the cache: same status and body, the stored headers with Allow-Origin
      `*`, and no second fetch, whatever the upstream would do now. */
  lemma RepeatIsServedFromCache(cache: map<string, CacheEntry>, request: Request, upstream: FetchOutcome,
                                again: Request, upstream2: FetchOutcome, put2: PutOutcome)
    requires request.httpMethod != "OPTIONS" && IsValidTarget(request.target)
    requires CacheKey(request.target.value).Some?
    requires upstream.Fetched? && 200 <= upstream.response.status <= 299
    requires again.httpMethod != "OPTIONS" && again.target == request.target
    ensures var first := Decide(cache, request, upstream, Stored);
      var second := Decide(first.cache, again, upstream2, put2);
      && second.response.status == first.response.status
      && second.response.body == first.response.body
      && second.response.headers == first.response.headers[AllowOriginName := "*"]
      && second.fetched.None?
      && second.cache == first.cache
  {
  }
}
