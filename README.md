# Edge proxy functions of aetck, modelled in Dafny

This project models the two Netlify edge functions that relay image and API
requests for the front end at `https://aetck.netlify.app`. It proves how each
one answers.

- **`proxy.js`** is the allow-list proxy. It works through these steps in order:
  - It answers a CORS preflight (`OPTIONS`) with 204.
  - It rejects, with 403, a `target` query parameter that is missing, empty,
    or not prefixed by one of five origins.
  - It serves targets containing `pixiv/direct` from the edge cache when an
    entry is present. The key is `__proxy_cache__` + target.
  - Otherwise it fetches the target, racing a 10-second timer.
  - A 2xx answer gets four CORS headers. When cacheable, it also gets a
    `Cache-Control` header and is stored with a TTL of 3600 seconds.
  - Every failure (timeout, network error, non-2xx status, cache-write
    rejection) becomes a 500 with the text `Proxy failed: <message>`.
- **`image-proxy.ts`** is the fixed-host forwarder. It:
  - replaces the hostname of the inbound URL with `image.anosu.top`;
  - sends the request with the inbound method, a browser `User-Agent`, a
    `Referer` and every inbound header;
  - relays whatever status comes back, with two CORS headers and two security
    headers laid over it;
  - turns a thrown error into a 500 with the text `转发失败: <message>`.

The outside world becomes inputs:
- the settled fetch race (`Proxy.FetchOutcome`: `Fetched(response)`,
  `Timeout` or `NetworkError(message)`; `ImageProxy.Outcome` for the forwarder);
- the way the cache's `put` settles (`Proxy.PutOutcome`);
- the contents of the edge cache (`Proxy.Context.cache`).

A ghost log `Proxy.Context.fetched` records every URL fetched upstream. With
it the model can state when a fetch happens and when it does not.

Files:
- `http.dfy` (module `Http`): responses over opaque bodies, header maps with
  exact-string names, and the class `HeaderMap`. `HeaderMap` is the Fetch
  `Headers` object, which both handlers edit in place with `set`.
- `strings.dfy` (module `Strings`): `startsWith`, `includes`, `some` over a
  list of prefixes, and the decimal text of a status code. Each is proved
  against a declarative definition. The decimal text also has a parse-back
  round trip.
- `proxy.dfy` (module `Proxy`):
  - `Decide`, the handler as a pure function from (cache, request, fetch
    outcome, put outcome) to (response, URL fetched, new cache);
  - `Handle`, the step-by-step imperative handler over the mutable `Context`,
    proved to agree with `Decide`;
  - lemmas about `Decide` for each branch and across two calls.
- `image_proxy.dfy` (module `ImageProxy`): the outbound header record and the
  imperative handler, with contracts on the outbound request and the response.

The model follows the code as written. Points worth noting:
- `proxy.js` treats a non-2xx upstream status as a failure (500). It does not
  pass the status through.
- `proxy.js` calls `fetch(target)` with no method, no headers and no body of
  the inbound request.
- The CORS origin is always the fixed front-end origin. It is never an echo of
  the caller's `Origin`. A cache hit sets it to `*`.
- `Access-Control-Allow-Methods` is `GET, OPTIONS`.
  `Access-Control-Allow-Headers` is `Content-Type, Origin, Referer`.
- `proxy.js` sets no `X-Content-Type-Options` header.
- A rejected cache `put` is not swallowed. It happens inside the `try`, so it
  turns into the 500 failure response.
- The target `https://api.waifu.im/foo` is accepted, because the prefix
  `https://api.waifu.im` is in the list (`Proxy.ValidationIsRawPrefix`).
- In `image-proxy.ts`, the inbound headers are spread after the two defaults.
  Their names come from `Headers` iteration, which yields them in lower case.
  So they never overwrite the capitalised `User-Agent` and `Referer` keys, and
  both defaults are always sent beside every inbound entry.

## Model

| member | source | states |
|---|---|---|
| `Strings.SomeStartsWith` | netlify/edge-functions/proxy.js:29 | `prefixes.some(p => s.startsWith(p))` is true iff some element of the list is a raw prefix of `s` |
| `Strings.Includes` | netlify/edge-functions/proxy.js:41 | `s.includes(sub)` is true iff `sub` occurs at some index of `s` |
| `Strings.DecimalString` | netlify/edge-functions/proxy.js:63 | the text of `${status}` is a non-empty run of decimal digits whose first digit is `0` only for zero |
| `Strings.ParseDecimalString` | netlify/edge-functions/proxy.js:63 | reading the decimal text of a number back gives that number |
| `Strings.DecimalStringInjective` | netlify/edge-functions/proxy.js:63 | distinct numbers have distinct decimal texts |
| `Proxy.IsValidTarget` | netlify/edge-functions/proxy.js:20-29 | a target passes iff it is present, non-empty, and starts (as a plain string) with one of the five listed origins |
| `Proxy.AllowedOriginsListed` | netlify/edge-functions/proxy.js:20-26 | starting with some element of `allowedOrigins` is the same as starting with one of the five literals |
| `Proxy.ValidationIsRawPrefix` | netlify/edge-functions/proxy.js:20-29 | `https://aetck.netlify.app.x`, `https://nekos.best.example.com/a` and `https://api.waifu.im/foo` pass; `http://nekos.best/a`, `https://NEKOS.best/a`, the empty parameter and a missing one are rejected |
| `Proxy.CacheKey` | netlify/edge-functions/proxy.js:41-42 | there is a key iff the target contains `pixiv/direct`, and the key is then `__proxy_cache__` + target |
| `Proxy.CacheKeyInjective` | netlify/edge-functions/proxy.js:42 | two targets that have the same cache key are the same target |
| `Proxy.CacheKeyExamples` | netlify/edge-functions/proxy.js:41-42 | `https://image.anosu.top/pixiv/direct/123` is cacheable under its namespaced key; `https://image.anosu.top/pixiv/123` has no key |
| `Proxy.UpstreamFailure` | netlify/edge-functions/proxy.js:56-64 | a fetch outcome raises an error iff it is not a response with status 200..299 |
| `Proxy.StatusFailureDistinguishes` | netlify/edge-functions/proxy.js:63 | different upstream statuses give different error messages |
| `Proxy.Context.Get` | netlify/edge-functions/proxy.js:45 | `cache.get` finds a response iff the key is stored, and returns the stored response |
| `Proxy.Context.Put` | netlify/edge-functions/proxy.js:76 | `cache.put` either stores the response under the key with the given TTL and changes nothing else, or rejects with a message and leaves the cache as it was |
| `Proxy.Handle` | netlify/edge-functions/proxy.js:1-91 | the imperative handler returns `Decide`'s response and leaves the cache as `Decide` says; it logs exactly one fetch, of the target, when `Decide` fetches, and none otherwise |
| `Proxy.PreflightShortCircuits` | netlify/edge-functions/proxy.js:3-14 | OPTIONS yields 204, no body, and exactly Allow-Origin, Allow-Methods, Allow-Headers, Max-Age `86400` and `Vary: Origin`; no fetch, cache unchanged |
| `Proxy.RejectedTargetIsForbidden` | netlify/edge-functions/proxy.js:29-38 | a rejected target yields 403 with body `Invalid target URL` and exactly Allow-Origin, Allow-Methods and `Vary: Origin`; no fetch, cache unchanged |
| `Proxy.CacheHitServesStored` | netlify/edge-functions/proxy.js:44-51 | a hit returns the stored status and body, and the stored headers with only Allow-Origin replaced by `*`; no fetch, cache unchanged |
| `Proxy.ErrorStatusIsFailure` | netlify/edge-functions/proxy.js:61-89 | a non-2xx upstream status yields 500 with body `Proxy failed: Target server responded with <status>` and the two error headers; one fetch of the target, nothing stored |
| `Proxy.TransportErrorIsFailure` | netlify/edge-functions/proxy.js:56-89 | a timeout or a network error yields 500 with body `Proxy failed: ` + message (`Timeout` for the timer) and exactly Allow-Origin and `Content-Type: text/plain`; one fetch, nothing stored |
| `Proxy.SuccessIsDecoratedAndCached` | netlify/edge-functions/proxy.js:66-79 | a 2xx keeps status and body, sets the four CORS headers (and Cache-Control iff cacheable), and keeps every other upstream header; the cache is updated iff cacheable, then at exactly the target's key, to the returned response with TTL 3600 |
| `Proxy.PutFailureIsFailure` | netlify/edge-functions/proxy.js:73-89 | a rejected cache write on a cacheable 2xx yields the 500 failure response carrying the rejection's message, with the cache unchanged |
| `Proxy.FetchOnlyOnMiss` | netlify/edge-functions/proxy.js:3-57 | a fetch happens iff the request is not OPTIONS, the target is valid and the target is not a cache hit; what is fetched is the target itself |
| `Proxy.CacheChangesOnlyAtTargetKey` | netlify/edge-functions/proxy.js:41-77 | every call leaves the cache as it was or writes the returned response, with TTL 3600, under the target's own key |
| `Proxy.AllowOriginAlwaysSet` | netlify/edge-functions/proxy.js:3-89 | every response, on every path, carries Access-Control-Allow-Origin |
| `Proxy.RepeatIsServedFromCache` | netlify/edge-functions/proxy.js:44-77 | after a stored 2xx answer, repeating the request returns the same status and body, the stored headers with Allow-Origin `*`, and makes no second fetch whatever the upstream would now do |
| `ImageProxy.OutboundHeaders` | netlify/edge-functions/image-proxy.ts:13-20 | for lower-case inbound names (as `Headers` iteration yields them), the outbound headers are the inbound names plus `User-Agent` and `Referer`; every inbound entry is kept unchanged; the default `User-Agent` and `Referer: https://aetck.netlify.app` are always present |
| `ImageProxy.Handle` | netlify/edge-functions/image-proxy.ts:3-48 | the request built for upstream (sent only when building it succeeds) keeps the method, has hostname `image.anosu.top` with scheme, port, path, query and fragment kept, and carries the outbound headers; any upstream response is relayed with its status and body and its headers overlaid with exactly the four CORS/security headers; a thrown error yields 500 with body `转发失败: ` + message and exactly nosniff and `Content-Type: text/plain; charset=utf-8`, without Allow-Origin |

## Left out

- The network fetch and the `Promise.race` with a 10-second `setTimeout` are not modelled as timing. Their settled outcome is an input. The constant `UpstreamTimeoutMs` records the 10000 ms as data only.
- Cache TTL expiry and consistency between edge instances belong to the platform's store. An entry records its TTL of 3600, and a present entry is a hit.
- A rejection of `context.cache.get` is not modelled: `Context.Get` always answers. In the source that call is outside the `try`, so its error would escape the handler.
- After a rejected `put`, the model takes the cache to be unchanged. The store's real state at that point is unknown.
- Bodies are opaque values that are copied. Streaming, `response.clone()` and the single-read rule for bodies are not modelled.
- WHATWG URL parsing, query decoding and URL serialisation (`url.toString()`) are not modelled. `proxy.js` gets `target` as an optional string. `image-proxy.ts` gets the inbound URL as a record of its components. The username and password components are not separated out.
- The `Headers` class only approximates the platform's `Headers`. Names are exact strings, so case-insensitive matching is not modelled. Neither is the joining of names that differ only in case in `new Request(..., { headers })`: an inbound `user-agent` or `referer` is sent joined to the default after a comma, while the model keeps the two as separate entries. Netlify's filtering of headers such as `Host` is not modelled either.
- The Fetch `Response` constructor adds a `Content-Type: text/plain;charset=UTF-8` header when it is given a string body and no content type. The model does not add it. The 403 response is therefore modelled with only the three headers the source names.
- `statusText` is not modelled. The platform's upper-casing of standard method names (`options` becomes `OPTIONS`) is not modelled either: the method is compared as given.
- In `image-proxy.ts`, a failure of `new URL(request.url)` is not modelled, because the URL arrives already parsed. Exceptions from `new Request(...)` are folded into the thrown-error input (`ImageProxy.Outcome.Threw`).
- The `config` export of `proxy.js` (the route `/proxy`) is platform routing and is not part of this model.
