# WebProxyServlet, modelled in Dafny

`WebProxyServlet` forwards an HTTP request to a configured target service. It
relays the answer back to the caller. Static headers can be added on each leg:
`injectRequestHeaders` on the forwarded request and `injectResponseHeaders` on
the response to the caller. This project models the servlet's decision
pipeline with the network call replaced by a parameter. It proves what the
caller and the target service see.

- `RequestMapping` (pure): `SelectMethod` is `getRequest`'s case-sensitive
  choice of request class, with GET as the fallback. `IndexOf` is Java's
  `String.indexOf`. `TargetUrl` is the target-URL expression, including its
  quirks:
  - the `"?"` is always appended;
  - a null query string is written as the text `null`;
  - the suffix starts after the first occurrence of the servlet path, wherever
    that occurrence is;
  - a servlet path that does not occur makes the substring start at
    `|servletPath| - 1`, or throw `StringIndexOutOfBoundsException` when that
    is past the end of the URI.
- `HeaderMaps`: headers are a map from name to value, because `setHeader`
  overwrites. `SetAll` is the specification of copying a list of headers in
  order. `Headers` is a message's header set, updated in place. `Inject` is
  the `forEach(msg::setHeader)` loop; it picks names in an arbitrary order and
  is proved to give the same map whatever the order. `CopyAll` is the
  `copyResponse` loop over upstream headers.
- `WebProxy`: `Response` is the caller-facing response, `ProxyRequest` the
  forwarded request, and `Proxy` the servlet with its fixed configuration.
  `Service`, `MakeProxyRequest`, `CopyResponse` and `GetRequest` follow the
  Java methods statement by statement. Exceptions are explicit:
  - an `IOException` from the upstream call is caught by `service` and becomes
    status 404;
  - three exceptions escape `service`, and the model reports each one with the
    state of the response at that point:
    - `StringIndexOutOfBoundsException` from `substring`;
    - `IllegalArgumentException` from `URI.create`, which every request class
      calls on the target URL; no request is built then;
    - `NullPointerException` from `entity.getContent()` on a response without
      an entity.
  `Handle` runs one request on a fresh response, as the container does. It
  states the caller's view as values.

The upstream call is the parameter `Upstream`: either `Failed` (an
`IOException`) or `Delivered` with a status, the headers in order, and an
entity that may be absent. Which strings `URI.create` accepts is the parameter
`acceptsUri`.

Quirks of the code that the model keeps as written:
- A missing query string gives a URL ending in `?null`, not `?`.
- The suffix comes from the first occurrence of the servlet path, not from
  stripping a prefix.
- No inbound header is copied to the forwarded request: only the configured
  request headers are set. The class comment
  (WebProxyServlet.java, lines 49-51) says client request headers are passed
  on as they are, but the code does not do this.
- `getRequest` can build an OPTIONS request, but `service` answers OPTIONS
  itself, so that branch is never reached.
- A response without an entity raises a `NullPointerException` after status
  and headers have been copied. The configured response headers are then not
  applied.

## Model

| member | source | states |
|---|---|---|
| `RequestMapping.SelectMethod` | src/main/java/com/googlecode/webutilities/servlets/WebProxyServlet.java:110-123 | the request class is other than GET exactly when the name is one of POST, PUT, DELETE, OPTIONS, HEAD, and then its name equals the inbound name |
| `RequestMapping.SelectMethodByName` | src/main/java/com/googlecode/webutilities/servlets/WebProxyServlet.java:110-123 | each class is selected by its own name (GET included), and a non-GET class by no other string |
| `RequestMapping.LowerCaseFallsBack` | src/main/java/com/googlecode/webutilities/servlets/WebProxyServlet.java:111-122 | the comparison is case-sensitive: `post`, `options`, `PATCH` and the empty name all give GET |
| `RequestMapping.IndexOf` | src/main/java/com/googlecode/webutilities/servlets/WebProxyServlet.java:131 | the result is the first index where the servlet path occurs in the URI, or -1 exactly when it occurs nowhere |
| `RequestMapping.TargetUrl` | src/main/java/com/googlecode/webutilities/servlets/WebProxyServlet.java:126-132 | with a first occurrence at i, the URL is base + URI after i + `?` + the query (or the text `null` when there is none); with no occurrence, the suffix starts one before the servlet path's length, and the call throws `StringIndexOutOfBoundsException` when that is out of range; no other exception |
| `RequestMapping.TargetUrlOfMountedPath` | src/main/java/com/googlecode/webutilities/servlets/WebProxyServlet.java:131-132 | for a URI that is the servlet path plus a rest, the URL is base + rest + `?` + query; it ends in `?null` with no query and in a bare `?` with an empty one |
| `RequestMapping.ContextContainsServletPath` | src/main/java/com/googlecode/webutilities/servlets/WebProxyServlet.java:131-132 | for a URI made of a context path, the servlet path and a rest, where the context path already contains the servlet path first at i, the URL is base + the context path after i + servlet path + rest + `?` + query |
| `RequestMapping.FirstOccurrenceWins` | src/main/java/com/googlecode/webutilities/servlets/WebProxyServlet.java:131 | one instance: under context path `/proxy-app`, servlet `/proxy` forwards `/proxy-app/proxy/v1` as `http://api-app/proxy/v1?a=1` |
| `HeaderMaps.SetAllKeys` | src/main/java/com/googlecode/webutilities/servlets/WebProxyServlet.java:149-151 | copying upstream headers adds exactly their names to the header map |
| `HeaderMaps.SetAllLastWins` | src/main/java/com/googlecode/webutilities/servlets/WebProxyServlet.java:149-151 | a header name takes the value of its last upstream occurrence |
| `HeaderMaps.SetAllUntouched` | src/main/java/com/googlecode/webutilities/servlets/WebProxyServlet.java:149-151 | a name the upstream does not send keeps its earlier value, or stays absent |
| `HeaderMaps.Headers.Set` | src/main/java/com/googlecode/webutilities/servlets/WebProxyServlet.java:150 | `setHeader` replaces the value of that name and changes no other header |
| `HeaderMaps.Headers.Inject` | src/main/java/com/googlecode/webutilities/servlets/WebProxyServlet.java:139 | after injection every configured header has its configured value and every other header is unchanged, for any iteration order of the configuration map |
| `HeaderMaps.Headers.CopyAll` | src/main/java/com/googlecode/webutilities/servlets/WebProxyServlet.java:149-151 | the header map after the loop is the old map with the upstream headers set one by one, in order |
| `WebProxy.Proxy.constructor` | src/main/java/com/googlecode/webutilities/servlets/WebProxyServlet.java:75-89 | the base URI and both header maps are fixed at construction; they are constants afterwards |
| `WebProxy.Proxy.GetRequest` | src/main/java/com/googlecode/webutilities/servlets/WebProxyServlet.java:110-123 | when `URI.create` refuses the URL, `IllegalArgumentException` and no request; otherwise a freshly built request of the selected class, with the given URL and no headers |
| `WebProxy.Proxy.CopyResponse` | src/main/java/com/googlecode/webutilities/servlets/WebProxyServlet.java:147-154 | status equals the upstream status; headers are the upstream headers set in order; the body gains the upstream bytes, or a `NullPointerException` is raised when there is no entity |
| `WebProxy.Proxy.MakeProxyRequest` | src/main/java/com/googlecode/webutilities/servlets/WebProxyServlet.java:125-145 | a bad substring or a URL that `URI.create` refuses raises before any request is built; otherwise the fresh request has the selected class, the target URL and exactly the configured request headers; an upstream failure leaves the response untouched and raises `IOException`; a relayed response gets the configured response headers on top of the upstream ones |
| `WebProxy.Proxy.Service` | src/main/java/com/googlecode/webutilities/servlets/WebProxyServlet.java:92-108 | OPTIONS gives status 200 and the response headers, with no request built; a bad substring or a refused URL raises with nothing built or changed; an `IOException` becomes status 404 with headers and body untouched; other exceptions escape; otherwise the relayed status, headers and body |
| `WebProxy.Proxy.Handle` | src/main/java/com/googlecode/webutilities/servlets/WebProxyServlet.java:92-108 | on a fresh response: OPTIONS gives exactly (200, response headers, empty body) and nothing is sent; a bad substring or a refused URL raises and nothing is sent; an upstream failure gives exactly (404, no headers, empty body); success gives the upstream status, the upstream headers overlaid by the response headers, and the upstream body; the sent request carries exactly the configured request headers and is never an OPTIONS request |
| `WebProxy.RelayedHeaders` | src/main/java/com/googlecode/webutilities/servlets/WebProxyServlet.java:141-153 | on a relayed response, a configured response header wins over an upstream one of the same name; a name set by neither side is absent |
| `WebProxy.RelayedUpstreamHeader` | src/main/java/com/googlecode/webutilities/servlets/WebProxyServlet.java:141-153 | an upstream header that is not configured reaches the caller with the value of its last upstream occurrence |

## Left out

- The HTTP call itself (`HttpClients.createDefault().execute`): network I/O. It is the parameter `Upstream`.
- Streaming of the body (`IOUtils.copy`): the body is copied as one sequence. A failure in the middle of the copy, after status and headers are written, is not modelled.
- The servlet container: request and response objects beyond the fields read or written here. This includes commit rules, case-insensitive header names, multi-valued headers, and the error page the container produces for an exception that escapes `service`.
- `init` and the parsing of the header strings (`readString`, `buildHeadersMapFromString`): `Utils` is not part of this model. The configuration enters as a base URI and two maps.
- Logging through SLF4J, and the container's concurrent handling of requests (the configuration is immutable and nothing else is shared).
- The syntax `URI.create` accepts (`java.net.URI`): it is the parameter `acceptsUri` of `GetRequest`, `MakeProxyRequest`, `Service` and `Handle`.
- Java strings count UTF-16 code units, and the model counts characters. The two differ only for a servlet path with characters outside the Basic Multilingual Plane, and only where a length is used as an index: the start `|servletPath| - 1` when the servlet path is not found.
- Java's `null` for the inbound method, the request URI and the servlet path: the container always supplies these, so the model takes them as strings.
- Releasing the upstream connection: the source never closes it, and resources are not modelled.
