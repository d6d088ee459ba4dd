/** The servlet itself: an OPTIONS request is answered locally; any other
    request is mapped to a target URL, sent upstream with the configured
    request headers, and the upstream answer is relayed to the caller with the
    configured response headers laid on top. The network call is a parameter:
    `Upstream` is what `HttpClients.createDefault().execute(request)` gave. */
module WebProxy {
  import opened Wrappers
  import opened RequestMapping
  import opened HeaderMaps

  /** The parts of the inbound `HttpServletRequest` the servlet reads. */
  datatype Inbound = Inbound(methodName: string, requestUri: string, servletPath: string,
                             query: Option<string>)

  /** A response received from the target service. A missing entity is the
      `null` that `getEntity()` returns for a response without a body. */
  datatype UpstreamResponse = UpstreamResponse(status: int, headers: seq<Header>,
                                               entity: Option<seq<bv8>>)

  /** The outcome of executing the forwarded request. */
  datatype Upstream =
    | Failed                               // `execute` threw an IOException
    | Delivered(response: UpstreamResponse)

  /** What the forwarded request looked like when it was executed. */
  datatype Outbound = Outbound(verb: Method, url: string, headers: map<string, string>)

  /** What the caller-facing response holds after the servlet is done. */
  datatype Reply = Reply(status: int, headers: map<string, string>, body: seq<bv8>)

  /** The caller-facing `HttpServletResponse`: a status, headers set by
      `setHeader`, and the bytes written to its output stream. */
  class Response {
    var status: int
    const headers: Headers
    var body: seq<bv8>

    /** A response as the container hands it over: status 200, nothing set. */
    constructor ()
      ensures status == 200 && fresh(headers) && headers.fields == map[] && body == []
    {
      status := 200;
      headers := new Headers();
      body := [];
    }

    method SetStatus(code: int)
      modifies this
      ensures status == code && body == old(body)
    {
      status := code;
    }

    /** Writes bytes to the output stream, after what is already there. */
    method Write(bytes: seq<bv8>)
      modifies this
      ensures body == old(body) + bytes && status == old(status)
    {
      body := body + bytes;
    }

    function Snapshot(): Reply
      reads this, headers
    {
      Reply(status, headers.fields, body)
    }
  }

  /** The `HttpUriRequest` the servlet builds: a request class, a URL, and
      headers it sets itself. */
  class ProxyRequest {
    const verb: Method
    const url: string
    const headers: Headers

    constructor (verb: Method, url: string)
      ensures this.verb == verb && this.url == url
      ensures fresh(headers) && headers.fields == map[]
    {
      this.verb := verb;
      this.url := url;
      headers := new Headers();
    }

    function Snapshot(): Outbound
      reads headers
    {
      Outbound(verb, url, headers.fields)
    }
  }

  /** The servlet with its configuration, read once by `init` and never
      changed afterwards. */
  class Proxy {
    const baseUri: string
    const requestHeaders: map<string, string>
    const responseHeaders: map<string, string>

    constructor (baseUri: string, requestHeaders: map<string, string>,
                 responseHeaders: map<string, string>)
      ensures this.baseUri == baseUri
      ensures this.requestHeaders == requestHeaders
      ensures this.responseHeaders == responseHeaders
    {
      this.baseUri := baseUri;
      this.requestHeaders := requestHeaders;
      this.responseHeaders := responseHeaders;
    }

    /** `getRequest`: a fresh request of the class the method name selects,
        carrying no headers yet. Every request class parses its URL with
        `URI.create`, which throws on a string that is not a URI; whether it
        accepts `url` is `acceptsUri(url)`. */
    method GetRequest(name: string, url: string, acceptsUri: string -> bool)
      returns (thrown: Option<Exception>, request: ProxyRequest?)
      ensures !acceptsUri(url) ==> thrown == Some(IllegalArgumentException) && request == null
      ensures acceptsUri(url) ==>
                && thrown == None && request != null
                && fresh(request) && fresh(request.headers)
                && request.verb == SelectMethod(name) && request.url == url
                && request.headers.fields == map[]
    {
      if !acceptsUri(url) {
        return Some(IllegalArgumentException), null;
      }
      request := new ProxyRequest(SelectMethod(name), url);
      thrown := None;
    }

    /** `copyResponse`: the upstream status, then each upstream header in
        order, then the body. A response without an entity makes
        `entity.getContent()` throw after status and headers are set. */
    method CopyResponse(from: UpstreamResponse, to: Response) returns (thrown: Option<Exception>)
      modifies to, to.headers
      ensures to.status == from.status
      ensures to.headers.fields == SetAll(old(to.headers.fields), from.headers)
      ensures from.entity.None? ==> thrown == Some(NullPointerException) && to.body == old(to.body)
      ensures from.entity.Some? ==> thrown == None && to.body == old(to.body) + from.entity.value
    {
      to.SetStatus(from.status);
      to.headers.CopyAll(from.headers);
      if from.entity.None? {
        return Some(NullPointerException);
      }
      to.Write(from.entity.value);
      thrown := None;
    }

    /** `makeProxyRequest`: build the target URL, build the request, set the
        request headers on it, execute it, relay the answer, then set the
        response headers. Any exception ends it where it is raised. */
    method MakeProxyRequest(req: Inbound, upstream: Upstream, acceptsUri: string -> bool,
                            resp: Response)
      returns (thrown: Option<Exception>, sent: ProxyRequest?)
      modifies resp, resp.headers
      ensures var target := TargetUrl(baseUri, req.requestUri, req.servletPath, req.query);
        && (target.Failure? ==>
              thrown == Some(target.error) && sent == null
              && resp.status == old(resp.status)
              && resp.headers.fields == old(resp.headers.fields) && resp.body == old(resp.body))
        && (target.Success? && !acceptsUri(target.value) ==>
              thrown == Some(IllegalArgumentException) && sent == null
              && resp.status == old(resp.status)
              && resp.headers.fields == old(resp.headers.fields) && resp.body == old(resp.body))
        && (target.Success? && acceptsUri(target.value) ==>
              && sent != null && fresh(sent) && fresh(sent.headers)
              && sent.verb == SelectMethod(req.methodName) && sent.url == target.value
              && sent.headers.fields == requestHeaders)
      ensures sent != null && upstream.Failed? ==>
                thrown == Some(IOException) && resp.status == old(resp.status)
                && resp.headers.fields == old(resp.headers.fields) && resp.body == old(resp.body)
      ensures sent != null && upstream.Delivered? ==>
                var r := upstream.response;
                && resp.status == r.status
                && (r.entity.None? ==>
                      thrown == Some(NullPointerException) && resp.body == old(resp.body)
                      && resp.headers.fields == SetAll(old(resp.headers.fields), r.headers))
                && (r.entity.Some? ==>
                      thrown == None && resp.body == old(resp.body) + r.entity.value
                      && resp.headers.fields
                         == SetAll(old(resp.headers.fields), r.headers) + responseHeaders)
    {
      var target := TargetUrl(baseUri, req.requestUri, req.servletPath, req.query);
      if target.Failure? {
        return Some(target.error), null;
      }
      thrown, sent := GetRequest(req.methodName, target.value, acceptsUri);
      if thrown.Some? {
        return;
      }
      sent.headers.Inject(requestHeaders);
      if upstream.Failed? {
        return Some(IOException), sent;
      }
      thrown := CopyResponse(upstream.response, resp);
      if thrown.Some? {
        return;
      }
      resp.headers.Inject(responseHeaders);
    }

    /** `service`: OPTIONS is answered with status 200 and the response
        headers; anything else is forwarded, and an IOException on the way
        becomes status 404 with nothing else set. Other exceptions escape to
        the container. */
    method Service(req: Inbound, upstream: Upstream, acceptsUri: string -> bool, resp: Response)
      returns (thrown: Option<Exception>, sent: ProxyRequest?)
      modifies resp, resp.headers
      ensures req.methodName == Name(Options) ==>
                && thrown == None && sent == null && resp.status == 200
                && resp.headers.fields == old(resp.headers.fields) + responseHeaders
                && resp.body == old(resp.body)
      ensures req.methodName != Name(Options) ==>
                var target := TargetUrl(baseUri, req.requestUri, req.servletPath, req.query);
                && (target.Failure? ==>
                      thrown == Some(StringIndexOutOfBoundsException) && sent == null
                      && resp.status == old(resp.status)
                      && resp.headers.fields == old(resp.headers.fields) && resp.body == old(resp.body))
                && (target.Success? && !acceptsUri(target.value) ==>
                      thrown == Some(IllegalArgumentException) && sent == null
                      && resp.status == old(resp.status)
                      && resp.headers.fields == old(resp.headers.fields) && resp.body == old(resp.body))
                && (target.Success? && acceptsUri(target.value) ==>
                      && sent != null && fresh(sent) && fresh(sent.headers)
                      && sent.verb == SelectMethod(req.methodName) && sent.url == target.value
                      && sent.headers.fields == requestHeaders)
      ensures sent != null && upstream.Failed? ==>
                thrown == None && resp.status == 404
                && resp.headers.fields == old(resp.headers.fields) && resp.body == old(resp.body)
      ensures sent != null && upstream.Delivered? ==>
                var r := upstream.response;
                && resp.status == r.status
                && (r.entity.None? ==>
                      thrown == Some(NullPointerException) && resp.body == old(resp.body)
                      && resp.headers.fields == SetAll(old(resp.headers.fields), r.headers))
                && (r.entity.Some? ==>
                      thrown == None && resp.body == old(resp.body) + r.entity.value
                      && resp.headers.fields
                         == SetAll(old(resp.headers.fields), r.headers) + responseHeaders)
    {
      if req.methodName == Name(Options) {
        resp.SetStatus(200);
        resp.headers.Inject(responseHeaders);
        return None, null;
      }
      thrown, sent := MakeProxyRequest(req, upstream, acceptsUri, resp);
      if thrown == Some(IOException) {
        resp.SetStatus(404);
        thrown := None;
      }
    }

    /** One inbound request as the container runs it: a fresh response, the
        servlet's `service`, and what the caller receives. `sent` is the
        request that went upstream, if one was built. */
    method Handle(req: Inbound, upstream: Upstream, acceptsUri: string -> bool)
      returns (thrown: Option<Exception>, reply: Reply, sent: Option<Outbound>)
      ensures req.methodName == "OPTIONS" ==>
                thrown == None && sent == None && reply == Reply(200, responseHeaders, [])
      ensures req.methodName != "OPTIONS" ==>
                var target := TargetUrl(baseUri, req.requestUri, req.servletPath, req.query);
                && (target.Failure? ==>
                      thrown == Some(StringIndexOutOfBoundsException) && sent == None
                      && reply == Reply(200, map[], []))
                && (target.Success? && !acceptsUri(target.value) ==>
                      thrown == Some(IllegalArgumentException) && sent == None
                      && reply == Reply(200, map[], []))
                && (target.Success? && acceptsUri(target.value) ==>
                      sent == Some(Outbound(SelectMethod(req.methodName), target.value, requestHeaders)))
      ensures sent.Some? ==> sent.value.verb != Options
      ensures sent.Some? && upstream.Failed? ==>
                thrown == None && reply == Reply(404, map[], [])
      ensures sent.Some? && upstream.Delivered? ==>
                var r := upstream.response;
                && (r.entity.None? ==>
                      thrown == Some(NullPointerException)
                      && reply == Reply(r.status, SetAll(map[], r.headers), []))
                && (r.entity.Some? ==>
                      thrown == None
                      && reply == Reply(r.status, SetAll(map[], r.headers) + responseHeaders,
                                        r.entity.value))
    {
      var resp := new Response();
      var request;
      thrown, request := Service(req, upstream, acceptsUri, resp);
      reply := resp.Snapshot();
      sent := if request == null then None else Some(request.Snapshot());
      assert map[] + responseHeaders == responseHeaders;
    }
  }

  /** On a relayed response, a configured response header always wins over
      an upstream header of the same name, and a name that neither side sets
      is absent. */
  lemma RelayedHeaders(hs: seq<Header>, inject: map<string, string>, name: string)
    ensures name in inject ==>
              name in SetAll(map[], hs) + inject && (SetAll(map[], hs) + inject)[name] == inject[name]
    ensures name !in inject && name !in Names(hs) ==> name !in SetAll(map[], hs) + inject
  {
    SetAllKeys(map[], hs);
  }

  /** An upstream header that is not configured reaches the caller with the
      value of its last upstream occurrence. */
  lemma RelayedUpstreamHeader(hs: seq<Header>, inject: map<string, string>, j: int)
    requires 0 <= j < |hs| && hs[j].0 !in inject
    requires forall i :: j < i < |hs| ==> hs[i].0 != hs[j].0
    ensures hs[j].0 in SetAll(map[], hs) + inject
    ensures (SetAll(map[], hs) + inject)[hs[j].0] == hs[j].1
  {
    SetAllLastWins(map[], hs, j);
  }
}
