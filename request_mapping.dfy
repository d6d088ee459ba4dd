/** How the servlet turns an inbound request into the method and URL of the
    request it forwards: the if/else chain of `getRequest` and the target-URL
    expression of `makeProxyRequest`. Both are pure. */
module RequestMapping {
  import opened Wrappers

  /** The request classes the servlet can build (HttpPost, HttpPut, ...). */
  datatype Method = Get | Post | Put | Delete | Options | Head

  /** The exceptions `makeProxyRequest` and `copyResponse` can raise; the
      first is raised here, the others by the servlet itself. */
  datatype Exception =
    | StringIndexOutOfBoundsException   // `substring` with a begin index past the end
    | IllegalArgumentException          // `URI.create` refused the target URL
    | IOException                       // the upstream call failed
    | NullPointerException              // the upstream response carried no entity

  /** The METHOD_NAME constant of each request class. */
  function Name(m: Method): string
  {
    match m
    case Get => "GET"
    case Post => "POST"
    case Put => "PUT"
    case Delete => "DELETE"
    case Options => "OPTIONS"
    case Head => "HEAD"
  }

  /** The inbound method names that select a request class other than GET. */
  const Recognised: set<string> := {"POST", "PUT", "DELETE", "OPTIONS", "HEAD"}

  /** `getRequest`: a case-sensitive comparison against each name in turn;
      anything unrecognised becomes GET. */
  function SelectMethod(name: string): (r: Method)
    ensures r != Get <==> name in Recognised
    ensures r != Get ==> Name(r) == name
  {
    if name == "POST" then Post
    else if name == "PUT" then Put
    else if name == "DELETE" then Delete
    else if name == "OPTIONS" then Options
    else if name == "HEAD" then Head
    else Get
  }

  /** Every request class is selected by its own name, and by no other. */
  lemma SelectMethodByName(m: Method, name: string)
    ensures SelectMethod(Name(m)) == m
    ensures m != Get ==> (SelectMethod(name) == m <==> name == Name(m))
  {
  }

  /** The comparison is case-sensitive: a lower-case name falls back to GET. */
  lemma LowerCaseFallsBack()
    ensures SelectMethod("post") == Get && SelectMethod("options") == Get
    ensures SelectMethod("PATCH") == Get && SelectMethod("") == Get
  {
  }

  /** `p` occurs in `s` starting at index `i`. */
  predicate OccursAt(s: string, p: string, i: int)
  {
    0 <= i && i + |p| <= |s| && s[i..i + |p|] == p
  }

  /** `i` is the first index at which `p` occurs in `s`. */
  predicate FirstOccurrence(s: string, p: string, i: int)
  {
    OccursAt(s, p, i) && forall j :: 0 <= j < i ==> !OccursAt(s, p, j)
  }

  /** `String.indexOf(String)`: the first index at which `p` occurs in `s`,
      or -1 when it does not occur at all. */
  function IndexOf(s: string, p: string): (r: int)
    ensures r == -1 || FirstOccurrence(s, p, r)
    ensures r == -1 <==> forall j :: !OccursAt(s, p, j)
    decreases |s|
  {
    if |p| > |s| then -1
    else if s[..|p|] == p then 0
    else
      var r := IndexOf(s[1..], p);
      ShiftOccurrence(s, p);
      assert !OccursAt(s, p, 0) by { assert s[0..|p|] == s[..|p|]; }
      if r == -1 then -1 else r + 1
  }

  /** Occurrences in `s[1..]` are the occurrences in `s` one place further on. */
  lemma ShiftOccurrence(s: string, p: string)
    requires |s| > 0
    ensures forall j :: 1 <= j ==> (OccursAt(s, p, j) <==> OccursAt(s[1..], p, j - 1))
  {
    forall j | 1 <= j
      ensures OccursAt(s, p, j) <==> OccursAt(s[1..], p, j - 1)
    {
      if j + |p| <= |s| {
        assert s[1..][j - 1..j - 1 + |p|] == s[j..j + |p|];
      }
    }
  }

  /** The text Java's string concatenation produces for the query: a null
      query string is written as "null". */
  function QueryText(query: Option<string>): string
  {
    match query
    case Some(q) => q
    case None => "null"
  }

  /** The target URL `makeProxyRequest` builds: the base URI, then what follows the
      first occurrence of the servlet path in the request URI, then "?" and
      the query text, even when there is no query. When the servlet path does
      not occur, `indexOf` gives -1 and the substring starts at
      `|servletPath| - 1`; past the end of the URI, `substring` throws. */
  function TargetUrl(baseUri: string, requestUri: string, servletPath: string,
                     query: Option<string>): (r: Result<string, Exception>)
    ensures forall i :: FirstOccurrence(requestUri, servletPath, i) ==>
              r == Success(baseUri + requestUri[i + |servletPath|..] + "?" + QueryText(query))
    ensures (forall j :: !OccursAt(requestUri, servletPath, j)) ==>
              r == if 1 <= |servletPath| <= |requestUri| + 1
                   then Success(baseUri + requestUri[|servletPath| - 1..] + "?" + QueryText(query))
                   else Failure(StringIndexOutOfBoundsException)
    ensures r.Failure? ==> r.error == StringIndexOutOfBoundsException
  {
    var begin := IndexOf(requestUri, servletPath) + |servletPath|;
    if begin < 0 || begin > |requestUri| then Failure(StringIndexOutOfBoundsException)
    else Success(baseUri + requestUri[begin..] + "?" + QueryText(query))
  }

  /** The usual case: the request URI is the servlet path followed by the
      path to forward. The URL is the base URI, that path, "?" and the query;
      with no query it ends in "?null", with an empty one in a bare "?". */
  lemma TargetUrlOfMountedPath(baseUri: string, servletPath: string, rest: string,
                               query: Option<string>)
    ensures TargetUrl(baseUri, servletPath + rest, servletPath, query)
            == Success(baseUri + rest + "?" + QueryText(query))
    ensures query == None ==>
              TargetUrl(baseUri, servletPath + rest, servletPath, query)
              == Success(baseUri + rest + "?null")
    ensures query == Some("") ==>
              TargetUrl(baseUri, servletPath + rest, servletPath, query)
              == Success(baseUri + rest + "?")
  {
    var uri := servletPath + rest;
    assert uri[0..|servletPath|] == servletPath;
    assert FirstOccurrence(uri, servletPath, 0);
    assert uri[|servletPath|..] == rest;
    assert baseUri + rest + "?" + "null" == baseUri + rest + "?null";
    assert baseUri + rest + "?" + "" == baseUri + rest + "?";
  }

  /** The suffix is taken after the FIRST occurrence of the servlet path,
      which need not be the mount point: when the context path in front of
      the servlet path already contains it, the forwarded path starts inside
      the context path and repeats the servlet path. */
  lemma ContextContainsServletPath(baseUri: string, context: string, servletPath: string,
                                   rest: string, query: Option<string>, i: int)
    requires FirstOccurrence(context, servletPath, i)
    ensures TargetUrl(baseUri, context + servletPath + rest, servletPath, query)
            == Success(baseUri + context[i + |servletPath|..] + servletPath + rest
                       + "?" + QueryText(query))
  {
    var uri := context + servletPath + rest;
    forall j ensures OccursAt(context, servletPath, j) ==> OccursAt(uri, servletPath, j) {
      if OccursAt(context, servletPath, j) {
        assert uri[j..j + |servletPath|] == context[j..j + |servletPath|];
      }
    }
    forall j | 0 <= j < i ensures !OccursAt(uri, servletPath, j) {
      assert !OccursAt(context, servletPath, j);
      assert uri[j..j + |servletPath|] == context[j..j + |servletPath|];
    }
    assert FirstOccurrence(uri, servletPath, i);
    var suffix := context[i + |servletPath|..];
    assert uri[i + |servletPath|..] == suffix + servletPath + rest;
    assert baseUri + (suffix + servletPath + rest) + "?" + QueryText(query)
           == baseUri + suffix + servletPath + rest + "?" + QueryText(query);
  }

  /** An instance of the lemma above: under the context path `/proxy-app`,
      the servlet `/proxy` forwards `-app/proxy/v1` instead of `/v1`. */
  lemma FirstOccurrenceWins()
    ensures TargetUrl("http://api", "/proxy-app/proxy/v1", "/proxy", Some("a=1"))
            == Success("http://api-app/proxy/v1?a=1")
  {
    var uri := "/proxy-app/proxy/v1";
    assert uri[0..6] == "/proxy";
    assert FirstOccurrence(uri, "/proxy", 0);
    assert uri[6..] == "-app/proxy/v1";
    assert "http://api" + "-app/proxy/v1" + "?" + "a=1" == "http://api-app/proxy/v1?a=1";
  }
}
