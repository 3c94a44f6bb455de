/**
  The operator's custom-route table: which key of the table a request
  matches (main.go:263-300) and how the matched target template rewrites the
  request URL (main.go:303-330).
 */
module CustomRoutes {
  import opened Wrappers
  import opened GoStrings
  import opened Urls

  /**
    net/url's Parse, library code outside this model: any total function from
    text to a URL or a parse failure.
   */
  type UrlParser = string -> Option<Url>

  /** The placeholder a template may carry (main.go:320). */
  const ArgToken: string := "$arg$"

  /** Why a matched custom route gave no redirect. */
  datatype RouteFailure =
    | TemplateParseError  // url.Parse rejected the route's target (main.go:304-307)
    | EmptyArgSlice       // the `$arg$` branch sliced an empty path with [1:] (main.go:321), a Go runtime panic

  /**
    The keys looked up for a hostname and request path, in order (main.go:263-284):
    hostname + path; hostname + "/" + the first path segment when the path has at
    least two '/'; the bare hostname.
   */
  function RouteKeys(hostname: string, path: string): seq<string>
  {
    var segments := Split(path, '/');
    [hostname + path]
    + (if |segments| > 2 then [hostname + "/" + segments[1]] else [])
    + [hostname]
  }

  /**
    tryCustomRoutesForHostname / tryRedirectRoutePath (main.go:263-300): the key
    the handler commits to. It is the first of RouteKeys that the table holds,
    and there is none exactly when the table holds none of them.
   */
  function FindRoute(routes: map<string, string>, hostname: string, path: string): (k: Option<string>)
    ensures k.Some? ==> k.value in routes
    ensures k.Some? ==> exists i :: 0 <= i < |RouteKeys(hostname, path)| && RouteKeys(hostname, path)[i] == k.value
                                   && forall j :: 0 <= j < i ==> RouteKeys(hostname, path)[j] !in routes
    ensures k.None? <==> forall key :: key in RouteKeys(hostname, path) ==> key !in routes
  {
    var segments := Split(path, '/');
    var keys := RouteKeys(hostname, path);
    assert keys[0] == hostname + path && keys[|keys| - 1] == hostname;
    assert |segments| > 2 ==> keys[1] == hostname + "/" + segments[1] && |keys| == 3;
    assert |segments| <= 2 ==> |keys| == 2;
    if hostname + path in routes then Some(hostname + path)
    else if |segments| > 2 && hostname + "/" + segments[1] in routes then Some(hostname + "/" + segments[1])
    else if hostname in routes then Some(hostname)
    else None
  }

  /**
    A path `/seg/...` whose full key is not in the table but whose `host/seg`
    key is selects `host/seg`.
   */
  lemma SegmentKeyMatches(routes: map<string, string>, host: string, seg: string, rest: string)
    requires '/' !in seg
    requires host + "/" + seg + "/" + rest !in routes && host + "/" + seg in routes
    ensures FindRoute(routes, host, "/" + seg + "/" + rest) == Some(host + "/" + seg)
  {
    var path := "/" + seg + "/" + rest;
    assert host + path !in routes by {
      assert host + path == host + "/" + seg + "/" + rest;
    }
    assert |Split(path, '/')| > 2 && host + "/" + Split(path, '/')[1] == host + "/" + seg by {
      SplitSecondField(seg, rest);
    }
  }

  /**
    What is left of the request path once the matched key's path part is
    trimmed from its front (main.go:314-318): a key without '/' trims nothing.
   */
  function Remainder(path: string, key: string): (rest: string)
    ensures !Contains(key, "/") ==> rest == path
    ensures |rest| <= |path| && rest == path[|path| - |rest|..]
  {
    if Contains(key, "/") then TrimPrefix(path, "/" + SplitN2(key, "/")[1]) else path
  }

  /**
    redirectToCustomRoute (main.go:303-330): the redirect URL for a request
    matched under `key` to the target `customUrl`.
   */
  function RedirectToCustomRoute(parseUrl: UrlParser, req: Url, key: string, customUrl: string): (r: Result<Url, RouteFailure>)
    ensures r == Failure(TemplateParseError) <==> parseUrl(customUrl).None?
    ensures r == Failure(EmptyArgSlice)
            <==> parseUrl(customUrl).Some? && Contains(customUrl, ArgToken) && Remainder(req.path, key) == ""
    ensures r.Success? ==> r.value.scheme == parseUrl(customUrl).value.scheme
                           && r.value.host == parseUrl(customUrl).value.host
    ensures r.Success? && !Contains(customUrl, ArgToken) ==> r.value.rawQuery == req.rawQuery
  {
    match parseUrl(customUrl)
    case None => Failure(TemplateParseError)
    case Some(parsed) =>
      var built := BuildUrlWithPort(parsed.host, req, parsed.scheme, 0);
      var redir := built.(path := Remainder(built.path, key));
      if Contains(customUrl, ArgToken) then
        if |redir.path| == 0 then Failure(EmptyArgSlice)
        else
          var arg := redir.path[1..];
          Success(redir.(path := ReplaceAll(parsed.path, ArgToken, arg),
                         rawQuery := ReplaceAll(parsed.rawQuery, ArgToken, arg)))
      else if |parsed.path| > 1 then Success(redir.(path := parsed.path + redir.path))
      else Success(redir)
  }

  /** The text after the first '/' of `host + "/" + seg` is `seg`, for a '/'-free host. */
  lemma KeyTail(host: string, seg: string)
    requires '/' !in host
    ensures Contains(host + "/" + seg, "/")
    ensures SplitN2(host + "/" + seg, "/")[1] == seg
  {
    var key := host + "/" + seg;
    OccursAtChar(key, '/', |host|);
    forall j | 0 <= j < |host| ensures !OccursAt(key, "/", j) {
      OccursAtChar(key, '/', j);
      assert key[j] == host[j];
    }
    IndexIsFirst(key, "/", |host|);
  }

  /** A '/'-free key leaves the request path untrimmed. */
  lemma BareKey(host: string)
    requires '/' !in host
    ensures !Contains(host, "/")
  {
    ContainsChar(host, '/');
  }

  /** `/seg/rest...` has more than two '/'-separated fields, the second being `seg`. */
  lemma SplitSecondField(seg: string, rest: string)
    requires '/' !in seg
    ensures |Split("/" + seg + "/" + rest, '/')| > 2
    ensures Split("/" + seg + "/" + rest, '/')[1] == seg
  {
    SplitLeadingSlash(seg, rest);
    SplitAfterSegment(seg, rest);
  }

  /** A leading '/' gives an empty first field. */
  lemma SplitLeadingSlash(seg: string, rest: string)
    ensures Split("/" + seg + "/" + rest, '/') == [""] + Split(seg + "/" + rest, '/')
  {
    var p := "/" + seg + "/" + rest;
    assert p[..0] == [] && p[1..] == seg + "/" + rest;
    SplitAtFirst(p, '/', 0);
  }

  /** A '/'-free segment followed by '/' is the first field. */
  lemma SplitAfterSegment(seg: string, rest: string)
    requires '/' !in seg
    ensures Split(seg + "/" + rest, '/') == [seg] + Split(rest, '/')
  {
    var t := seg + "/" + rest;
    assert t[..|seg|] == seg && t[|seg| + 1..] == rest;
    SplitAtFirst(t, '/', |seg|);
  }

  /**
    A template without `$arg$` matched on `host/seg`: the template's scheme and
    host, the template path (when longer than "/") followed by what is left of
    the request path after "/seg", and the request's own query.
   */
  lemma RewriteAppendsRemainder(parseUrl: UrlParser, req: Url, host: string, seg: string, rest: string,
                                customUrl: string, tpl: Url)
    requires '/' !in host
    requires parseUrl(customUrl) == Some(tpl) && !Contains(customUrl, ArgToken)
    requires req.path == "/" + seg + rest
    ensures RedirectToCustomRoute(parseUrl, req, host + "/" + seg, customUrl)
            == Success(Url(tpl.scheme, tpl.host, (if |tpl.path| > 1 then tpl.path else "") + rest, req.rawQuery))
  {
    KeyTail(host, seg);
    assert TrimPrefix(req.path, "/" + seg) == rest;
    if |tpl.path| <= 1 {
      assert "" + rest == rest;
    }
  }

  /**
    A template without `$arg$` matched on the bare host: the template's scheme
    and host, the template path (when longer than "/") prefixed to the whole
    request path, and the request's own query.
   */
  lemma RewriteBareHost(parseUrl: UrlParser, req: Url, host: string, customUrl: string, tpl: Url)
    requires '/' !in host
    requires parseUrl(customUrl) == Some(tpl) && !Contains(customUrl, ArgToken)
    ensures RedirectToCustomRoute(parseUrl, req, host, customUrl)
            == Success(Url(tpl.scheme, tpl.host, (if |tpl.path| > 1 then tpl.path else "") + req.path, req.rawQuery))
  {
    BareKey(host);
    if |tpl.path| <= 1 {
      assert "" + req.path == req.path;
    }
  }

  /**
    A template with `$arg$` matched on `host/seg` for the path `/seg/arg`:
    every `$arg$` in the template's path and query becomes `arg`, and the
    request's query is dropped.
   */
  lemma RewriteSubstitutesArg(parseUrl: UrlParser, req: Url, host: string, seg: string, arg: string,
                              customUrl: string, tpl: Url)
    requires '/' !in host
    requires parseUrl(customUrl) == Some(tpl) && Contains(customUrl, ArgToken)
    requires req.path == "/" + seg + "/" + arg
    ensures RedirectToCustomRoute(parseUrl, req, host + "/" + seg, customUrl)
            == Success(Url(tpl.scheme, tpl.host, ReplaceAll(tpl.path, ArgToken, arg),
                           ReplaceAll(tpl.rawQuery, ArgToken, arg)))
  {
    KeyTail(host, seg);
    assert req.path == ("/" + seg) + ("/" + arg);
    assert TrimPrefix(req.path, "/" + seg) == "/" + arg;
  }

  /**
    A template with `$arg$` matched on the bare host: nothing is trimmed, so the
    argument is the whole request path less its leading character, and the
    request's query is dropped.
   */
  lemma RewriteBareHostArg(parseUrl: UrlParser, req: Url, host: string, customUrl: string, tpl: Url)
    requires '/' !in host
    requires parseUrl(customUrl) == Some(tpl) && Contains(customUrl, ArgToken)
    requires req.path != ""
    ensures RedirectToCustomRoute(parseUrl, req, host, customUrl)
            == Success(Url(tpl.scheme, tpl.host, ReplaceAll(tpl.path, ArgToken, req.path[1..]),
                           ReplaceAll(tpl.rawQuery, ArgToken, req.path[1..])))
  {
    BareKey(host);
  }

  /** A template with `$arg$` matched on the bare host for an empty path panics at the slice. */
  lemma RewriteBareHostEmptyPath(parseUrl: UrlParser, req: Url, host: string, customUrl: string, tpl: Url)
    requires '/' !in host
    requires parseUrl(customUrl) == Some(tpl) && Contains(customUrl, ArgToken)
    requires req.path == ""
    ensures RedirectToCustomRoute(parseUrl, req, host, customUrl) == Failure(EmptyArgSlice)
  {
    BareKey(host);
  }

  /**
    A template with `$arg$` matched on `host/seg` for the path `/seg` itself
    leaves nothing to slice: the handler panics instead of redirecting.
   */
  lemma RewriteEmptyArg(parseUrl: UrlParser, req: Url, host: string, seg: string, customUrl: string, tpl: Url)
    requires '/' !in host
    requires parseUrl(customUrl) == Some(tpl) && Contains(customUrl, ArgToken)
    requires req.path == "/" + seg
    ensures RedirectToCustomRoute(parseUrl, req, host + "/" + seg, customUrl) == Failure(EmptyArgSlice)
  {
    KeyTail(host, seg);
  }

  /**
    A key holding the whole request path trims all of it: without `$arg$` the
    redirect path is the template's own (or empty), and the request's query is kept.
   */
  lemma RewriteExactKey(parseUrl: UrlParser, req: Url, host: string, p: string, customUrl: string, tpl: Url)
    requires '/' !in host
    requires parseUrl(customUrl) == Some(tpl) && !Contains(customUrl, ArgToken)
    requires req.path == "/" + p
    ensures RedirectToCustomRoute(parseUrl, req, host + req.path, customUrl)
            == Success(Url(tpl.scheme, tpl.host, if |tpl.path| > 1 then tpl.path else "", req.rawQuery))
  {
    assert host + req.path == host + "/" + p;
    assert req.path == "/" + p + "";
    RewriteAppendsRemainder(parseUrl, req, host, p, "", customUrl, tpl);
    assert (if |tpl.path| > 1 then tpl.path else "") + "" == if |tpl.path| > 1 then tpl.path else "";
  }

  /**
    tryCustomRoutesForHostname for one hostname (main.go:263-300): None when no
    key matched, otherwise the matched route's redirect or failure.
   */
  function TryCustomRoutes(parseUrl: UrlParser, routes: map<string, string>, hostname: string, req: Url)
    : (r: Option<Result<Url, RouteFailure>>)
    ensures r.None? <==> forall key :: key in RouteKeys(hostname, req.path) ==> key !in routes
  {
    match FindRoute(routes, hostname, req.path)
    case None => None
    case Some(key) => Some(RedirectToCustomRoute(parseUrl, req, key, routes[key]))
  }
}
