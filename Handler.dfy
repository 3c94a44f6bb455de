/**
  The request decision of Server.ServeHTTP (main.go:86-229): what the handler
  answers for a request, given the flags, the custom-route table and what the
  Consul catalog replies.
 */
module Handler {
  import opened Wrappers
  import opened GoStrings
  import opened Urls
  import opened ConsulAddress
  import opened CustomRoutes
  import opened Options
  import opened Sequences

  /** The command-line flags the handler reads (main.go:19-22). */
  datatype Flags = Flags(nomadUIHostname: string, consulUIHostname: string,
                         redirectToNomadUI: bool, hostnameSuffix: string)

  /** Server (main.go:48-51): the Consul client, seen as its catalog query, and the custom routes. */
  datatype Server = Server(catalog: Catalog, customRoutes: map<string, string>)

  /** An incoming request: its Host header and its URL. */
  datatype Request = Request(host: string, url: Url)

  /** The hosts printQuickLinks links to (main.go:243-261): the Nomad UI at port 4646 and the Consul UI at 8500. */
  datatype QuickLinks = QuickLinks(nomadHost: string, consulHost: string)

  /** One line of the listing of several options (main.go:206-225). */
  datatype ListingEntry = ListingEntry(hostname: string, port: uint16, tags: seq<string>, url: Url)

  /** What the handler answers. */
  datatype Outcome =
    | Health                                    // "ok" (main.go:88-94)
    | Metrics                                   // empty body (main.go:97-100)
    | Redirect(location: Url)                   // 307 Temporary Redirect
    | RouteError                                // a matched route's target failed to parse (main.go:288-297)
    | Aborted                                   // the panic at main.go:321: the connection is dropped unanswered
    | NotParsed(hostname: string, links: QuickLinks)                 // help page (main.go:136-148)
    | DirectoryError(hostname: string, error: string)                // Consul query failed (main.go:150-161)
    | NotFound(name: string, portType: string, links: QuickLinks)    // no instance (main.go:187-198)
    | Listing(name: string, portType: string, entries: seq<ListingEntry>, links: QuickLinks)  // several (main.go:200-228)

  /** The HTTP status of an outcome; None when no response is written. */
  function StatusCode(o: Outcome): (code: Option<int>)
    ensures code.None? <==> o.Aborted?
    ensures code == Some(307) <==> o.Redirect?
    ensures code == Some(500) <==> o.RouteError? || o.DirectoryError?
    ensures code == Some(404) <==> o.NotFound?
    ensures code.Some? ==> code.value in {200, 307, 404, 500}
  {
    match o
    case Health => Some(200)
    case Metrics => Some(200)
    case Redirect(_) => Some(307)
    case RouteError => Some(500)
    case Aborted => None
    case NotParsed(_, _) => Some(200)  // no WriteHeader call, so net/http's default
    case DirectoryError(_, _) => Some(500)
    case NotFound(_, _, _) => Some(404)
    case Listing(_, _, _, _) => Some(200)
  }

  /** printQuickLinks (main.go:243-261): each link goes to its configured UI host, or else to the request hostname. */
  function QuickLinksFor(flags: Flags, hostname: string): (links: QuickLinks)
    ensures flags.nomadUIHostname == [] ==> links.nomadHost == hostname
    ensures flags.consulUIHostname == [] ==> links.consulHost == hostname
    ensures flags.nomadUIHostname != [] ==> links.nomadHost == flags.nomadUIHostname
    ensures flags.consulUIHostname != [] ==> links.consulHost == flags.consulUIHostname
  {
    QuickLinks(if |flags.nomadUIHostname| > 0 then flags.nomadUIHostname else hostname,
               if |flags.consulUIHostname| > 0 then flags.consulUIHostname else hostname)
  }

  /** The answer for a matched custom route (main.go:286-299, 328). */
  function RouteOutcome(r: Result<Url, RouteFailure>): Outcome
  {
    match r
    case Success(u) => Redirect(u)
    case Failure(TemplateParseError) => RouteError
    case Failure(EmptyArgSlice) => Aborted
  }

  /** The custom-route step (main.go:104-111): the raw hostname, then the hostname less "." + suffix. */
  function CustomRouteStep(flags: Flags, server: Server, parseUrl: UrlParser, hostname: string, url: Url)
    : (r: Option<Result<Url, RouteFailure>>)
    ensures var dotSuffix := "." + flags.hostnameSuffix;
            r.None? <==> FindRoute(server.customRoutes, hostname, url.path).None?
                         && (!HasSuffix(hostname, dotSuffix)
                             || FindRoute(server.customRoutes, TrimSuffix(hostname, dotSuffix), url.path).None?)
    ensures var k := FindRoute(server.customRoutes, hostname, url.path);
            k.Some? ==> r == Some(RedirectToCustomRoute(parseUrl, url, k.value, server.customRoutes[k.value]))
  {
    var dotSuffix := "." + flags.hostnameSuffix;
    var first := TryCustomRoutes(parseUrl, server.customRoutes, hostname, url);
    if first.Some? then first
    else if HasSuffix(hostname, dotSuffix) then
      TryCustomRoutes(parseUrl, server.customRoutes, TrimSuffix(hostname, dotSuffix), url)
    else None
  }

  /** Whether the Nomad UI redirect applies (main.go:113): note the suffix test has no leading dot. */
  predicate NomadModeApplies(flags: Flags, hostname: string)
  {
    flags.redirectToNomadUI && (HasSuffix(hostname, flags.hostnameSuffix) || hostname == flags.nomadUIHostname)
  }

  /** The Nomad UI redirect (main.go:114-119): port 4646, and the clients search for an empty or "/" path. */
  function NomadRedirect(hostname: string, url: Url): (u: Url)
    ensures u.scheme == "http" && HasPrefix(u.host, hostname + ":")
    ensures url.path == "" || url.path == "/" ==> u.path == "/ui/clients" && u.rawQuery == "search=" + hostname
    ensures url.path != "" && url.path != "/" ==> u.path == url.path && u.rawQuery == url.rawQuery
  {
    var u := BuildUrlWithPort(hostname, url, "http", 4646);
    if u.path == "" || u.path == "/" then u.(path := "/ui/clients", rawQuery := "search=" + hostname)
    else u
  }

  /** The listing line for one option (main.go:207-224): the node name with the cluster suffix, at the option's port. */
  function EntryFor(suffix: string, option: RedirectOption, url: Url): (e: ListingEntry)
    ensures e.hostname == AddHostnameSuffix(option.hostname, suffix)
    ensures e.port == option.port && e.tags == option.tags
    ensures e.url.scheme == GuessScheme(option.tags) && HasPrefix(e.url.host, e.hostname)
    ensures e.url.path == url.path && e.url.rawQuery == url.rawQuery
  {
    var fullHostname := AddHostnameSuffix(option.hostname, suffix);
    ListingEntry(fullHostname, option.port, option.tags, BuildURL(option, fullHostname, url))
  }

  /** The listing lines, one per option and in the options' order (main.go:206-225). */
  function ListingOf(suffix: string, options: seq<RedirectOption>, url: Url): (entries: seq<ListingEntry>)
    ensures |entries| == |options|
    ensures forall i :: 0 <= i < |options| ==> entries[i] == EntryFor(suffix, options[i], url)
  {
    if options == [] then []
    else [EntryFor(suffix, options[0], url)] + ListingOf(suffix, options[1..], url)
  }

  /** Whether the path (less one leading '/') starts with `word` (main.go:88, 97). */
  predicate PathStartsWith(path: string, word: string)
  {
    HasPrefix(TrimPrefix(path, "/"), word)
  }

  /**
    The Consul part of ServeHTTP (main.go:136-228): the help page for a hostname
    that does not parse, the catalog's error, a redirect to the one instance,
    not found for none, and a listing for several.
   */
  function ConsulOutcome(flags: Flags, server: Server, hostname: string, url: Url): (o: Outcome)
    ensures o.NotParsed? || o.DirectoryError? || o.Redirect? || o.NotFound? || o.Listing?
    ensures o.NotParsed? <==> ParseConsulAddress(hostname).name == ""
    ensures o.DirectoryError? ==>
              var a := ParseConsulAddress(hostname);
              a.name != "" && server.catalog(a.name, a.portType) == Failure(o.error)
  {
    var a := ParseConsulAddress(hostname);
    var links := QuickLinksFor(flags, hostname);
    if a.name == "" then NotParsed(hostname, links)
    else
      match QueryConsul(server.catalog, hostname)
      case Failure(e) => DirectoryError(hostname, e)
      case Success(result) =>
        if |result| == 1 then Redirect(BuildURL(result[0], hostname, url))
        else if |result| == 0 then NotFound(a.name, a.portType, links)
        else Listing(a.name, a.portType, ListingOf(flags.hostnameSuffix, result, url), links)
  }

  /**
    ServeHTTP (main.go:86-229): health and metrics first, then custom routes,
    then the Nomad UI redirect, then the Consul address and catalog.
   */
  function ServeHTTP(flags: Flags, server: Server, parseUrl: UrlParser, req: Request): (o: Outcome)
    ensures o.Health? <==> PathStartsWith(req.url.path, "health")
    ensures o.Metrics? <==> !PathStartsWith(req.url.path, "health") && PathStartsWith(req.url.path, "metrics")
    ensures (o.RouteError? || o.Aborted?) ==>
              CustomRouteStep(flags, server, parseUrl, GetHostname(req.host), req.url).Some?
    ensures o.DirectoryError? ==>
              var a := ParseConsulAddress(GetHostname(req.host));
              a.name != "" && server.catalog(a.name, a.portType) == Failure(o.error)
  {
    if PathStartsWith(req.url.path, "health") then Health
    else if PathStartsWith(req.url.path, "metrics") then Metrics
    else
      var hostname := GetHostname(req.host);
      var routed := CustomRouteStep(flags, server, parseUrl, hostname, req.url);
      if routed.Some? then RouteOutcome(routed.value)
      else if NomadModeApplies(flags, hostname) then Redirect(NomadRedirect(hostname, req.url))
      else ConsulOutcome(flags, server, hostname, req.url)
  }

  /** The request gets past the fixed health and metrics answers. */
  predicate Routable(req: Request)
  {
    !PathStartsWith(req.url.path, "health") && !PathStartsWith(req.url.path, "metrics")
  }

  /** The request gets as far as the Consul address parse (main.go:136). */
  predicate ReachesParse(flags: Flags, server: Server, parseUrl: UrlParser, req: Request)
  {
    && Routable(req)
    && CustomRouteStep(flags, server, parseUrl, GetHostname(req.host), req.url).None?
    && !NomadModeApplies(flags, GetHostname(req.host))
  }

  /** Past health, metrics, the custom routes and the Nomad redirect, the Consul part answers (main.go:136). */
  lemma ParseStepDecides(flags: Flags, server: Server, parseUrl: UrlParser, req: Request)
    requires ReachesParse(flags, server, parseUrl, req)
    ensures ServeHTTP(flags, server, parseUrl, req) == ConsulOutcome(flags, server, GetHostname(req.host), req.url)
  {
  }

  /** A custom-route step that yields something decides the answer (main.go:104-111). */
  lemma RouteStepDecides(flags: Flags, server: Server, parseUrl: UrlParser, req: Request, r: Result<Url, RouteFailure>)
    requires Routable(req)
    requires CustomRouteStep(flags, server, parseUrl, GetHostname(req.host), req.url) == Some(r)
    ensures ServeHTTP(flags, server, parseUrl, req) == RouteOutcome(r)
  {
  }

  /** A custom route matched on the request's hostname decides the answer, even when its rewrite fails (main.go:104-105, 286-299). */
  lemma RouteOnHostnameDecides(flags: Flags, server: Server, parseUrl: UrlParser, req: Request, key: string)
    requires Routable(req)
    requires FindRoute(server.customRoutes, GetHostname(req.host), req.url.path) == Some(key)
    ensures ServeHTTP(flags, server, parseUrl, req)
            == RouteOutcome(RedirectToCustomRoute(parseUrl, req.url, key, server.customRoutes[key]))
  {
    RouteStepDecides(flags, server, parseUrl, req, RedirectToCustomRoute(parseUrl, req.url, key, server.customRoutes[key]));
  }

  /** A request whose custom route rewrites to `u` is redirected to `u`. */
  lemma RoutedRedirect(flags: Flags, server: Server, parseUrl: UrlParser, req: Request, key: string, u: Url)
    requires Routable(req)
    requires FindRoute(server.customRoutes, GetHostname(req.host), req.url.path) == Some(key)
    requires RedirectToCustomRoute(parseUrl, req.url, key, server.customRoutes[key]) == Success(u)
    ensures ServeHTTP(flags, server, parseUrl, req) == Redirect(u)
  {
    RouteOnHostnameDecides(flags, server, parseUrl, req, key);
  }

  /** The second try of the custom-route step: the hostname less "." + suffix, when the first try finds nothing. */
  lemma SuffixFallback(flags: Flags, server: Server, parseUrl: UrlParser, h: string, url: Url)
    requires FindRoute(server.customRoutes, h + "." + flags.hostnameSuffix, url.path).None?
    ensures CustomRouteStep(flags, server, parseUrl, h + "." + flags.hostnameSuffix, url)
            == TryCustomRoutes(parseUrl, server.customRoutes, h, url)
  {
    var dotSuffix := "." + flags.hostnameSuffix;
    var hostname := h + dotSuffix;
    assert hostname == h + "." + flags.hostnameSuffix;
    assert HasSuffix(hostname, dotSuffix) && TrimSuffix(hostname, dotSuffix) == h by {
      assert hostname[|hostname| - |dotSuffix|..] == dotSuffix;
      assert hostname[..|hostname| - |dotSuffix|] == h;
    }
  }

  /**
    A route key written without the cluster suffix is reached by a request
    to `h.<suffix>` that no key of its own matches (main.go:106-110).
   */
  lemma RouteWithoutSuffixDecides(flags: Flags, server: Server, parseUrl: UrlParser, req: Request, h: string, key: string)
    requires Routable(req)
    requires GetHostname(req.host) == h + "." + flags.hostnameSuffix
    requires FindRoute(server.customRoutes, h + "." + flags.hostnameSuffix, req.url.path).None?
    requires FindRoute(server.customRoutes, h, req.url.path) == Some(key)
    ensures ServeHTTP(flags, server, parseUrl, req)
            == RouteOutcome(RedirectToCustomRoute(parseUrl, req.url, key, server.customRoutes[key]))
  {
    SuffixFallback(flags, server, parseUrl, h, req.url);
    RouteStepDecides(flags, server, parseUrl, req, RedirectToCustomRoute(parseUrl, req.url, key, server.customRoutes[key]));
  }

  /**
    The Nomad UI redirect keeps the hostname and goes to port 4646 over http;
    an empty or "/" path becomes the clients search for the hostname, any other
    path and query are kept.
   */
  lemma NomadRedirectTarget(hostname: string, url: Url)
    requires ':' !in hostname
    ensures var u := NomadRedirect(hostname, url);
            && u.scheme == "http"
            && GetHostname(u.host) == hostname && HostPort(u.host) == Some(4646)
            && (url.path == "" || url.path == "/" ==> u.path == "/ui/clients" && u.rawQuery == "search=" + hostname)
            && (url.path != "" && url.path != "/" ==> u.path == url.path && u.rawQuery == url.rawQuery)
  {
    BuildUrlHostRoundTrip(hostname, url, "http", 4646);
  }

  /** Past health, metrics and the custom routes, Nomad mode answers with the Nomad UI redirect (main.go:113-133). */
  lemma NomadStepDecides(flags: Flags, server: Server, parseUrl: UrlParser, req: Request)
    requires Routable(req)
    requires CustomRouteStep(flags, server, parseUrl, GetHostname(req.host), req.url).None?
    requires NomadModeApplies(flags, GetHostname(req.host))
    ensures ServeHTTP(flags, server, parseUrl, req) == Redirect(NomadRedirect(GetHostname(req.host), req.url))
  {
  }

  /**
    The Nomad test at main.go:113 has no leading dot: a name that merely ends
    in the suffix text, without a dot before it, is taken for a cluster name
    (with suffix "consul", `xconsul` is), although the custom-route step
    (main.go:106) does not treat it as one.
   */
  lemma NomadSuffixWithoutDot(flags: Flags, x: string)
    requires flags.redirectToNomadUI
    requires x == [] || x[|x| - 1] != '.'
    ensures NomadModeApplies(flags, x + flags.hostnameSuffix)
    ensures !HasSuffix(x + flags.hostnameSuffix, "." + flags.hostnameSuffix)
  {
    var h, suffix := x + flags.hostnameSuffix, flags.hostnameSuffix;
    assert h[|h| - |suffix|..] == suffix;
  }

  /**
    With the Nomad redirect on and no cluster suffix, every request that no
    custom route takes goes to the Nomad UI on its own hostname: the test at
    main.go:113 has no leading dot, and every string ends with "".
   */
  lemma EmptySuffixSendsAllToNomad(flags: Flags, server: Server, parseUrl: UrlParser, req: Request)
    requires flags.redirectToNomadUI && flags.hostnameSuffix == ""
    requires Routable(req)
    requires CustomRouteStep(flags, server, parseUrl, GetHostname(req.host), req.url).None?
    ensures var o := ServeHTTP(flags, server, parseUrl, req);
            && o.Redirect? && StatusCode(o) == Some(307)
            && GetHostname(o.location.host) == GetHostname(req.host)
            && HostPort(o.location.host) == Some(4646)
  {
    var hostname := GetHostname(req.host);
    assert HasSuffix(hostname, "");
    NomadRedirectTarget(hostname, req.url);
  }

  /**
    A hostname that does not parse as a Consul address gets the help page. No
    status is written, so it goes out as 200, not 404 and not 500 (main.go:136-148).
   */
  lemma UnparsedHostnameGetsHelp(flags: Flags, server: Server, parseUrl: UrlParser, req: Request)
    requires ReachesParse(flags, server, parseUrl, req)
    requires ParseConsulAddress(GetHostname(req.host)).name == ""
    ensures ServeHTTP(flags, server, parseUrl, req)
            == NotParsed(GetHostname(req.host), QuickLinksFor(flags, GetHostname(req.host)))
    ensures StatusCode(ServeHTTP(flags, server, parseUrl, req)) == Some(200)
  {
    ParseStepDecides(flags, server, parseUrl, req);
  }

  /** A failing catalog query is answered with 500 and the error (main.go:150-161). */
  lemma CatalogFailureIsServerError(flags: Flags, server: Server, parseUrl: UrlParser, req: Request, e: string)
    requires ReachesParse(flags, server, parseUrl, req)
    requires var a := ParseConsulAddress(GetHostname(req.host));
             a.name != "" && server.catalog(a.name, a.portType) == Failure(e)
    ensures ServeHTTP(flags, server, parseUrl, req) == DirectoryError(GetHostname(req.host), e)
    ensures StatusCode(ServeHTTP(flags, server, parseUrl, req)) == Some(500)
  {
    ParseStepDecides(flags, server, parseUrl, req);
  }

  /** No instance in the catalog is answered with 404 (main.go:187-198). */
  lemma NoCandidateIsNotFound(flags: Flags, server: Server, parseUrl: UrlParser, req: Request)
    requires ReachesParse(flags, server, parseUrl, req)
    requires var a := ParseConsulAddress(GetHostname(req.host));
             a.name != "" && server.catalog(a.name, a.portType) == Success([])
    ensures var a := ParseConsulAddress(GetHostname(req.host));
            ServeHTTP(flags, server, parseUrl, req)
            == NotFound(a.name, a.portType, QuickLinksFor(flags, GetHostname(req.host)))
    ensures StatusCode(ServeHTTP(flags, server, parseUrl, req)) == Some(404)
  {
    ParseStepDecides(flags, server, parseUrl, req);
    assert OptionsOf([]) == [];
  }

  /**
    A single instance is redirected to with 307: the request's own hostname
    (not the node name) at the instance's port, the scheme its tags name, the
    request's path and query (main.go:163-180).
   */
  lemma OneCandidateIsRedirect(flags: Flags, server: Server, parseUrl: UrlParser, req: Request, entry: CatalogEntry)
    requires ReachesParse(flags, server, parseUrl, req)
    requires var a := ParseConsulAddress(GetHostname(req.host));
             a.name != "" && server.catalog(a.name, a.portType) == Success([entry])
    ensures var o := ServeHTTP(flags, server, parseUrl, req);
            var port := ToUint16(entry.servicePort);
            && o.Redirect? && StatusCode(o) == Some(307)
            && o.location.scheme == GuessScheme(entry.serviceTags)
            && GetHostname(o.location.host) == GetHostname(req.host)
            && HostPort(o.location.host) == (if port == 0 then None else Some(port))
            && o.location.path == req.url.path && o.location.rawQuery == req.url.rawQuery
  {
    ParseStepDecides(flags, server, parseUrl, req);
    var hostname := GetHostname(req.host);
    var option := ToOption(entry);
    var result := QueryConsul(server.catalog, hostname).value;
    assert OptionsOf([entry]) == [option];
    assert |multiset(result)| == 1;
    assert result[0] in multiset(result);
    assert result == [option];
    BuildUrlHostRoundTrip(hostname, req.url, GuessScheme(option.tags), option.port);
  }

  /** Listing a permutation of the options gives a permutation of their listing lines. */
  lemma ListingPermutation(suffix: string, a: seq<RedirectOption>, b: seq<RedirectOption>, url: Url)
    requires multiset(a) == multiset(b)
    ensures multiset(ListingOf(suffix, a, url)) == multiset(ListingOf(suffix, b, url))
  {
    var f := (o: RedirectOption) => EntryFor(suffix, o, url);
    assert ListingOf(suffix, a, url) == MapSeq(f, a);
    assert ListingOf(suffix, b, url) == MapSeq(f, b);
    MapPermutation(f, a, b);
  }

  /**
    Several instances are listed with status 200: the listing lines are those
    of the catalog entries, one each and none dropped or repeated, each at the
    node's name with the cluster suffix (main.go:200-228). The order is that of
    the sort.
   */
  lemma SeveralCandidatesAreListed(flags: Flags, server: Server, parseUrl: UrlParser, req: Request,
                                   services: seq<CatalogEntry>)
    requires ReachesParse(flags, server, parseUrl, req)
    requires var a := ParseConsulAddress(GetHostname(req.host));
             a.name != "" && server.catalog(a.name, a.portType) == Success(services)
    requires |services| >= 2
    ensures var o := ServeHTTP(flags, server, parseUrl, req);
            && o.Listing? && StatusCode(o) == Some(200)
            && |o.entries| == |services|
            && multiset(o.entries) == multiset(ListingOf(flags.hostnameSuffix, OptionsOf(services), req.url))
  {
    var result := CatalogOptions(server.catalog, GetHostname(req.host), services);
    ListingPermutation(flags.hostnameSuffix, result, OptionsOf(services), req.url);
    ServedListing(flags, server, parseUrl, req, result);
  }

  /** A catalog reply for a parsed address gives a permutation of its options. */
  lemma CatalogOptions(catalog: Catalog, hostname: string, services: seq<CatalogEntry>)
    returns (result: seq<RedirectOption>)
    requires var a := ParseConsulAddress(hostname);
             a.name != "" && catalog(a.name, a.portType) == Success(services)
    ensures QueryConsul(catalog, hostname) == Success(result)
    ensures multiset(result) == multiset(OptionsOf(services)) && |result| == |services|
  {
    result := QueryConsul(catalog, hostname).value;
    assert |result| == |multiset(result)| == |multiset(OptionsOf(services))| == |OptionsOf(services)|;
  }

  /** A request that reaches the catalog with two options or more is answered by their listing. */
  lemma ServedListing(flags: Flags, server: Server, parseUrl: UrlParser, req: Request, result: seq<RedirectOption>)
    requires ReachesParse(flags, server, parseUrl, req)
    requires ParseConsulAddress(GetHostname(req.host)).name != ""
    requires QueryConsul(server.catalog, GetHostname(req.host)) == Success(result) && |result| >= 2
    ensures ServeHTTP(flags, server, parseUrl, req).Listing?
    ensures ServeHTTP(flags, server, parseUrl, req).entries == ListingOf(flags.hostnameSuffix, result, req.url)
  {
    ParseStepDecides(flags, server, parseUrl, req);
    ConsulListing(flags, server, GetHostname(req.host), req.url, result);
  }

  /** Two options or more make the Consul part list them. */
  lemma ConsulListing(flags: Flags, server: Server, hostname: string, url: Url, result: seq<RedirectOption>)
    requires ParseConsulAddress(hostname).name != ""
    requires QueryConsul(server.catalog, hostname) == Success(result) && |result| >= 2
    ensures var a := ParseConsulAddress(hostname);
            ConsulOutcome(flags, server, hostname, url)
            == Listing(a.name, a.portType, ListingOf(flags.hostnameSuffix, result, url), QuickLinksFor(flags, hostname))
  {
  }

  /**
    A listing line links to the suffixed node name at the option's port, with
    the scheme its tags name and the request's path and query.
   */
  lemma EntryTarget(suffix: string, option: RedirectOption, url: Url)
    requires ':' !in option.hostname && ':' !in suffix
    ensures var e := EntryFor(suffix, option, url);
            && GetHostname(e.url.host) == AddHostnameSuffix(option.hostname, suffix)
            && HostPort(e.url.host) == (if option.port == 0 then None else Some(option.port))
            && e.url.scheme == GuessScheme(option.tags)
            && e.url.path == url.path && e.url.rawQuery == url.rawQuery
  {
    var full := AddHostnameSuffix(option.hostname, suffix);
    assert ':' !in full by {
      if suffix != [] {
        var t := TrimPrefix(suffix, ".");
        assert ':' !in t by {
          if HasPrefix(suffix, ".") { assert t == suffix[1..]; }
        }
        assert full == option.hostname + "." + t;
      }
    }
    BuildUrlHostRoundTrip(full, url, GuessScheme(option.tags), option.port);
  }

  /** The home example request passes the probes and matches the bare-host key "h". */
  lemma HomeRouteMatch(routes: map<string, string>, req: Request)
    requires routes == map["h" := "http://home:1234"]
    requires req == Request("h", Url("http", "h", "/foo", "key=val"))
    ensures Routable(req) && GetHostname(req.host) == "h"
    ensures FindRoute(routes, "h", req.url.path) == Some("h")
  {
    assert TrimPrefix("/foo", "/") == "foo";
    assert Count("/foo", '/') == 1;
  }

  /** The home example template holds no `$arg$`; kept apart from the Grafana twin so each example stays cheap to prove. */
  lemma HomeTemplateHasNoArg(customUrl: string)
    requires customUrl == "http://home:1234"
    ensures !Contains(customUrl, ArgToken)
  {
    AbsentFirstChar(customUrl, ArgToken);
  }

  /** The home example rewrite: the template has no path, so the request path and query come through. */
  lemma HomeRouteRewritten(parseUrl: UrlParser, url: Url, customUrl: string)
    requires parseUrl(customUrl) == Some(Url("http", "home:1234", "", "")) && !Contains(customUrl, ArgToken)
    requires url == Url("http", "h", "/foo", "key=val")
    ensures RedirectToCustomRoute(parseUrl, url, "h", customUrl) == Success(Url("http", "home:1234", "/foo", "key=val"))
  {
    RewriteBareHost(parseUrl, url, "h", customUrl, Url("http", "home:1234", "", ""));
    assert "" + url.path == url.path;
  }

  /** The route {"h": "http://home:1234"} sends "/foo?key=val" on host h to http://home:1234/foo?key=val. */
  lemma HomeRouteExample(flags: Flags, server: Server, parseUrl: UrlParser, req: Request)
    requires server.customRoutes == map["h" := "http://home:1234"]
    requires parseUrl("http://home:1234") == Some(Url("http", "home:1234", "", ""))
    requires req == Request("h", Url("http", "h", "/foo", "key=val"))
    ensures ServeHTTP(flags, server, parseUrl, req) == Redirect(Url("http", "home:1234", "/foo", "key=val"))
  {
    HomeRouteMatch(server.customRoutes, req);
    HomeTemplateHasNoArg(server.customRoutes["h"]);
    HomeRouteRewritten(parseUrl, req.url, server.customRoutes["h"]);
    RoutedRedirect(flags, server, parseUrl, req, "h", Url("http", "home:1234", "/foo", "key=val"));
  }

  /** The Grafana example request passes the health and metrics probes. */
  lemma GrafanaRequestRoutable(req: Request)
    requires req == Request("h", Url("http", "h", "/grafana/foo", ""))
    ensures Routable(req) && GetHostname(req.host) == "h"
  {
    assert TrimPrefix("/grafana/foo", "/") == "grafana/foo";
    assert !HasPrefix("grafana/foo", "health") by { assert "grafana/foo"[..6][0] != "health"[0]; }
    assert !HasPrefix("grafana/foo", "metrics") by { assert "grafana/foo"[..7][0] != "metrics"[0]; }
  }

  /** The Grafana example path `/grafana/foo` matches the segment key "h/grafana". */
  lemma GrafanaRouteMatch(routes: map<string, string>, host: string, seg: string, rest: string)
    requires routes == map["h/grafana" := "http://grafana:2345/graphs/index"]
    requires host == "h" && seg == "grafana" && rest == "foo"
    ensures FindRoute(routes, host, "/" + seg + "/" + rest) == Some("h/grafana")
  {
    assert host + "/" + seg == "h/grafana";
    assert host + "/" + seg + "/" + rest !in routes by {
      assert |host + "/" + seg + "/" + rest| != |"h/grafana"|;
    }
    SegmentKeyMatches(routes, host, seg, rest);
  }

  /**
    The Grafana example request is routable and finds the key "h/grafana". The
    pieces of the request are named through `req` so that the solver does not
    unfold the string functions on literal arguments.
   */
  lemma GrafanaRouteFound(server: Server, req: Request)
    requires server.customRoutes == map["h/grafana" := "http://grafana:2345/graphs/index"]
    requires req == Request("h", Url("http", "h", "/grafana/foo", ""))
    ensures Routable(req)
    ensures FindRoute(server.customRoutes, GetHostname(req.host), req.url.path) == Some("h/grafana")
  {
    var seg, rest := req.url.path[1..8], req.url.path[9..];
    assert seg == "grafana" && rest == "foo";
    assert req.url.path == "/" + seg + "/" + rest;
    GrafanaRequestRoutable(req);
    GrafanaRouteMatch(server.customRoutes, req.host, seg, rest);
  }

  /** The Grafana example template holds no `$arg$`. */
  lemma GrafanaTemplateHasNoArg(customUrl: string)
    requires customUrl == "http://grafana:2345/graphs/index"
    ensures !Contains(customUrl, ArgToken)
  {
    AbsentFirstChar(customUrl, ArgToken);
  }

  /** The Grafana example target path: the template path followed by what is left of the request path. */
  lemma GrafanaTargetPath(rest: string)
    requires rest == "foo"
    ensures "/graphs/index" + ("/" + rest) == "/graphs/index/foo"
  {
    assert "/" + rest == "/foo";
  }

  /** The Grafana example rewrite: "/grafana" is trimmed and the rest appended to the template path. */
  lemma GrafanaRouteRewritten(parseUrl: UrlParser, url: Url, customUrl: string)
    requires parseUrl(customUrl) == Some(Url("http", "grafana:2345", "/graphs/index", ""))
    requires !Contains(customUrl, ArgToken)
    requires url == Url("http", "h", "/grafana/foo", "")
    ensures RedirectToCustomRoute(parseUrl, url, "h/grafana", customUrl)
            == Success(Url("http", "grafana:2345", "/graphs/index/foo", ""))
  {
    var seg, rest := url.path[1..8], url.path[9..];
    assert seg == "grafana" && rest == "foo" && "h" + "/" + seg == "h/grafana";
    assert url.path == "/" + seg + ("/" + rest);
    RewriteAppendsRemainder(parseUrl, url, "h", seg, "/" + rest, customUrl,
                            Url("http", "grafana:2345", "/graphs/index", ""));
    GrafanaTargetPath(rest);
  }

  /** The route {"h/grafana": "http://grafana:2345/graphs/index"} sends "/grafana/foo" to path "/graphs/index/foo". */
  lemma GrafanaRouteExample(flags: Flags, server: Server, parseUrl: UrlParser, req: Request)
    requires server.customRoutes == map["h/grafana" := "http://grafana:2345/graphs/index"]
    requires parseUrl("http://grafana:2345/graphs/index") == Some(Url("http", "grafana:2345", "/graphs/index", ""))
    requires req == Request("h", Url("http", "h", "/grafana/foo", ""))
    ensures ServeHTTP(flags, server, parseUrl, req) == Redirect(Url("http", "grafana:2345", "/graphs/index/foo", ""))
  {
    GrafanaRouteFound(server, req);
    GrafanaTemplateHasNoArg(server.customRoutes["h/grafana"]);
    GrafanaRouteRewritten(parseUrl, req.url, server.customRoutes["h/grafana"]);
    RoutedRedirect(flags, server, parseUrl, req, "h/grafana", Url("http", "grafana:2345", "/graphs/index/foo", ""));
  }

  /** The `$arg$` example request passes the health and metrics probes; kept apart from the Grafana twin so each example stays cheap to prove. */
  lemma ArgRequestRoutable(req: Request)
    requires req == Request("h", Url("http", "h", "/graph/1234", "range=4h"))
    ensures Routable(req) && GetHostname(req.host) == "h"
  {
    assert TrimPrefix("/graph/1234", "/") == "graph/1234";
    assert !HasPrefix("graph/1234", "health") by { assert "graph/1234"[..6][0] != "health"[0]; }
    assert !HasPrefix("graph/1234", "metrics") by { assert "graph/1234"[..7][0] != "metrics"[0]; }
  }

  /** The `$arg$` example path `/graph/1234` matches the segment key "h/graph"; kept apart from the Grafana twin for the same reason. */
  lemma ArgRouteMatch(routes: map<string, string>, host: string, seg: string, arg: string)
    requires routes == map["h/graph" := "http://grafana:2345/graph?id=$arg$&detail=1"]
    requires host == "h" && seg == "graph" && arg == "1234"
    ensures FindRoute(routes, host, "/" + seg + "/" + arg) == Some("h/graph")
  {
    assert host + "/" + seg == "h/graph";
    assert host + "/" + seg + "/" + arg !in routes by {
      assert |host + "/" + seg + "/" + arg| != |"h/graph"|;
    }
    SegmentKeyMatches(routes, host, seg, arg);
  }

  /** The `$arg$` example request is routable and finds the key "h/graph". */
  lemma ArgRouteFound(server: Server, req: Request)
    requires server.customRoutes == map["h/graph" := "http://grafana:2345/graph?id=$arg$&detail=1"]
    requires req == Request("h", Url("http", "h", "/graph/1234", "range=4h"))
    ensures Routable(req)
    ensures FindRoute(server.customRoutes, GetHostname(req.host), req.url.path) == Some("h/graph")
  {
    var seg, arg := req.url.path[1..6], req.url.path[7..];
    assert seg == "graph" && arg == "1234";
    assert req.url.path == "/" + seg + "/" + arg;
    ArgRequestRoutable(req);
    ArgRouteMatch(server.customRoutes, req.host, seg, arg);
  }

  /** The `$arg$` example template does hold `$arg$`. */
  lemma ArgTemplateHasArg(customUrl: string)
    requires customUrl == "http://grafana:2345/graph?id=$arg$&detail=1"
    ensures Contains(customUrl, ArgToken)
  {
    var p := "http://grafana:2345/graph?id=";
    assert customUrl == p + ArgToken + "&detail=1";
    assert customUrl[|p|..|p| + |ArgToken|] == ArgToken;
    assert OccursAt(customUrl, ArgToken, |p|);
  }

  /** The `$arg$` example template path has no `$arg$`, so substitution keeps it. */
  lemma ArgPathKept(path: string, arg: string)
    requires path == "/graph"
    ensures ReplaceAll(path, ArgToken, arg) == "/graph"
  {
    AbsentFirstChar(path, ArgToken);
    ReplaceAllAbsent(path, ArgToken, arg);
  }

  /** The `$arg$` example template query gets "1234" in place of its one `$arg$`. */
  lemma ArgQueryFilled(p: string, q: string, arg: string)
    requires p == "id=" && q == "&detail=1" && arg == "1234"
    ensures ReplaceAll(p + ArgToken + q, ArgToken, arg) == "id=1234&detail=1"
  {
    var s := p + ArgToken + q;
    forall i | 0 <= i < |p| ensures !OccursAt(s, ArgToken, i) {
      if i + |ArgToken| <= |s| {
        assert s[i..i + |ArgToken|][0] == s[i] == p[i];
      }
    }
    AbsentFirstChar(q, ArgToken);
    ReplaceAllOnce(p, q, ArgToken, arg);
  }

  /** The `$arg$` example template after substituting "1234" in its path and its query. */
  lemma ArgTemplateFilled(tpl: Url)
    requires tpl == Url("http", "grafana:2345", "/graph", "id=$arg$&detail=1")
    ensures ReplaceAll(tpl.path, ArgToken, "1234") == "/graph"
    ensures ReplaceAll(tpl.rawQuery, ArgToken, "1234") == "id=1234&detail=1"
  {
    ArgPathKept(tpl.path, "1234");
    assert tpl.rawQuery == "id=" + ArgToken + "&detail=1";
    ArgQueryFilled("id=", "&detail=1", "1234");
  }

  /** The `$arg$` example rewrite: the template path and the filled query, the request query dropped. */
  lemma ArgRouteRewritten(parseUrl: UrlParser, url: Url, customUrl: string, tpl: Url)
    requires parseUrl(customUrl) == Some(tpl) && Contains(customUrl, ArgToken)
    requires tpl.scheme == "http" && tpl.host == "grafana:2345"
    requires ReplaceAll(tpl.path, ArgToken, "1234") == "/graph"
    requires ReplaceAll(tpl.rawQuery, ArgToken, "1234") == "id=1234&detail=1"
    requires url == Url("http", "h", "/graph/1234", "range=4h")
    ensures RedirectToCustomRoute(parseUrl, url, "h/graph", customUrl)
            == Success(Url("http", "grafana:2345", "/graph", "id=1234&detail=1"))
  {
    var seg, arg := url.path[1..6], url.path[7..];
    assert seg == "graph" && arg == "1234" && "h" + "/" + seg == "h/graph";
    assert url.path == "/" + seg + "/" + arg;
    RewriteSubstitutesArg(parseUrl, url, "h", seg, arg, customUrl, tpl);
  }

  /**
    The route {"h/graph": "http://grafana:2345/graph?id=$arg$&detail=1"} sends
    "/graph/1234?range=4h" to "/graph?id=1234&detail=1": the request's own query is dropped.
   */
  lemma ArgRouteExample(flags: Flags, server: Server, parseUrl: UrlParser, req: Request)
    requires server.customRoutes == map["h/graph" := "http://grafana:2345/graph?id=$arg$&detail=1"]
    requires parseUrl("http://grafana:2345/graph?id=$arg$&detail=1")
             == Some(Url("http", "grafana:2345", "/graph", "id=$arg$&detail=1"))
    requires req == Request("h", Url("http", "h", "/graph/1234", "range=4h"))
    ensures ServeHTTP(flags, server, parseUrl, req) == Redirect(Url("http", "grafana:2345", "/graph", "id=1234&detail=1"))
  {
    ArgRouteFound(server, req);
    var tpl := Url("http", "grafana:2345", "/graph", "id=$arg$&detail=1");
    ArgTemplateHasArg(server.customRoutes["h/graph"]);
    ArgTemplateFilled(tpl);
    ArgRouteRewritten(parseUrl, req.url, server.customRoutes["h/graph"], tpl);
    RoutedRedirect(flags, server, parseUrl, req, "h/graph", Url("http", "grafana:2345", "/graph", "id=1234&detail=1"));
  }
}
