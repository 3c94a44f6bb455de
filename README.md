# consul-port-redirector, modelled in Dafny

consul-port-redirector is a small HTTP server. It takes a request addressed to
a Consul DNS name, such as `_grafana._http.service.consul` or
`web.service.dc1.consul`. It asks the Consul catalog for the matching service
instances and redirects (307) to the single one, or lists them when there are
several. Before that it answers health and metrics probes. It tries an
operator-supplied table of custom routes, which can also substitute part of
the path into the target. In "Nomad UI" mode it may instead send the request
to the Nomad UI on port 4646.

This project models the request decision of `main.go`:
- the parsing of a hostname as a Consul address;
- the custom-route lookup and rewrite;
- the URL building;
- the scheme guess from service tags;
- the building and ordering of redirect options from a catalog reply;
- the branch structure of `ServeHTTP`.

`ServeHTTP` is modelled as a pure function from the flags, the route table, the
catalog and the request to an `Outcome`. The outcome names the response the
handler writes and the status code it implies.

Modules, one file each:

- `Wrappers`: `Option` and `Result`.
- `GoStrings`: the parts of Go's `strings` and `fmt` that the program uses. These are `SplitN(s, sep, 2)`, `Index`, `Contains`, `Split`, `Count`, `HasPrefix`/`TrimPrefix`, `HasSuffix`/`TrimSuffix`, `ReplaceAll`, `ToLower`, string `<` and `%d`.
- `Urls`: the URL fields the program touches, `getHostname` and `buildUrlWithPort`.
- `ConsulAddress`: `parseConsulAddress` and `addHostnameSuffix`.
- `CustomRoutes`: `tryCustomRoutesForHostname`, `tryRedirectRoutePath` and `redirectToCustomRoute`.
- `Options`: `RedirectOption`, `guessScheme`, `BuildURL`, the sort comparator and `queryConsulForHostname`. That last one appears both as a function and as the loop the source runs, proved equal to the function.
- `Sequences`: mapping a function over a sequence, and the fact that mapping a permutation gives a permutation.
- `Handler`: `ServeHTTP`, its outcomes and the lemmas that pin each branch down.

Behaviours of the code a reader may not expect (the model follows the code):

- A hostname that does not parse gets the help page with status 200, not 404. The handler never calls `WriteHeader` on that path (main.go:136-148).
- A hostname without `.service.` is not rejected. The whole hostname becomes the service part, so `junk` parses to the service `junk` (main.go:413-414).
- The first field of the service part is the service name and the second is the port type, not the other way round (main.go:417-421).
- The parser does not strip the cluster suffix.
- A single candidate is redirected to under the request's own hostname (main.go:164). Only the listing appends the cluster suffix to node names (main.go:207).
- With `$arg$` in the template, the request's own query is dropped. The template's query replaces it (main.go:323), and nothing is appended.
- A route key that holds the whole request path trims all of that path (main.go:315-317). Without `$arg$`, the redirect therefore carries only the template's path, not the request's path.
- A `$arg$` route matched on `host/seg` for the path `/seg` slices an empty path (main.go:321). That makes the handler panic, so no response is written.
- The Nomad test has no dot before the suffix (main.go:113), unlike the custom-route step (main.go:106). With suffix `consul`, the name `xconsul` goes to the Nomad UI.
- A service port whose low 16 bits are 0 is not an error. The bare hostname is used (main.go:359-363).

`strings.SplitAfterN(key, "/", 2)[1]` at main.go:316 and `SplitN(key, "/", 2)[1]` are the same text. The model uses the latter.

## Model

| member | source | states |
|---|---|---|
| `GoStrings.Index` | main.go:413 | the result is -1 exactly when the pattern never occurs; otherwise it is an occurrence with none before it |
| `GoStrings.IndexIsFirst` | main.go:413 | any occurrence with none before it is the one found |
| `GoStrings.SplitN2` | main.go:413 | for a non-empty separator: one field iff the separator is absent (then it is the whole text); otherwise the text is the two fields joined by the separator, at its first occurrence |
| `GoStrings.Contains` | main.go:417 | true exactly when the pattern occurs at some index |
| `GoStrings.AbsentFirstChar` | main.go:320 | a text lacking the pattern's first character does not contain the pattern |
| `GoStrings.Count` | main.go:424 | zero exactly when the character is absent, and never more than the length |
| `GoStrings.CountConcat` | main.go:424 | the count over a concatenation is the sum of the counts |
| `GoStrings.Split` | main.go:270 | one more field than separators, and no field contains the separator |
| `GoStrings.SplitAtFirst` | main.go:270 | at the first separator, the fields are the text before it followed by the fields of the text after it |
| `GoStrings.SplitJoin` | main.go:270 | joining the fields with the separator gives the text back, so the fields are exactly the pieces between separators |
| `GoStrings.TrimPrefix` | main.go:88 | with the prefix present, prefix + result is the input; otherwise the input comes back unchanged |
| `GoStrings.TrimSuffix` | main.go:107 | with the suffix present, result + suffix is the input; otherwise the input comes back unchanged |
| `GoStrings.ReplaceAllAbsent` | main.go:322-323 | text free of the token is unchanged |
| `GoStrings.ReplaceAllSkipsPrefix` | main.go:322-323 | a prefix in which no occurrence starts is kept and the rest is replaced |
| `GoStrings.ReplaceAllAt` | main.go:322-323 | the first occurrence of the token is replaced and the scan goes on after it, so every occurrence left to right is replaced |
| `GoStrings.ReplaceAllOnce` | main.go:322-323 | an occurrence of the token with none starting before it and none after it is replaced, and the text on both sides is kept |
| `GoStrings.ReplaceAll` | main.go:322-323 | replacing the token by itself changes nothing |
| `GoStrings.ToLower` | main.go:370 | same length; each character folded to lower case |
| `GoStrings.LexLessIrreflexive` | main.go:406 | no string is `<` itself |
| `GoStrings.LexLessTransitive` | main.go:406 | string `<` is transitive |
| `GoStrings.LexLessTotal` | main.go:406 | two strings are equal or one is `<` the other |
| `GoStrings.FormatDecimal` | main.go:360 | `%d` of a port prints at least one character, and only digits |
| `GoStrings.DecimalRoundTrip` | main.go:360 | reading back the printed digits gives the port |
| `Urls.GetHostname` | main.go:431-433 | the longest ':'-free prefix of the Host header: a prefix, with no ':', followed by ':' or the end |
| `Urls.BuildUrlWithPort` | main.go:352-366 | the new scheme; path and query kept; a port of 0 leaves the host exactly the hostname, any other port gives the hostname followed by ':' |
| `Urls.BuildUrlHostRoundTrip` | main.go:358-363 | the built host splits back into the hostname (by getHostname) and the port, and a port of 0 leaves no port |
| `ConsulAddress.ParseConsulAddress` | main.go:412-429 | the port type returned never contains a dot |
| `ConsulAddress.FirstDotSplit` | main.go:417-418 | a service part with a dot is its dot-free head, a dot and a tail holding one dot fewer |
| `ConsulAddress.ParseNoDot` | main.go:413-415 | a dot-free service part is the name, with an empty port type |
| `ConsulAddress.ParseManyDots` | main.go:424-426 | two dots or more in the service part give the empty address |
| `ConsulAddress.ParseOneDot` | main.go:417-421 | one dot in the service part: the name and the port type are the fields on either side, each losing one leading '_' |
| `ConsulAddress.ParseTwoFields` | main.go:417-421 | `p0.p1` before ".service." parses to `p0` and `p1`, each less one leading '_' |
| `ConsulAddress.ServicePartOf` | main.go:413-414 | the service part of `prefix.service.rest` is `prefix` when ".service." first occurs after it |
| `ConsulAddress.ParseNameForm` | main.go:412-429 | `name.service.<anything>` parses to (name, "") |
| `ConsulAddress.ParsePortForm` | main.go:412-429 | `_name._port.service.<anything>` parses to (name, port) |
| `ConsulAddress.ParseDotlessHost` | main.go:413-415 | a dotless hostname is taken whole as the service name |
| `ConsulAddress.ParseExampleName` | main_test.go:13 | foobar.service.consul parses to (foobar, "") |
| `ConsulAddress.ParseExampleHttp` | main_test.go:14 | _foobar._http.service.consul parses to (foobar, http) |
| `ConsulAddress.ParseExampleRpc` | main_test.go:15 | _foobar._rpc.service.consul parses to (foobar, rpc) |
| `ConsulAddress.ParseExampleNameDatacenter` | main_test.go:17 | foobar.service.site.consul parses to (foobar, "") |
| `ConsulAddress.ParseExampleHttpDatacenter` | main_test.go:18 | _foobar._http.service.site.consul parses to (foobar, http) |
| `ConsulAddress.ParseExampleRpcDatacenter` | main_test.go:19 | _foobar._rpc.service.site.consul parses to (foobar, rpc) |
| `ConsulAddress.ParseLiteralExamples` | main.go:412-429 | the IP literal 10.0.0.1 gives the empty address; `junk` gives (junk, "") |
| `ConsulAddress.AddHostnameSuffix` | main.go:332-338 | an empty suffix leaves the name; a suffix starting with a dot is appended as it is, any other suffix after a dot |
| `ConsulAddress.AddThenCutSuffix` | main.go:106-107 | for a non-empty suffix without a leading dot, the name built ends with "." + suffix and trimming that gives the node name back |
| `CustomRoutes.FindRoute` | main.go:263-284 | the key is in the table and is the first of (host + path, host/first segment when the path has two or more, host) that the table holds; none iff the table holds none of them |
| `CustomRoutes.SegmentKeyMatches` | main.go:270-276 | for `/seg/...`, with the full-path key absent and `host/seg` present, `host/seg` is chosen |
| `CustomRoutes.Remainder` | main.go:314-318 | a key without '/' leaves the path as it is; otherwise what is left is a suffix of the path, never longer |
| `CustomRoutes.RedirectToCustomRoute` | main.go:303-330 | a template parse error exactly when the template does not parse; the empty-slice failure exactly when the template parses, holds `$arg$` and nothing of the path is left after trimming; a result has the template's scheme and host, and without `$arg$` the request's query |
| `CustomRoutes.KeyTail` | main.go:315-317 | for `host/seg` with a '/'-free host, the key contains '/' and the text after it is `seg` |
| `CustomRoutes.SplitSecondField` | main.go:270-273 | `/seg/rest` has more than two fields, the second being `seg` |
| `CustomRoutes.SplitLeadingSlash` | main.go:270 | a path starting with '/' has an empty first field |
| `CustomRoutes.SplitAfterSegment` | main.go:270-273 | a '/'-free segment followed by '/' is the first field, and the rest splits on its own |
| `CustomRoutes.RewriteAppendsRemainder` | main.go:309-326 | no `$arg$`, key `host/seg`, path `/seg` + rest: the template path (if longer than "/") then rest, and the request's query |
| `CustomRoutes.RewriteBareHost` | main.go:309-326 | no `$arg$`, bare host key: the template path (if longer than "/") then the whole request path, and the request's query |
| `CustomRoutes.RewriteSubstitutesArg` | main.go:320-323 | `$arg$`, key `host/seg`, path `/seg/arg`: path and query are the template's with every `$arg$` replaced by arg; the request query is dropped |
| `CustomRoutes.RewriteBareHostArg` | main.go:315-323 | `$arg$`, bare host key, non-empty path: the argument is the whole path less its first character; the request query is dropped |
| `CustomRoutes.RewriteBareHostEmptyPath` | main.go:315-321 | `$arg$`, bare host key, empty path: the empty-slice failure |
| `CustomRoutes.RewriteEmptyArg` | main.go:320-321 | `$arg$`, key `host/seg`, path exactly `/seg`: the empty-slice failure |
| `CustomRoutes.RewriteExactKey` | main.go:315-326 | a key holding the whole path trims all of it: the template path (if longer than "/") and the request's query |
| `CustomRoutes.TryCustomRoutes` | main.go:263-301 | nothing iff the table holds none of the candidate keys |
| `Options.ToUint16` | main.go:400 | values in range are kept; otherwise the result is congruent to the input modulo 65536 |
| `Options.OptionsOf` | main.go:394-402 | one option per catalog entry, in reply order, each with the entry's node, tags and truncated port |
| `Options.GuessScheme` | main.go:368-378 | "http" or "https"; "https" exactly when the first tag naming a scheme (in any case) names https |
| `Options.FirstHttpsTagStep` | main.go:369-376 | a leading tag naming no scheme does not change which tag decides |
| `Options.BuildURL` | main.go:347-350 | the guessed scheme, the request's path and query, and the hostname as host, bare when the port is 0 |
| `Options.AsWrittenNotStrictWeakOrder` | main.go:405-407 | the comparator as written is not a strict weak order |
| `Options.LessAsWritten` | main.go:405-407 | any pair the comparator as written orders is ordered the same way by the corrected one |
| `Options.BeforeUnordered` | main.go:404 | two options are unordered by the corrected comparator exactly when hostname and port agree |
| `Options.BeforeTransitive` | main.go:404 | the corrected comparator is transitive |
| `Options.BeforeAsymmetric` | main.go:404 | the corrected comparator is asymmetric |
| `Options.BeforeIsStrictWeakOrder` | main.go:404 | the corrected comparator (hostname, then port) is a strict weak order |
| `Options.NotBeforeTransitive` | main.go:404 | "not after" is transitive for the corrected comparator |
| `Options.PrependSorted` | main.go:405-407 | an element that nothing in a sorted list comes before keeps the list sorted in front |
| `Options.InsertInFront` | main.go:405-407 | an element the head of a sorted list does not come before may go in front of it |
| `Options.InsertBehindHead` | main.go:405-407 | the head of a sorted list stays in front of its tail with an element it comes before inserted |
| `Options.Insert` | main.go:405-407 | inserting keeps a sorted list sorted and adds exactly that element |
| `Options.SortOptions` | main.go:405-407 | sorted by hostname then port, and a permutation of the input |
| `Options.QueryConsul` | main.go:380-410 | the empty address asks nothing and gives no options; a catalog error is passed on; otherwise a sorted permutation of one option per entry |
| `Options.QueryConsulForHostname` | main.go:380-410 | the source's loop, then the corrected sort, gives exactly QueryConsul's result |
| `Handler.QuickLinksFor` | main.go:243-252 | each link goes to its configured UI hostname when one is set, otherwise to the request hostname |
| `Handler.StatusCode` | main.go:86-229 | no status only for the panic; 307 exactly for a redirect; 500 exactly for a route or catalog error; 404 exactly for no instance; 200 otherwise, including the help page, which never calls WriteHeader |
| `Handler.CustomRouteStep` | main.go:104-111 | nothing exactly when no key matches the hostname and, for a name ending in "." + suffix, none matches the name without it; a key for the hostname itself is tried first |
| `Handler.NomadRedirect` | main.go:114-119 | http to the hostname with a port; an empty or "/" path becomes the clients search for the hostname, any other path and query are kept |
| `Handler.EntryFor` | main.go:207-208 | the suffixed node name, the option's port and tags, and a link with the guessed scheme, that name as host, and the request's path and query |
| `Handler.ListingOf` | main.go:206-225 | one line per option, in order, each the option's entry |
| `Handler.ListingPermutation` | main.go:206-225 | listing a permutation of the options gives a permutation of the listing lines |
| `Handler.ConsulOutcome` | main.go:136-228 | the help page exactly when no service name parses; a directory error only with the catalog's own error for the parsed address |
| `Handler.ServeHTTP` | main.go:86-229 | health iff the path starts with "health"; metrics iff not health and it starts with "metrics"; route error or abort only after a route matched; directory error only with the catalog's error |
| `Handler.ParseStepDecides` | main.go:136 | past probes, routes and Nomad mode, the Consul part answers |
| `Handler.RouteStepDecides` | main.go:104-111 | a custom-route step that yields something decides the answer |
| `Handler.RouteOnHostnameDecides` | main.go:104-105 | a route matched on the hostname decides the answer, even when its rewrite fails |
| `Handler.RoutedRedirect` | main.go:286-299 | a matched route that rewrites to u gives a redirect to u |
| `Handler.SuffixFallback` | main.go:106-110 | with no key for `h.<suffix>`, the route step is the lookup for `h` |
| `Handler.RouteWithoutSuffixDecides` | main.go:106-110 | a key written without the cluster suffix is reached from `h.<suffix>` |
| `Handler.NomadRedirectTarget` | main.go:113-119 | the Nomad redirect: http, same hostname, port 4646; an empty or "/" path becomes the clients search for the hostname, any other path and query are kept |
| `Handler.NomadStepDecides` | main.go:113-133 | past the probes and the routes, Nomad mode redirects to the Nomad UI |
| `Handler.NomadSuffixWithoutDot` | main.go:106-113 | a name ending in the suffix text without a dot before it goes to the Nomad UI, although the route step does not cut that suffix |
| `Handler.EmptySuffixSendsAllToNomad` | main.go:113 | with Nomad mode on and an empty suffix, every request no route takes is redirected to port 4646 of its own hostname |
| `Handler.UnparsedHostnameGetsHelp` | main.go:136-148 | an unparsed hostname gets the help page with quick links, status 200 |
| `Handler.CatalogFailureIsServerError` | main.go:150-161 | a catalog error is answered with 500 and that error |
| `Handler.NoCandidateIsNotFound` | main.go:187-198 | no instance: 404 with the name, port type and quick links |
| `Handler.OneCandidateIsRedirect` | main.go:163-180 | one instance: 307 to the request's hostname at the instance port, with the tag-guessed scheme and the request's path and query |
| `Handler.ConsulListing` | main.go:200-228 | two options or more give the listing with quick links |
| `Handler.ServedListing` | main.go:136-228 | a request that reaches the catalog and gets two options or more is answered by the listing of exactly those options |
| `Handler.SeveralCandidatesAreListed` | main.go:200-228 | several instances: 200, and the listing lines are those of the catalog entries, each exactly once (up to the sort's order) |
| `Handler.CatalogOptions` | main.go:394-409 | a catalog reply for a parsed address gives one option per entry, in some order |
| `Handler.EntryTarget` | main.go:207-208 | a listing line links to the suffixed node name at the option's port, with the guessed scheme and the request's path and query |
| `Handler.HomeRouteExample` | main.go:280-282 | route {"h": "http://home:1234"}: /foo?key=val redirects to http://home:1234/foo?key=val |
| `Handler.GrafanaRouteExample` | main.go:324-326 | route {"h/grafana": "http://grafana:2345/graphs/index"}: /grafana/foo redirects to path /graphs/index/foo |
| `Handler.ArgRouteExample` | main.go:320-323 | route {"h/graph": "http://grafana:2345/graph?id=$arg$&detail=1"}: /graph/1234?range=4h redirects to /graph?id=1234&detail=1, dropping range=4h |

## Left out

- `main`, `runServer`, the flag parsing and the listening socket (main.go:17-44) are process set-up. The flag values enter the model as the `Flags` datatype.
- `NewServer` (main.go:53-72) creates the Consul client. The client appears only as the `Catalog` function held in `Server`.
- `parseCustomRoutes` (main.go:74-82) decodes JSON. The model takes the decoded table as a `map<string, string>`. "" and "{}" both give an empty table.
- `url.Parse` of a route template is a parameter of the model, `UrlParser`. The re-parse of the request URL at main.go:353 is taken to return the same URL. So `buildUrlWithPort` never fails. The 500 answers that need it to fail are not modelled: the single redirect (main.go:165-174) and the route rewrite (main.go:309-312, answered at main.go:292-296). Neither is the listing stopping part-way after its 200 (main.go:209-211). On the Nomad path a failure would not reach the 500 at main.go:121-130 either: main.go:116 reads the path of the nil URL before the error is checked, which panics.
- `url.URL.String()`, escaping, user info and fragments: a URL is its scheme, host, path and raw query.
- The HTML text of the pages, `printHostnameTips`, the log lines and the `Content-Type` header. Only the data the pages carry is kept: hostname, name, port type, quick-link hosts and listing lines.
- The `Location` header is the URL record rather than `http.Redirect`'s rendering of it.
- The panic at main.go:321 is the `Aborted` outcome. net/http's recovery, which drops the connection, is not modelled.
- Requests are handled concurrently in the source. The model decides one request, and the handler shares no mutable state.
- `Options.SortOptions`: the algorithm inside `sort.Slice` is not modelled. The model sorts by the corrected comparator and proves the result sorted and a permutation. Everything the handler lemmas state holds for any permutation of the options.
- `GoStrings.SplitN2`: the empty separator, for which Go splits off the first character, is not modelled. main.go never passes one.
- `GoStrings.ToLower`: folds ASCII letters only. Go's `strings.ToLower` also folds other Unicode letters. The scheme guess is the same either way: it only compares the folded tag with "http" and "https", and no non-ASCII letter lowercases to h, t, p or s.
- `CustomRoutes.RedirectToCustomRoute`: the guard `len(parsedUrl.Path) > 1` (main.go:324) and the slice `[1:]` (main.go:321) count bytes in Go and characters here. They differ only for non-ASCII paths.

## Findings

| source | as written | input that shows it | evidently intended | confidence | as-written member | corrected member |
|---|---|---|---|---|---|---|
| main.go:405-407 | the sort comparator is `a.Hostname < b.Hostname && a.Port < b.Port`, which is not a strict weak order | ("a", 1) and ("z", 0) are unordered, and so are ("z", 0) and ("c", 3), yet ("a", 1) sorts before ("c", 3); sort.Slice then only promises some permutation | order by hostname, then by port (the comment at main.go:404) | not executed | `Options.AsWrittenNotStrictWeakOrder` | `Options.BeforeIsStrictWeakOrder` |
