/**
  The redirect options built from a Consul catalog reply
  (queryConsulForHostname, main.go:380-410), the scheme guessed from an
  option's tags, and the order the options are listed in.
 */
module Options {
  import opened Wrappers
  import opened GoStrings
  import opened Urls
  import opened ConsulAddress

  /** The fields of one Consul catalog entry that the redirector reads. */
  datatype CatalogEntry = CatalogEntry(node: string, serviceTags: seq<string>, servicePort: int)

  /**
    The Consul catalog query `Catalog().Service(name, tag)`, a network call
    outside this model: the reply for a service name and port type, or the
    error text.
   */
  type Catalog = (string, string) -> Result<seq<CatalogEntry>, string>

  /** RedirectOption (main.go:340-345): one service instance that can be redirected to. */
  datatype RedirectOption = RedirectOption(hostname: string, tags: seq<string>, port: uint16)

  /** Go's uint16(x) on an int: the low 16 bits, which is the Euclidean remainder. */
  function ToUint16(x: int): (r: uint16)
    ensures 0 <= x < 0x1_0000 ==> r == x
    ensures (r - x) % 0x1_0000 == 0
  {
    x % 0x1_0000
  }

  /** The option main.go:397-401 appends for one catalog entry. */
  function ToOption(e: CatalogEntry): RedirectOption
  {
    RedirectOption(e.node, e.serviceTags, ToUint16(e.servicePort))
  }

  /** The options for a catalog reply, one per entry and in reply order. */
  function OptionsOf(services: seq<CatalogEntry>): (opts: seq<RedirectOption>)
    ensures |opts| == |services|
    ensures forall i :: 0 <= i < |services| ==> opts[i] == ToOption(services[i])
  {
    if services == [] then []
    else [ToOption(services[0])] + OptionsOf(services[1..])
  }

  /** A tag that settles the scheme: "http" or "https" in any ASCII case. */
  predicate IsSchemeTag(tag: string)
  {
    ToLower(tag) == "http" || ToLower(tag) == "https"
  }

  /**
    guessScheme (main.go:368-378): the scheme named by the first tag that names
    one, "http" when none does.
   */
  function GuessScheme(tags: seq<string>): (scheme: string)
    ensures scheme == "http" || scheme == "https"
    ensures scheme == "https" <==> FirstSchemeTagIsHttps(tags)
  {
    if tags == [] then "http"
    else
      var t := ToLower(tags[0]);
      if t == "http" then "http"
      else if t == "https" then "https"
      else
        FirstHttpsTagStep(tags);
        GuessScheme(tags[1..])
  }

  /** The first scheme-naming tag names "https". */
  ghost predicate FirstSchemeTagIsHttps(tags: seq<string>)
  {
    exists i :: 0 <= i < |tags| && ToLower(tags[i]) == "https"
                && forall j :: 0 <= j < i ==> !IsSchemeTag(tags[j])
  }

  /** A leading tag that names no scheme does not change which tag is the first to name one. */
  lemma FirstHttpsTagStep(tags: seq<string>)
    requires tags != [] && !IsSchemeTag(tags[0])
    ensures FirstSchemeTagIsHttps(tags) <==> FirstSchemeTagIsHttps(tags[1..])
  {
    var tail := tags[1..];
    if FirstSchemeTagIsHttps(tail) {
      var i :| 0 <= i < |tail| && ToLower(tail[i]) == "https"
               && forall j :: 0 <= j < i ==> !IsSchemeTag(tail[j]);
      assert tags[i + 1] == tail[i];
      assert forall j :: 1 <= j < i + 1 ==> tags[j] == tail[j - 1];
    }
    if FirstSchemeTagIsHttps(tags) {
      var i :| 0 <= i < |tags| && ToLower(tags[i]) == "https"
               && forall j :: 0 <= j < i ==> !IsSchemeTag(tags[j]);
      assert i != 0;
      assert tail[i - 1] == tags[i];
      assert forall j :: 0 <= j < i - 1 ==> tail[j] == tags[j + 1];
    }
  }

  /** RedirectOption.BuildURL (main.go:347-350): the request URL sent to `hostname` at the option's port, with the guessed scheme. */
  function BuildURL(option: RedirectOption, hostname: string, orig: Url): (u: Url)
    ensures u.scheme == GuessScheme(option.tags)
    ensures u.path == orig.path && u.rawQuery == orig.rawQuery
    ensures HasPrefix(u.host, hostname) && (option.port == 0 ==> u.host == hostname)
  {
    BuildUrlWithPort(hostname, orig, GuessScheme(option.tags), option.port)
  }

  /** The comparator main.go:405-407 hands to sort.Slice, as written. */
  predicate LessAsWritten(a: RedirectOption, b: RedirectOption)
    ensures LessAsWritten(a, b) ==> Before(a, b)
  {
    LexLess(a.hostname, b.hostname) && a.port < b.port
  }

  /**
    The comparator evidently intended ("lowest to highest port number for each
    hostname"): by hostname, then by port.
   */
  predicate Before(a: RedirectOption, b: RedirectOption)
  {
    LexLess(a.hostname, b.hostname) || (a.hostname == b.hostname && a.port < b.port)
  }

  /** What sort.Slice requires of its comparator: a strict weak order. */
  ghost predicate StrictWeakOrder(less: (RedirectOption, RedirectOption) -> bool)
  {
    && (forall x :: !less(x, x))
    && (forall x, y, z :: less(x, y) && less(y, z) ==> less(x, z))
    && (forall x, y, z :: !less(x, y) && !less(y, x) && !less(y, z) && !less(z, y) ==> !less(x, z))
  }

  /**
    The comparator as written is no strict weak order: ("a", 1) and ("z", 0)
    are unordered, as are ("z", 0) and ("c", 3), yet ("a", 1) comes before
    ("c", 3). sort.Slice's result is then only some permutation of its input.
   */
  lemma AsWrittenNotStrictWeakOrder()
    ensures !StrictWeakOrder(LessAsWritten)
  {
    var a := RedirectOption("a", [], 1);
    var z := RedirectOption("z", [], 0);
    var c := RedirectOption("c", [], 3);
    assert !LessAsWritten(a, z) && !LessAsWritten(z, a);
    assert !LessAsWritten(z, c) && !LessAsWritten(c, z);
    assert LexLess(a.hostname, c.hostname);
    assert LessAsWritten(a, c);
  }

  /** Two options are unordered by Before exactly when they agree on hostname and port. */
  lemma BeforeUnordered(x: RedirectOption, y: RedirectOption)
    ensures !Before(x, y) && !Before(y, x) <==> x.hostname == y.hostname && x.port == y.port
  {
    LexLessTotal(x.hostname, y.hostname);
    LexLessIrreflexive(x.hostname);
    if LexLess(x.hostname, y.hostname) && LexLess(y.hostname, x.hostname) {
      LexLessTransitive(x.hostname, y.hostname, x.hostname);
    }
  }

  lemma BeforeTransitive(x: RedirectOption, y: RedirectOption, z: RedirectOption)
    ensures Before(x, y) && Before(y, z) ==> Before(x, z)
  {
    if LexLess(x.hostname, y.hostname) && LexLess(y.hostname, z.hostname) {
      LexLessTransitive(x.hostname, y.hostname, z.hostname);
    }
  }

  lemma BeforeAsymmetric(x: RedirectOption, y: RedirectOption)
    ensures Before(x, y) ==> !Before(y, x)
  {
    BeforeTransitive(x, y, x);
    LexLessIrreflexive(x.hostname);
  }

  /** The corrected comparator is a strict weak order, so sorting by it is well defined up to ties. */
  lemma BeforeIsStrictWeakOrder()
    ensures StrictWeakOrder(Before)
  {
    forall x ensures !Before(x, x) {
      LexLessIrreflexive(x.hostname);
    }
    forall x, y, z | Before(x, y) && Before(y, z) ensures Before(x, z) {
      BeforeTransitive(x, y, z);
    }
    forall x, y, z | !Before(x, y) && !Before(y, x) && !Before(y, z) && !Before(z, y)
      ensures !Before(x, z)
    {
      BeforeUnordered(x, y);
      BeforeUnordered(y, z);
      BeforeUnordered(x, z);
    }
  }

  /** "Not after" is transitive for Before. */
  lemma NotBeforeTransitive(x: RedirectOption, y: RedirectOption, z: RedirectOption)
    requires !Before(y, x) && !Before(z, y)
    ensures !Before(z, x)
  {
    BeforeUnordered(x, y);
    BeforeTransitive(z, x, y);
  }

  /** The options in order of Before: no option is followed by one that comes before it. */
  ghost predicate SortedByBefore(s: seq<RedirectOption>)
  {
    forall i, j :: 0 <= i < j < |s| ==> !Before(s[j], s[i])
  }

  /** A sorted list stays sorted with an option in front that none of its elements comes before. */
  lemma PrependSorted(y: RedirectOption, t: seq<RedirectOption>)
    requires SortedByBefore(t)
    requires forall e :: e in t ==> !Before(e, y)
    ensures SortedByBefore([y] + t)
  {
    var r := [y] + t;
    forall i, j | 0 <= i < j < |r| ensures !Before(r[j], r[i]) {
      assert r[j] == t[j - 1];
      if i > 0 { assert r[i] == t[i - 1]; }
    }
  }

  /** An option that no element of a sorted list comes before may go in front of it. */
  lemma InsertInFront(x: RedirectOption, s: seq<RedirectOption>)
    requires SortedByBefore(s)
    requires s != [] && !Before(s[0], x)
    ensures SortedByBefore([x] + s)
  {
    forall e | e in s ensures !Before(e, x) {
      var j :| 0 <= j < |s| && s[j] == e;
      if j > 0 { NotBeforeTransitive(x, s[0], s[j]); }
    }
    PrependSorted(x, s);
  }

  /** The head of a sorted list stays in front of its tail with an option it comes before inserted. */
  lemma InsertBehindHead(x: RedirectOption, s: seq<RedirectOption>, tail: seq<RedirectOption>)
    requires SortedByBefore(s)
    requires s != [] && Before(s[0], x)
    requires SortedByBefore(tail) && multiset(tail) == multiset(s[1..]) + multiset{x}
    ensures SortedByBefore([s[0]] + tail)
  {
    BeforeAsymmetric(s[0], x);
    forall e | e in tail ensures !Before(e, s[0]) {
      assert e in multiset(tail);
      if e != x {
        var j :| 0 <= j < |s[1..]| && s[1..][j] == e;
        assert s[j + 1] == e;
      }
    }
    PrependSorted(s[0], tail);
  }

  /** Inserting into a sorted list at the first place that keeps it sorted. */
  function Insert(x: RedirectOption, s: seq<RedirectOption>): (r: seq<RedirectOption>)
    requires SortedByBefore(s)
    ensures multiset(r) == multiset(s) + multiset{x}
    ensures SortedByBefore(r)
  {
    if s == [] then [x]
    else if Before(s[0], x) then
      var tail := Insert(x, s[1..]);
      assert s == [s[0]] + s[1..];
      InsertBehindHead(x, s, tail);
      [s[0]] + tail
    else
      InsertInFront(x, s);
      [x] + s
  }

  /**
    The options ordered by Before, a permutation of the input (insertion sort;
    the algorithm sort.Slice uses is not modelled).
   */
  function SortOptions(s: seq<RedirectOption>): (r: seq<RedirectOption>)
    ensures multiset(r) == multiset(s)
    ensures SortedByBefore(r)
  {
    if s == [] then []
    else
      assert s == [s[0]] + s[1..];
      Insert(s[0], SortOptions(s[1..]))
  }

  /**
    queryConsulForHostname (main.go:380-410) as a value: nothing to ask for an
    empty address, the catalog's error passed on, otherwise one option per
    catalog entry, sorted.
   */
  function QueryConsul(catalog: Catalog, hostname: string): (r: Result<seq<RedirectOption>, string>)
    ensures var a := ParseConsulAddress(hostname);
            && (a == ServiceAddress("", "") ==> r == Success([]))
            && (a != ServiceAddress("", "") ==>
                  match catalog(a.name, a.portType)
                  case Failure(e) => r == Failure(e)
                  case Success(services) =>
                    r.Success? && multiset(r.value) == multiset(OptionsOf(services)) && SortedByBefore(r.value))
  {
    var a := ParseConsulAddress(hostname);
    if a.name == "" && a.portType == "" then Success([])
    else
      match catalog(a.name, a.portType)
      case Failure(e) => Failure(e)
      case Success(services) => Success(SortOptions(OptionsOf(services)))
  }

  /**
    queryConsulForHostname (main.go:380-410) as the source runs it: a loop
    appends one option per catalog entry, then the options are sorted.
   */
  method QueryConsulForHostname(catalog: Catalog, hostname: string) returns (r: Result<seq<RedirectOption>, string>)
    ensures r == QueryConsul(catalog, hostname)
  {
    var a := ParseConsulAddress(hostname);
    if a.name == "" && a.portType == "" {
      return Success([]);
    }
    var reply := catalog(a.name, a.portType);
    if reply.Failure? {
      return Failure(reply.error);
    }
    var services := reply.value;
    var options: seq<RedirectOption> := [];
    for i := 0 to |services|
      invariant |options| == i
      invariant forall k :: 0 <= k < i ==> options[k] == ToOption(services[k])
    {
      options := options + [RedirectOption(services[i].node, services[i].serviceTags, ToUint16(services[i].servicePort))];
    }
    assert options == OptionsOf(services);
    r := Success(SortOptions(options));
  }
}
