/**
  The request URL as the redirector sees it, the host-header split of
  getHostname, and buildUrlWithPort, which copies a URL with a new scheme and
  host.
 */
module Urls {
  import opened Wrappers
  import opened GoStrings

  /** Go's uint16. */
  type uint16 = x: int | 0 <= x < 0x1_0000

  /**
    The fields of a net/url URL that the redirector reads or writes. Userinfo,
    fragment and the raw (escaped) path are not modelled.
   */
  datatype Url = Url(scheme: string, host: string, path: string, rawQuery: string)

  /**
    getHostname (main.go:431-433): the Host header up to its first ':'.
    It is the longest prefix of the header free of ':'.
   */
  function GetHostname(hostHeader: string): (h: string)
    ensures HasPrefix(hostHeader, h)
    ensures ':' !in h
    ensures |h| < |hostHeader| ==> hostHeader[|h|] == ':'
  {
    var parts := SplitN2(hostHeader, ":");
    ContainsChar(hostHeader, ':');
    if |parts| == 2 then
      OccursAtChar(hostHeader, ':', |parts[0]|);
      assert hostHeader[..|parts[0]|] == parts[0];
      forall j | 0 <= j < |parts[0]| ensures parts[0][j] != ':' {
        OccursAtChar(hostHeader, ':', j);
      }
      parts[0]
    else
      parts[0]
  }

  /**
    The port written after the first ':' of a host, when that text is a
    decimal number.
   */
  function HostPort(host: string): Option<nat>
  {
    var parts := SplitN2(host, ":");
    if |parts| == 2 && forall i :: 0 <= i < |parts[1]| ==> IsDigit(parts[1][i])
    then Some(ParseDecimal(parts[1]))
    else None
  }

  /**
    buildUrlWithPort (main.go:352-366): the original URL with a new scheme and
    host; the host carries ":port" unless the port is 0. The re-parse of the
    original URL at main.go:353 is taken to give back the same URL, so this
    never fails.
   */
  function BuildUrlWithPort(hostname: string, orig: Url, scheme: string, port: uint16): (u: Url)
    ensures u.scheme == scheme && u.path == orig.path && u.rawQuery == orig.rawQuery
    ensures HasPrefix(u.host, hostname)
    ensures port == 0 ==> u.host == hostname
    ensures port != 0 ==> HasPrefix(u.host, hostname + ":")
  {
    orig.(scheme := scheme,
          host := if port != 0 then hostname + ":" + FormatDecimal(port) else hostname)
  }

  /**
    The host that buildUrlWithPort writes splits back into the hostname it was
    given (by getHostname) and the port (by reading the digits after ':').
   */
  lemma BuildUrlHostRoundTrip(hostname: string, orig: Url, scheme: string, port: uint16)
    requires ':' !in hostname
    ensures GetHostname(BuildUrlWithPort(hostname, orig, scheme, port).host) == hostname
    ensures HostPort(BuildUrlWithPort(hostname, orig, scheme, port).host)
            == if port == 0 then None else Some(port)
  {
    var host := BuildUrlWithPort(hostname, orig, scheme, port).host;
    if port == 0 {
      ContainsChar(hostname, ':');
    } else {
      var digits := FormatDecimal(port);
      assert host == hostname + ":" + digits;
      OccursAtChar(host, ':', |hostname|);
      forall j | 0 <= j < |hostname| ensures !OccursAt(host, ":", j) {
        OccursAtChar(host, ':', j);
      }
      IndexIsFirst(host, ":", |hostname|);
      assert SplitN2(host, ":")[1] == digits;
      DecimalRoundTrip(port);
    }
  }
}
