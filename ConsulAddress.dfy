/**
  Consul DNS-style service addresses: `name.service[.dc].consul` and
  `_name._port.service[.dc].consul`, and the cluster hostname suffix.
 */
module ConsulAddress {
  import opened GoStrings

  /** The (service name, port type) pair parseConsulAddress returns; "" means absent. */
  datatype ServiceAddress = ServiceAddress(name: string, portType: string)

  /** The text before the first ".service." (all of the hostname if there is none). */
  function ServicePart(hostname: string): string
  {
    SplitN2(hostname, ".service.")[0]
  }

  /**
    parseConsulAddress (main.go:412-429). Only the service part is read; if it
    holds a dot, the fields before and after its first dot, each losing one
    leading '_', are the name and the port type; a port type that still holds a
    dot makes the whole result empty.
   */
  function ParseConsulAddress(hostname: string): (a: ServiceAddress)
    ensures '.' !in a.portType
  {
    var svcName := ServicePart(hostname);
    var named :=
      if Contains(svcName, ".") then
        var parts := SplitN2(svcName, ".");
        ServiceAddress(TrimPrefix(parts[0], "_"), TrimPrefix(parts[1], "_"))
      else
        ServiceAddress(svcName, "");
    if Count(named.portType, '.') > 0 then ServiceAddress("", "") else named
  }

  /** A service part holding a dot splits at its first dot into a dot-free head and the rest. */
  lemma FirstDotSplit(part: string) returns (p0: string, p1: string)
    requires '.' in part
    ensures SplitN2(part, ".") == [p0, p1] && part == p0 + "." + p1
    ensures '.' !in p0 && Count(part, '.') == Count(p1, '.') + 1
  {
    ContainsChar(part, '.');
    var parts := SplitN2(part, ".");
    p0, p1 := parts[0], parts[1];
    forall j | 0 <= j < |p0| ensures p0[j] != '.' {
      OccursAtChar(part, '.', j);
      assert part[j] == p0[j];
    }
    assert Count(p0, '.') == 0;
    CountConcat(p0 + ".", p1, '.');
    CountConcat(p0, ".", '.');
  }

  /** The parse, when the service part has no dot: the part itself is the name. */
  lemma ParseNoDot(hostname: string)
    requires '.' !in ServicePart(hostname)
    ensures ParseConsulAddress(hostname) == ServiceAddress(ServicePart(hostname), "")
  {
    ContainsChar(ServicePart(hostname), '.');
  }

  /** The parse, when the service part has two dots or more: nothing. */
  lemma ParseManyDots(hostname: string)
    requires Count(ServicePart(hostname), '.') >= 2
    ensures ParseConsulAddress(hostname) == ServiceAddress("", "")
  {
    var part := ServicePart(hostname);
    ContainsChar(part, '.');
    var p0, p1 := FirstDotSplit(part);
    var typ := TrimPrefix(p1, "_");
    if HasPrefix(p1, "_") {
      CountConcat("_", typ, '.');
    }
    assert Count(typ, '.') > 0;
  }

  /** The parse, when the service part has exactly one dot, at `i`: the fields on either side of it. */
  lemma ParseOneDot(hostname: string, i: int)
    requires var part := ServicePart(hostname);
             Count(part, '.') == 1 && 0 <= i < |part| && part[i] == '.'
    ensures var part := ServicePart(hostname);
            ParseConsulAddress(hostname)
            == ServiceAddress(TrimPrefix(part[..i], "_"), TrimPrefix(part[i + 1..], "_"))
  {
    var part := ServicePart(hostname);
    var p0, p1 := FirstDotSplit(part);
    assert '.' !in p1;
    assert i == |p0| by {
      forall j | 0 <= j < |part| && j != |p0| ensures part[j] != '.' {
        if j < |p0| {
          assert part[j] == p0[j];
        } else {
          assert part[j] == p1[j - |p0| - 1];
        }
      }
    }
    assert part[..i] == p0 && part[i + 1..] == p1;
    ParseTwoFields(hostname, p0, p1);
  }

  /** The service part of `prefix + ".service." + rest` is `prefix` when no earlier ".service." starts inside `prefix`. */
  lemma ServicePartOf(prefix: string, rest: string)
    requires forall i :: 0 <= i < |prefix| ==> !OccursAt(prefix + ".service." + rest, ".service.", i)
    ensures ServicePart(prefix + ".service." + rest) == prefix
  {
    var s := prefix + ".service." + rest;
    assert s[|prefix|..|prefix| + 9] == ".service.";
    IndexIsFirst(s, ".service.", |prefix|);
  }

  /** An occurrence of ".service." starts with a dot followed by 's'. */
  lemma ServiceOccurrence(s: string, i: int)
    ensures OccursAt(s, ".service.", i) ==> s[i] == '.' && s[i + 1] == 's'
  {
    if OccursAt(s, ".service.", i) {
      assert s[i..i + 9][0] == s[i] && s[i..i + 9][1] == s[i + 1];
    }
  }

  /** A hostname whose service part has exactly one dot, between `p0` and `p1`, parses to those two fields, less one leading '_' each. */
  lemma ParseTwoFields(hostname: string, p0: string, p1: string)
    requires ServicePart(hostname) == p0 + "." + p1
    requires '.' !in p0 && '.' !in p1
    ensures ParseConsulAddress(hostname) == ServiceAddress(TrimPrefix(p0, "_"), TrimPrefix(p1, "_"))
  {
    var part := p0 + "." + p1;
    OccursAtChar(part, '.', |p0|);
    forall j | 0 <= j < |p0| ensures !OccursAt(part, ".", j) {
      OccursAtChar(part, '.', j);
      assert part[j] == p0[j];
    }
    IndexIsFirst(part, ".", |p0|);
    var parts := SplitN2(part, ".");
    assert parts[0] == p0 && parts[1] == p1;
    var typ := TrimPrefix(p1, "_");
    assert '.' !in typ by {
      if HasPrefix(p1, "_") {
        assert typ == p1[1..];
      }
    }
  }

  /** `name.service.<anything>` parses to (name, "") for a dot-free name, whatever the datacenter part. */
  lemma ParseNameForm(name: string, rest: string)
    requires '.' !in name
    ensures ParseConsulAddress(name + ".service." + rest) == ServiceAddress(name, "")
  {
    var s := name + ".service." + rest;
    forall i | 0 <= i < |name| ensures !OccursAt(s, ".service.", i) {
      ServiceOccurrence(s, i);
      assert s[i] == name[i];
    }
    ServicePartOf(name, rest);
    ParseNoDot(s);
  }

  /** `_name._port.service.<anything>` parses to (name, port) for dot-free name and port. */
  lemma ParsePortForm(name: string, port: string, rest: string)
    requires '.' !in name && '.' !in port
    ensures ParseConsulAddress("_" + name + "._" + port + ".service." + rest) == ServiceAddress(name, port)
  {
    var p0, p1 := "_" + name, "_" + port;
    var prefix := p0 + "." + p1;
    var s := prefix + ".service." + rest;
    assert s == "_" + name + "._" + port + ".service." + rest;
    forall i | 0 <= i < |prefix| ensures !OccursAt(s, ".service.", i) {
      ServiceOccurrence(s, i);
      if i < |p0| {
        assert s[i] == p0[i];
      } else if i == |p0| {
        assert s[i + 1] == '_';
      } else {
        assert s[i] == p1[i - |p0| - 1];
      }
    }
    ServicePartOf(prefix, rest);
    ParseTwoFields(s, p0, p1);
  }

  /** A hostname with no dot at all is taken whole as the service name. */
  lemma ParseDotlessHost(hostname: string)
    requires '.' !in hostname
    ensures ParseConsulAddress(hostname) == ServiceAddress(hostname, "")
  {
    forall i ensures !OccursAt(hostname, ".service.", i) {
      ServiceOccurrence(hostname, i);
    }
    assert ServicePart(hostname) == hostname;
    ParseNoDot(hostname);
  }

  /** The test address foobar.service.consul (the datacenter segment, if any, is ignored). */
  lemma ParseExampleName()
    ensures ParseConsulAddress("foobar.service.consul") == ServiceAddress("foobar", "")
  {
    assert "foobar.service.consul" == "foobar" + ".service." + "consul";
    ParseNameForm("foobar", "consul");
  }

  /** The test address _foobar._http.service.consul (the datacenter segment, if any, is ignored). */
  lemma ParseExampleHttp()
    ensures ParseConsulAddress("_foobar._http.service.consul") == ServiceAddress("foobar", "http")
  {
    assert "_foobar._http.service.consul" == "_" + "foobar" + "._" + "http" + ".service." + "consul";
    ParsePortForm("foobar", "http", "consul");
  }

  /** The test address _foobar._rpc.service.consul (the datacenter segment, if any, is ignored). */
  lemma ParseExampleRpc()
    ensures ParseConsulAddress("_foobar._rpc.service.consul") == ServiceAddress("foobar", "rpc")
  {
    assert "_foobar._rpc.service.consul" == "_" + "foobar" + "._" + "rpc" + ".service." + "consul";
    ParsePortForm("foobar", "rpc", "consul");
  }

  /** The test address foobar.service.site.consul (the datacenter segment, if any, is ignored). */
  lemma ParseExampleNameDatacenter()
    ensures ParseConsulAddress("foobar.service.site.consul") == ServiceAddress("foobar", "")
  {
    assert "foobar.service.site.consul" == "foobar" + ".service." + "site.consul";
    ParseNameForm("foobar", "site.consul");
  }

  /** The test address _foobar._http.service.site.consul (the datacenter segment, if any, is ignored). */
  lemma ParseExampleHttpDatacenter()
    ensures ParseConsulAddress("_foobar._http.service.site.consul") == ServiceAddress("foobar", "http")
  {
    assert "_foobar._http.service.site.consul" == "_" + "foobar" + "._" + "http" + ".service." + "site.consul";
    ParsePortForm("foobar", "http", "site.consul");
  }

  /** The test address _foobar._rpc.service.site.consul (the datacenter segment, if any, is ignored). */
  lemma ParseExampleRpcDatacenter()
    ensures ParseConsulAddress("_foobar._rpc.service.site.consul") == ServiceAddress("foobar", "rpc")
  {
    assert "_foobar._rpc.service.site.consul" == "_" + "foobar" + "._" + "rpc" + ".service." + "site.consul";
    ParsePortForm("foobar", "rpc", "site.consul");
  }

  /** A dotted IP literal is not taken for a service, and a dotless word is. */
  lemma ParseLiteralExamples()
    ensures ParseConsulAddress("10.0.0.1") == ServiceAddress("", "")
    ensures ParseConsulAddress("junk") == ServiceAddress("junk", "")
  {
    ParseDotlessHost("junk");
    var h := "10.0.0.1";
    forall i ensures !OccursAt(h, ".service.", i) {
      ServiceOccurrence(h, i);
    }
    assert ServicePart(h) == h;
    assert Count(h, '.') == 3;
    ParseManyDots(h);
  }

  /**
    addHostnameSuffix (main.go:332-338): a node name with the cluster suffix
    appended after a dot; one leading dot of the suffix is dropped, and an
    empty suffix leaves the name as it is.
   */
  function AddHostnameSuffix(hostname: string, suffix: string): (r: string)
    ensures suffix == [] ==> r == hostname
    ensures suffix != [] ==> HasPrefix(r, hostname + ".")
    ensures suffix != [] && HasPrefix(suffix, ".") ==> r == hostname + suffix
    ensures suffix != [] && !HasPrefix(suffix, ".") ==> r == hostname + "." + suffix
  {
    if |suffix| == 0 then hostname
    else hostname + "." + TrimPrefix(suffix, ".")
  }

  /**
    For a suffix without a leading dot, the name addHostnameSuffix builds is
    one the request path recognises (main.go:106) and cuts back to the node
    name (main.go:107).
   */
  lemma AddThenCutSuffix(node: string, suffix: string)
    requires suffix != [] && !HasPrefix(suffix, ".")
    ensures HasSuffix(AddHostnameSuffix(node, suffix), "." + suffix)
    ensures TrimSuffix(AddHostnameSuffix(node, suffix), "." + suffix) == node
  {
    assert AddHostnameSuffix(node, suffix) == node + ("." + suffix);
  }
}
