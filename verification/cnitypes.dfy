/** The value shapes both result versions share (Route, DNS, addresses). */
module CniTypes {
  newtype byte = b: int | 0 <= b < 256

  type IP = seq<byte>

  datatype IPNet = IPNet(ip: IP, mask: IP)

  datatype Route = Route(dst: IPNet, gw: IP)

  datatype DNS = DNS(nameservers: seq<string>, domain: string, search: seq<string>, options: seq<string>)

  const NO_DNS := DNS([], "", [], [])

  /** net.IP.To4() != nil: four bytes, or sixteen bytes carrying an IPv4-mapped prefix. */
  predicate Is4(ip: IP) {
    || |ip| == 4
    || (|ip| == 16 && (forall i | 0 <= i < 10 :: ip[i] == 0) && ip[10] == 255 && ip[11] == 255)
  }

  /** An IPv4 address in one of its two forms: its four bytes, or these behind the mapping prefix. */
  ghost predicate CarriesV4(ip: IP) {
    exists q: IP :: |q| == 4 && FormOf(ip, q)
  }

  predicate FormOf(ip: IP, q: IP) {
    ip == q || ip == [0, 0, 0, 0, 0, 0, 0, 0, 0, 0, 255, 255] + q
  }

  /** The test is exactly that. */
  lemma Is4Exact(ip: IP)
    ensures Is4(ip) <==> CarriesV4(ip)
  {
    var prefix: IP := [0, 0, 0, 0, 0, 0, 0, 0, 0, 0, 255, 255];
    if Is4(ip) {
      var q := ip[|ip| - 4..];
      if |ip| == 16 {
        assert ip[..12] == prefix;
        assert ip == ip[..12] + q;
      }
      assert FormOf(ip, q);
    }
    if CarriesV4(ip) {
      var q :| |q| == 4 && FormOf(ip, q);
    }
  }

  /** The routes of one address family, in order. */
  function Family(routes: seq<Route>, is4: bool): seq<Route> {
    if routes == [] then []
    else
      var init, last := routes[..|routes| - 1], routes[|routes| - 1];
      if Is4(last.dst.ip) == is4 then Family(init, is4) + [last] else Family(init, is4)
  }

  predicate AllFamily(routes: seq<Route>, is4: bool) {
    forall i | 0 <= i < |routes| :: Is4(routes[i].dst.ip) == is4
  }

  lemma {:induction false} FamilyMembers(routes: seq<Route>, is4: bool)
    ensures AllFamily(Family(routes, is4), is4)
    ensures Family(routes, is4) == routes <==> AllFamily(routes, is4)
    ensures |Family(routes, is4)| <= |routes|
  {
    if routes != [] {
      FamilyMembers(routes[..|routes| - 1], is4);
      assert routes == routes[..|routes| - 1] + [routes[|routes| - 1]];
    }
  }

  lemma {:induction false} FamilyOfOther(routes: seq<Route>, is4: bool)
    ensures Family(routes, !is4) == [] <==> AllFamily(routes, is4)
  {
    if routes != [] {
      FamilyOfOther(routes[..|routes| - 1], is4);
    }
  }

  lemma {:induction false} FamilyConcat(a: seq<Route>, b: seq<Route>, is4: bool)
    ensures Family(a + b, is4) == Family(a, is4) + Family(b, is4)
  {
    if b == [] {
      assert a + b == a;
    } else {
      var n := |b| - 1;
      FamilyConcat(a, b[..n], is4);
      assert (a + b)[..|a + b| - 1] == a + b[..n];
    }
  }

  /** Every route belongs to exactly one family, as often as it occurs. */
  lemma {:induction false} FamiliesPartition(routes: seq<Route>)
    ensures multiset(Family(routes, true)) + multiset(Family(routes, false)) == multiset(routes)
  {
    if routes != [] {
      var n := |routes| - 1;
      FamiliesPartition(routes[..n]);
      assert routes == routes[..n] + [routes[n]];
    }
  }

  /** Filtering v4-then-v6 text by family gives back the two parts. */
  lemma FamilySplit(v4: seq<Route>, v6: seq<Route>)
    requires AllFamily(v4, true) && AllFamily(v6, false)
    ensures Family(v4 + v6, true) == v4 && Family(v4 + v6, false) == v6
  {
    hide Family, AllFamily;
    assert Family(v4 + v6, true) == v4 by {
      FamilyConcat(v4, v6, true);
      FamilyMembers(v4, true);
      FamilyOfOther(v6, false);
    }
    FamilyConcat(v4, v6, false);
    FamilyMembers(v6, false);
    FamilyOfOther(v4, true);
  }
}

/** Results of CNI specification versions 0.1.0 and 0.2.0. */
module Types020 {
  import opened Text
  import opened CniTypes

  const IMPLEMENTED := "0.2.0"
  const SUPPORTED: seq<string> := ["", "0.1.0", IMPLEMENTED]

  datatype IPConfig = IPConfig(ip: IPNet, gateway: IP, routes: seq<Route>)

  /** What a Result object holds at one moment. */
  datatype Value = Value(cniVersion: string, ip4: Option<IPConfig>, ip6: Option<IPConfig>, dns: DNS)

  class Result {
    var cniVersion: string
    var ip4: Option<IPConfig>
    var ip6: Option<IPConfig>
    var dns: DNS

    function Get(): Value
      reads this
    {
      Value(cniVersion, ip4, ip6, dns)
    }

    constructor (v: Value)
      ensures Get() == v
    {
      cniVersion, ip4, ip6, dns := v.cniVersion, v.ip4, v.ip6, v.dns;
    }

    /** Stamps the receiver with a supported version and hands the receiver itself back. */
    method GetAsVersion(version: string) returns (ok: bool)
      modifies this`cniVersion
      ensures ok == (version in ["", "0.1.0", "0.2.0"])
      ensures Get() == if ok then old(Get()).(cniVersion := version) else old(Get())
    {
      for i := 0 to |SUPPORTED|
        invariant version !in SUPPORTED[..i]
        invariant Get() == old(Get())
      {
        if version == SUPPORTED[i] {
          cniVersion := version;
          return true;
        }
        assert SUPPORTED[..i + 1] == SUPPORTED[..i] + [SUPPORTED[i]];
      }
      assert SUPPORTED[..|SUPPORTED|] == SUPPORTED;
      return false;
    }
  }
}

/** Results of the current specification (0.3.0 to 0.4.0) and their conversions. */
module Current {
  import opened Text
  import opened CniTypes
  import Types020

  const IMPLEMENTED := "0.4.0"
  const SUPPORTED: seq<string> := ["0.3.0", "0.3.1", IMPLEMENTED]

  datatype Interface = Interface(name: string, mac: string, sandbox: string)

  datatype IPConfig = IPConfig(version: string, iface: Option<int>, address: IPNet, gateway: IP)

  datatype Value = Value(cniVersion: string, interfaces: seq<Interface>, ips: seq<IPConfig>,
                         routes: seq<Route>, dns: DNS)

  // ----- what the conversions compute -----

  function Address(version: string, c: Option<Types020.IPConfig>): seq<IPConfig> {
    if c.None? then [] else [IPConfig(version, None, c.value.ip, c.value.gateway)]
  }

  function RoutesOf(c: Option<Types020.IPConfig>): seq<Route> {
    if c.None? then [] else c.value.routes
  }

  /** Up-conversion: addresses and routes of the two families one after the other. */
  function From020(v: Types020.Value): Value {
    Value(IMPLEMENTED, [], Address("4", v.ip4) + Address("6", v.ip6), RoutesOf(v.ip4) + RoutesOf(v.ip6), v.dns)
  }

  /** The first address that carries this version. */
  function FirstOf(ips: seq<IPConfig>, version: string): Option<IPConfig> {
    if ips == [] then None
    else if ips[0].version == version then Some(ips[0])
    else FirstOf(ips[1..], version)
  }

  function Narrow(c: Option<IPConfig>, routes: seq<Route>): Option<Types020.IPConfig> {
    if c.None? then None else Some(Types020.IPConfig(c.value.address, c.value.gateway, routes))
  }

  /** Down-conversion: the first address of each version with the routes of its family. */
  function To020(v: Value): Option<Types020.Value> {
    var a4, a6 := FirstOf(v.ips, "4"), FirstOf(v.ips, "6");
    if a4.None? && a6.None? then None
    else Some(Types020.Value(Types020.IMPLEMENTED,
                             Narrow(a4, Family(v.routes, true)), Narrow(a6, Family(v.routes, false)), v.dns))
  }

  lemma {:induction false} FirstOfPrefix(ips: seq<IPConfig>, i: nat, version: string)
    requires i < |ips|
    ensures FirstOf(ips[..i], version).Some? ==> FirstOf(ips, version) == FirstOf(ips[..i], version)
    ensures FirstOf(ips[..i + 1], version) ==
            if FirstOf(ips[..i], version).Some? then FirstOf(ips[..i], version)
            else if ips[i].version == version then Some(ips[i]) else None
  {
    if i > 0 {
      FirstOfPrefix(ips[1..], i - 1, version);
      assert ips[..i][1..] == ips[1..][..i - 1];
      assert ips[..i + 1][1..] == ips[1..][..i];
    } else {
      assert ips[..1][1..] == [];
    }
  }

  // ----- the objects -----

  /** The types.Result interface: an object of either version. */
  datatype AnyResult = Old(old20: Types020.Result) | New(cur: Result)

  class Result {
    var cniVersion: string
    var interfaces: seq<Interface>
    var ips: seq<IPConfig>
    var routes: seq<Route>
    var dns: DNS

    function Get(): Value
      reads this
    {
      Value(cniVersion, interfaces, ips, routes, dns)
    }

    constructor (v: Value)
      ensures Get() == v
    {
      cniVersion, interfaces, ips, routes, dns := v.cniVersion, v.interfaces, v.ips, v.routes, v.dns;
    }

    /** One pass over the addresses that stops once both versions are found, one pass over the routes. */
    method ConvertTo020() returns (r: Option<Types020.Result>)
      ensures r.Some? ==> fresh(r.value)
      ensures match To020(Get())
              case None => r.None?
              case Some(v) => r.Some? && r.value.Get() == v
    {
      var o := new Types020.Result(Types020.Value(Types020.IMPLEMENTED, None, None, dns));
      var i := 0;
      while i < |ips|
        invariant 0 <= i <= |ips|
        invariant o.cniVersion == Types020.IMPLEMENTED && o.dns == dns
        invariant o.ip4 == Narrow(FirstOf(ips[..i], "4"), [])
        invariant o.ip6 == Narrow(FirstOf(ips[..i], "6"), [])
      {
        var ip := ips[i];
        FirstOfPrefix(ips, i, "4");
        FirstOfPrefix(ips, i, "6");
        if ip.version == "4" && o.ip4 == None {
          o.ip4 := Some(Types020.IPConfig(ip.address, ip.gateway, []));
        } else if ip.version == "6" && o.ip6 == None {
          o.ip6 := Some(Types020.IPConfig(ip.address, ip.gateway, []));
        }
        i := i + 1;
        if o.ip4.Some? && o.ip6.Some? {
          break;
        }
      }
      if i < |ips| {
        FirstOfPrefix(ips, i, "4");
        FirstOfPrefix(ips, i, "6");
      } else {
        assert ips[..i] == ips;
      }
      ghost var a4, a6 := FirstOf(ips, "4"), FirstOf(ips, "6");
      assert o.ip4 == Narrow(a4, []) && o.ip6 == Narrow(a6, []);
      for j := 0 to |routes|
        invariant o.cniVersion == Types020.IMPLEMENTED && o.dns == dns
        invariant o.ip4 == Narrow(a4, Family(routes[..j], true))
        invariant o.ip6 == Narrow(a6, Family(routes[..j], false))
      {
        var route := routes[j];
        assert routes[..j + 1][..j] == routes[..j];
        if Is4(route.dst.ip) && o.ip4.Some? {
          o.ip4 := Some(o.ip4.value.(routes := o.ip4.value.routes + [Route(route.dst, route.gw)]));
        } else if !Is4(route.dst.ip) && o.ip6.Some? {
          o.ip6 := Some(o.ip6.value.(routes := o.ip6.value.routes + [Route(route.dst, route.gw)]));
        }
      }
      assert routes[..|routes|] == routes;
      if o.ip4 == None && o.ip6 == None {
        return None;
      }
      return Some(o);
    }

    method AppendRoutes(more: seq<Route>)
      modifies this`routes
      ensures routes == old(routes) + more
    {
      for i := 0 to |more|
        invariant routes == old(routes) + more[..i]
      {
        routes := routes + [Route(more[i].dst, more[i].gw)];
      }
    }

    /** The current versions stamp and return the receiver; the old ones build a new, older object. */
    method GetAsVersion(version: string) returns (r: Option<AnyResult>)
      modifies this`cniVersion
      ensures version in ["0.3.0", "0.3.1", "0.4.0"] ==>
                r == Some(New(this)) && Get() == old(Get()).(cniVersion := version)
      ensures version !in ["0.3.0", "0.3.1", "0.4.0"] ==> Get() == old(Get())
      ensures version in ["", "0.1.0", "0.2.0"] ==>
                match To020(old(Get()))
                case None => r.None?
                case Some(v) => r.Some? && r.value.Old? && fresh(r.value.old20) && r.value.old20.Get() == v
      ensures version !in ["0.3.0", "0.3.1", "0.4.0"] && version !in ["", "0.1.0", "0.2.0"] ==> r.None?
    {
      if version == "0.3.0" || version == "0.3.1" || version == IMPLEMENTED {
        cniVersion := version;
        return Some(New(this));
      }
      if version == Types020.SUPPORTED[0] || version == Types020.SUPPORTED[1] || version == Types020.SUPPORTED[2] {
        var o := ConvertTo020();
        return if o.None? then None else Some(Old(o.value));
      }
      return None;
    }
  }

  /** types020.GetResult: the 0.2.0 object behind a result; an old object is stamped in place. */
  method GetResult020(a: AnyResult) returns (r: Option<Types020.Result>)
    modifies if a.Old? then {a.old20} else {a.cur}
    ensures a.Old? ==> r == Some(a.old20) && a.old20.Get() == old(a.old20.Get()).(cniVersion := "0.2.0")
    ensures a.New? ==> a.cur.Get() == old(a.cur.Get()) &&
                       match To020(old(a.cur.Get()))
                       case None => r.None?
                       case Some(v) => r.Some? && fresh(r.value) && r.value.Get() == v
  {
    match a
    case Old(o) =>
      var ok := o.GetAsVersion(Types020.IMPLEMENTED);
      assert Types020.SUPPORTED[2] == Types020.IMPLEMENTED;
      return Some(o);
    case New(c) =>
      assert Types020.SUPPORTED[2] == Types020.IMPLEMENTED;
      var g := c.GetAsVersion(Types020.IMPLEMENTED);
      return if g.None? then None else Some(g.value.old20);
  }

  /** current.GetResult: only objects of the current version can be had as 0.4.0. */
  method GetResult(a: AnyResult) returns (r: Option<Result>)
    modifies if a.Old? then {a.old20} else {a.cur}
    ensures a.Old? ==> r.None? && a.old20.Get() == old(a.old20.Get())
    ensures a.New? ==> r == Some(a.cur) && a.cur.Get() == old(a.cur.Get()).(cniVersion := "0.4.0")
  {
    match a
    case Old(o) =>
      var ok := o.GetAsVersion(IMPLEMENTED);
      return None;
    case New(c) =>
      assert SUPPORTED[2] == IMPLEMENTED;
      var g := c.GetAsVersion(IMPLEMENTED);
      return Some(c);
  }

  method ConvertFrom020(a: AnyResult) returns (r: Option<Result>)
    modifies if a.Old? then {a.old20} else {a.cur}
    ensures r.Some? ==> fresh(r.value)
    ensures a.Old? ==> && r.Some? && r.value.Get() == From020(old(a.old20.Get()))
                       && a.old20.Get() == old(a.old20.Get()).(cniVersion := "0.2.0")
    ensures a.New? ==> a.cur.Get() == old(a.cur.Get()) &&
                       match To020(old(a.cur.Get()))
                       case None => r.None?
                       case Some(v) => r.Some? && r.value.Get() == From020(v)
  {
    var g := GetResult020(a);
    if g.None? {
      return None;
    }
    var o := g.value;
    var n := new Result(Value(IMPLEMENTED, [], [], [], o.dns));
    if o.ip4.Some? {
      n.ips := n.ips + [IPConfig("4", None, o.ip4.value.ip, o.ip4.value.gateway)];
      n.AppendRoutes(o.ip4.value.routes);
    }
    if o.ip6.Some? {
      n.ips := n.ips + [IPConfig("6", None, o.ip6.value.ip, o.ip6.value.gateway)];
      n.AppendRoutes(o.ip6.value.routes);
    }
    return Some(n);
  }

  /** A current object converts to itself, stamped. */
  method ConvertFrom030(a: AnyResult) returns (r: Option<Result>)
    modifies if a.Old? then {} else {a.cur}
    ensures a.Old? ==> r.None?
    ensures a.New? ==> r == Some(a.cur) && a.cur.Get() == old(a.cur.Get()).(cniVersion := "0.4.0")
  {
    if a.Old? {
      return None;
    }
    a.cur.cniVersion := IMPLEMENTED;
    return Some(a.cur);
  }

  /** Conversion never fails: old objects yield a new current one, current objects come back themselves. */
  method NewResultFromResult(a: AnyResult) returns (r: Option<Result>)
    modifies if a.Old? then {a.old20} else {a.cur}
    ensures r.Some?
    ensures a.Old? ==> && fresh(r.value) && r.value.Get() == From020(old(a.old20.Get()))
                       && a.old20.Get() == old(a.old20.Get()).(cniVersion := "0.2.0")
    ensures a.New? ==> r.value == a.cur && a.cur.Get() == old(a.cur.Get()).(cniVersion := "0.4.0")
  {
    var version := if a.Old? then Types020.IMPLEMENTED else IMPLEMENTED;
    var i := 0;
    while i < |Types020.SUPPORTED|
      invariant 0 <= i <= |Types020.SUPPORTED|
      invariant version !in Types020.SUPPORTED[..i]
      invariant a.Old? ==> unchanged(a.old20)
      invariant a.New? ==> unchanged(a.cur)
    {
      if version == Types020.SUPPORTED[i] {
        r := ConvertFrom020(a);
        return;
      }
      i := i + 1;
    }
    assert Types020.SUPPORTED[2] == Types020.IMPLEMENTED && a.New?;
    i := 0;
    while i < |SUPPORTED|
      invariant 0 <= i <= |SUPPORTED|
      invariant IMPLEMENTED == SUPPORTED[2] && i <= 2
      invariant unchanged(a.cur)
    {
      if version == SUPPORTED[i] {
        r := ConvertFrom030(a);
        return;
      }
      i := i + 1;
    }
    assert false;
  }
}
