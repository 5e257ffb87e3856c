/** What down-conversion and up-conversion keep, lose and undo. */
module ConversionLaws {
  import opened Text
  import opened CniTypes
  import opened Current
  import Types020

  lemma FirstOfTwo(ips: seq<IPConfig>, a4: Option<IPConfig>, a6: Option<IPConfig>)
    requires a4.Some? ==> a4.value.version == "4"
    requires a6.Some? ==> a6.value.version == "6"
    requires ips == (if a4.Some? then [a4.value] else []) + (if a6.Some? then [a6.value] else [])
    ensures FirstOf(ips, "4") == a4 && FirstOf(ips, "6") == a6
  {
    if a4.Some? && a6.Some? {
      assert ips[1..] == [a6.value] && ips[1..][1..] == [];
    } else if a4.Some? || a6.Some? {
      assert ips[1..] == [];
    }
  }

  /** A 0.2.0 value whose routes sit with their own family and whose version is stamped. */
  predicate Sorted020(v: Types020.Value) {
    && (v.ip4.Some? ==> AllFamily(v.ip4.value.routes, true))
    && (v.ip6.Some? ==> AllFamily(v.ip6.value.routes, false))
  }

  predicate HasAddress(v: Types020.Value) {
    v.ip4.Some? || v.ip6.Some?
  }

  /** What going up and down does to any 0.2.0 value. */
  lemma DownAfterUp(v: Types020.Value)
    ensures !HasAddress(v) ==> To020(From020(v)).None?
    ensures HasAddress(v) ==>
              var all := RoutesOf(v.ip4) + RoutesOf(v.ip6);
              To020(From020(v)) == Some(Types020.Value("0.2.0",
                if v.ip4.None? then None else Some(v.ip4.value.(routes := Family(all, true))),
                if v.ip6.None? then None else Some(v.ip6.value.(routes := Family(all, false))),
                v.dns))
  {
    var a4 := if v.ip4.None? then None else Some(IPConfig("4", None, v.ip4.value.ip, v.ip4.value.gateway));
    var a6 := if v.ip6.None? then None else Some(IPConfig("6", None, v.ip6.value.ip, v.ip6.value.gateway));
    FirstOfTwo(From020(v).ips, a4, a6);
  }

  /** A 0.2.0 value survives the trip up and down exactly when it has an address and sorted routes. */
  lemma RoundTrip020(v: Types020.Value)
    ensures To020(From020(v)) == Some(v.(cniVersion := "0.2.0")) <==> HasAddress(v) && Sorted020(v)
  {
    DownAfterUp(v);
    var r4, r6 := RoutesOf(v.ip4), RoutesOf(v.ip6);
    if HasAddress(v) && Sorted020(v) {
      FamilySplit(r4, r6);
    }
    if To020(From020(v)) == Some(v.(cniVersion := "0.2.0")) {
      FamilyMembers(r4 + r6, true);
      FamilyMembers(r4 + r6, false);
    }
  }

  lemma DownIsSorted(r: Value)
    ensures To020(r).Some? ==> && HasAddress(To020(r).value) && Sorted020(To020(r).value)
                               && To020(r).value.cniVersion == "0.2.0"
  {
    FamilyMembers(r.routes, true);
    FamilyMembers(r.routes, false);
  }

  /** Down-conversion is a retraction: going up again loses nothing more. */
  lemma DownIsRetraction(r: Value)
    requires To020(r).Some?
    ensures To020(From020(To020(r).value)) == To020(r)
  {
    DownIsSorted(r);
    RoundTrip020(To020(r).value);
  }

  /** The results up-conversion of sorted 0.2.0 values yields. */
  predicate NormalForm(r: Value) {
    && r.cniVersion == "0.4.0" && r.interfaces == []
    && (|r.ips| == 1 || |r.ips| == 2)
    && (forall i | 0 <= i < |r.ips| :: r.ips[i].version in {"4", "6"} && r.ips[i].iface.None?)
    && (|r.ips| == 2 ==> r.ips[0].version == "4" && r.ips[1].version == "6")
    && (forall i, j | 0 <= i < j < |r.routes| :: Is4(r.routes[j].dst.ip) ==> Is4(r.routes[i].dst.ip))
    && (forall i | 0 <= i < |r.routes| :: (if Is4(r.routes[i].dst.ip) then FirstOf(r.ips, "4") else FirstOf(r.ips,
        "6")).Some?)
  }

  /** One trip down and up normalises: the outcome is a normal form and a fixed point of the trip. */
  lemma Normalisation(r: Value)
    requires To020(r).Some?
    ensures var n := From020(To020(r).value);
            NormalForm(n) && To020(n).Some? && From020(To020(n).value) == n
  {
    DownIsSorted(r);
    DownIsRetraction(r);
    var o := To020(r).value;
    var n := From020(o);
    var a4 := if o.ip4.None? then None else Some(IPConfig("4", None, o.ip4.value.ip, o.ip4.value.gateway));
    var a6 := if o.ip6.None? then None else Some(IPConfig("6", None, o.ip6.value.ip, o.ip6.value.gateway));
    FirstOfTwo(n.ips, a4, a6);
  }

  /** Normal forms are exactly what the trip leaves alone. */
  lemma NormalFormIsFixed(r: Value)
    ensures NormalForm(r) <==> To020(r).Some? && From020(To020(r).value) == r
  {
    if To020(r).Some? && From020(To020(r).value) == r {
      Normalisation(r);
    }
    if NormalForm(r) {
      var ips := r.ips;
      var a4 := if ips[0].version == "4" then Some(ips[0]) else None;
      var a6 := if ips[0].version == "6" then Some(ips[0]) else if |ips| == 2 then Some(ips[1]) else None;
      FirstOfTwo(ips, a4, a6);
      assert FirstOf(ips, "4") == a4 && FirstOf(ips, "6") == a6;
      FamiliesInOrder(r.routes);
      FamilyOfOther(r.routes, true);
      FamilyOfOther(r.routes, false);
      FamilyMembers(r.routes, true);
      FamilyMembers(r.routes, false);
      assert From020(To020(r).value).ips == ips;
      assert From020(To020(r).value).routes == r.routes;
    }
  }

  lemma {:induction false} FamiliesInOrder(routes: seq<Route>)
    requires forall i, j | 0 <= i < j < |routes| :: Is4(routes[j].dst.ip) ==> Is4(routes[i].dst.ip)
    ensures Family(routes, true) + Family(routes, false) == routes
  {
    if routes != [] {
      var n := |routes| - 1;
      FamiliesInOrder(routes[..n]);
      assert routes == routes[..n] + [routes[n]];
      if Is4(routes[n].dst.ip) {
        FamilyOfOther(routes[..n], true);
      }
    }
  }

  /** Each family keeps its routes in order; with both addresses nothing is lost, else one family is. */
  lemma RouteConservation(r: Value)
    requires To020(r).Some?
    ensures var o := To020(r).value;
            && (o.ip4.Some? ==> o.ip4.value.routes == Family(r.routes, true))
            && (o.ip6.Some? ==> o.ip6.value.routes == Family(r.routes, false))
            && multiset(RoutesOf(o.ip4)) + multiset(RoutesOf(o.ip6)) +
               (if o.ip4.None? then multiset(Family(r.routes, true)) else multiset{}) +
               (if o.ip6.None? then multiset(Family(r.routes, false)) else multiset{}) == multiset(r.routes)
            && (multiset(RoutesOf(o.ip4)) + multiset(RoutesOf(o.ip6)) == multiset(r.routes) <==>
                (o.ip4.None? ==> AllFamily(r.routes, false)) && (o.ip6.None? ==> AllFamily(r.routes, true)))
  {
    FamiliesPartition(r.routes);
    FamilyOfOther(r.routes, true);
    FamilyOfOther(r.routes, false);
    var m4, m6 := multiset(Family(r.routes, true)), multiset(Family(r.routes, false));
    assert |m4| == |Family(r.routes, true)| && |m6| == |Family(r.routes, false)|;
  }

  lemma {:induction false} FamilyCount(routes: seq<Route>, is4: bool, r: Route)
    ensures multiset(Family(routes, is4))[r] == if CarriesV4(r.dst.ip) == is4 then multiset(routes)[r] else 0
  {
    if routes != [] {
      var n := |routes| - 1;
      FamilyCount(routes[..n], is4, r);
      Is4Exact(routes[n].dst.ip);
      assert routes == routes[..n] + [routes[n]];
    }
  }

  /**
   With an IPv4 address in the result a route to an IPv4 destination, in either form, is kept with it as often as it
   occurs, and no other route is; with an IPv6 address likewise the others.
   */
  lemma RoutesByDestination(v: Value, r: Route)
    requires To020(v).Some?
    ensures var o := To020(v).value;
            && (o.ip4.Some? ==>
                  multiset(o.ip4.value.routes)[r] == if CarriesV4(r.dst.ip) then multiset(v.routes)[r] else 0)
            && (o.ip6.Some? ==>
                  multiset(o.ip6.value.routes)[r] == if CarriesV4(r.dst.ip) then 0 else multiset(v.routes)[r])
  {
    FamilyCount(v.routes, true, r);
    FamilyCount(v.routes, false, r);
  }

  /** The address kept for a version is the first of that version in the list, and absent only if none is. */
  lemma {:induction false} FirstOfIsFirst(ips: seq<IPConfig>, version: string)
    ensures FirstOf(ips, version).None? <==> forall i | 0 <= i < |ips| :: ips[i].version != version
    ensures FirstOf(ips, version).Some? ==>
              exists i | 0 <= i < |ips| :: && ips[i] == FirstOf(ips, version).value && ips[i].version == version
                                           && forall j | 0 <= j < i :: ips[j].version != version
  {
    if ips != [] && ips[0].version != version {
      FirstOfIsFirst(ips[1..], version);
      if FirstOf(ips[1..], version).Some? {
        var i :| 0 <= i < |ips[1..]| && ips[1..][i] == FirstOf(ips[1..], version).value
                 && ips[1..][i].version == version && forall j | 0 <= j < i :: ips[1..][j].version != version;
        assert ips[i + 1] == FirstOf(ips, version).value;
        forall j | 0 <= j < i + 1 ensures ips[j].version != version {
          if j > 0 {
            assert ips[j] == ips[1..][j - 1];
          }
        }
      } else {
        forall i | 0 <= i < |ips| ensures ips[i].version != version {
          if i > 0 {
            assert ips[i] == ips[1..][i - 1];
          }
        }
      }
    }
  }
}
