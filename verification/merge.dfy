/** How cmdAdd folds one IPAM answer per interface into the single result it prints. */
module Merge {
  import opened Text
  import opened CniTypes
  import opened Current
  import Types020

  /** The 0.2.0 result built around the IPv4 part of an IPAM answer. */
  function Wrap(ip4: Types020.IPConfig, dns: DNS): Types020.Value {
    Types020.Value(Types020.IMPLEMENTED, Some(ip4), None, dns)
  }

  /** One turn of the accumulation: take the first converted result, append to it afterwards. */
  function Extend(acc: Option<Value>, ip4: Types020.IPConfig, dns: DNS, ifName: string): Value {
    var one := From020(Wrap(ip4, dns));
    var v := if acc.None? then one
             else acc.value.(ips := acc.value.ips + one.ips, routes := acc.value.routes + one.routes);
    v.(interfaces := v.interfaces + [Interface(ifName, "", "")])
  }

  function Accumulated(answers: seq<Types020.IPConfig>, dns: DNS): Option<Value> {
    if answers == [] then None
    else
      var n := |answers| - 1;
      Some(Extend(Accumulated(answers[..n], dns), answers[n], dns, Eth(n)))
  }

  lemma AccumulatedStep(answers: seq<Types020.IPConfig>, ip4: Types020.IPConfig, dns: DNS)
    ensures Accumulated(answers + [ip4], dns) ==
            Some(Extend(Accumulated(answers, dns), ip4, dns, Eth(|answers|)))
  {
    assert (answers + [ip4])[..|answers|] == answers;
  }

  /** With no interface to set up the answer is an empty result of the current version. */
  function FinalValue(answers: seq<Types020.IPConfig>, dns: DNS): Value {
    match Accumulated(answers, dns)
    case None => Value(IMPLEMENTED, [], [], [], NO_DNS)
    case Some(v) => v
  }

  // ----- reference: what IPAM answered, side by side -----

  function AllIps(answers: seq<Types020.IPConfig>): seq<IPConfig> {
    seq(|answers|, i requires 0 <= i < |answers| => IPConfig("4", None, answers[i].ip, answers[i].gateway))
  }

  function AllRoutes(answers: seq<Types020.IPConfig>): seq<Route> {
    if answers == [] then [] else answers[0].routes + AllRoutes(answers[1..])
  }

  function AllInterfaces(n: nat): seq<Interface> {
    seq(n, i requires 0 <= i < n => Interface(Eth(i), "", ""))
  }

  lemma {:induction false} AllRoutesLast(answers: seq<Types020.IPConfig>, ip4: Types020.IPConfig)
    ensures AllRoutes(answers + [ip4]) == AllRoutes(answers) + ip4.routes
  {
    if answers == [] {
      assert ([] + [ip4])[1..] == [];
    } else {
      AllRoutesLast(answers[1..], ip4);
      assert (answers + [ip4])[1..] == answers[1..] + [ip4];
    }
  }

  /** One turn appends one address and the routes of the answer, and names the interface. */
  lemma ExtendAppends(acc: Option<Value>, ip4: Types020.IPConfig, dns: DNS, ifName: string)
    ensures var before := if acc.None? then Value("0.4.0", [], [], [], dns) else acc.value;
            Extend(acc, ip4, dns, ifName) ==
            before.(ips := before.ips + [IPConfig("4", None, ip4.ip, ip4.gateway)],
                    routes := before.routes + ip4.routes,
                    interfaces := before.interfaces + [Interface(ifName, "", "")])
  {
  }

  /**
   What is printed: one IPv4 address and one interface per answer, in order, and all routes of all answers one answer
   after another; an empty result without DNS if there was no interface.
   */
  lemma {:induction false} MergeRefinement(answers: seq<Types020.IPConfig>, dns: DNS)
    ensures FinalValue(answers, dns) ==
            Value("0.4.0", AllInterfaces(|answers|), AllIps(answers), AllRoutes(answers),
                  if answers == [] then DNS([], "", [], []) else dns)
  {
    if answers != [] {
      var n := |answers| - 1;
      MergeRefinement(answers[..n], dns);
      AllRoutesLast(answers[..n], answers[n]);
      assert answers[..n] + [answers[n]] == answers;
      ExtendAppends(Accumulated(answers[..n], dns), answers[n], dns, Eth(n));
      if n == 0 {
        assert answers[..n] == [];
      }
    }
  }

  /** With one interface that is the converted answer and the interface's name. */
  lemma OneConverted(ip4: Types020.IPConfig, dns: DNS)
    ensures FinalValue([ip4], dns) ==
            From020(Types020.Value("0.2.0", Some(ip4), None, dns)).(interfaces := [Interface(Eth(0), "", "")])
  {
    MergeRefinement([ip4], dns);
    assert AllRoutes([ip4][1..]) == [];
  }

  /** Addresses and interfaces stay in step: the i-th address is that of the i-th answer, and belongs to eth<i>. */
  lemma InterfacesInStep(answers: seq<Types020.IPConfig>, dns: DNS)
    ensures var v := FinalValue(answers, dns);
            && |v.ips| == |v.interfaces| == |answers|
            && forall i | 0 <= i < |answers| ::
                 v.ips[i] == IPConfig("4", None, answers[i].ip, answers[i].gateway) && v.interfaces[i].name == Eth(i)
  {
    MergeRefinement(answers, dns);
  }

  /** The loop body after a successful configuration, on the result object it updates in place. */
  method MergeResult(finalResult: Result?, ip4: Types020.IPConfig, dns: DNS, ifName: string) returns (r: Result)
    modifies if finalResult == null then {} else {finalResult}
    ensures finalResult == null ==> fresh(r)
    ensures finalResult != null ==> r == finalResult
    ensures r.Get() == Extend(if finalResult == null then None else Some(old(finalResult.Get())), ip4, dns, ifName)
    ensures r.ips == (if finalResult == null then [] else old(finalResult.ips)) +
                     [IPConfig("4", None, ip4.ip, ip4.gateway)]
    ensures r.routes == (if finalResult == null then [] else old(finalResult.routes)) + ip4.routes
    ensures r.interfaces == (if finalResult == null then [] else old(finalResult.interfaces)) +
                            [Interface(ifName, "", "")]
    ensures if finalResult == null then r.cniVersion == "0.4.0" && r.dns == dns
            else r.cniVersion == old(finalResult.cniVersion) && r.dns == old(finalResult.dns)
  {
    var routes: seq<Route> := [];
    for i := 0 to |ip4.routes|
      invariant routes == ip4.routes[..i]
    {
      routes := routes + [Route(ip4.routes[i].dst, ip4.routes[i].gw)];
    }
    assert ip4.routes[..|ip4.routes|] == ip4.routes;
    var result020 := new Types020.Result(
      Types020.Value(Types020.IMPLEMENTED, Some(Types020.IPConfig(ip4.ip, ip4.gateway, routes)), None, dns));
    assert result020.Get() == Wrap(ip4, dns);
    // never None, so the skip of cmdAdd on a conversion error is not reached
    var newResult := NewResultFromResult(Old(result020));
    assert newResult.Some?;
    if finalResult == null {
      r := newResult.value;
    } else {
      r := finalResult;
      if result020.ip4.Some? {
        r.ips := r.ips + [IPConfig("4", None, result020.ip4.value.ip, result020.ip4.value.gateway)];
        r.AppendRoutes(result020.ip4.value.routes);
      }
      // the IPv6 part is never filled in above, so nothing follows for it
      assert result020.ip6.None?;
    }
    r.interfaces := r.interfaces + [Interface(ifName, "", "")];
  }
}
