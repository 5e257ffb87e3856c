/** What a turn, the placement loop and ADD answer, exactly, whichever of their calls work; and what ADD prints. */
module AnyAdd {
  import opened Text
  import opened Host
  import opened Lifecycle
  import opened HostInvariant
  import opened Reclaim
  import opened Placement
  import opened SetupLaw
  import opened Rescue
  import opened AnySetup
  import CniTypes
  import Current
  import Merge
  import Types020

  // ----- one turn -----

  /** The four calls of a configuration work, and the interface is there. */
  ghost predicate Configures(w: World, links: Links, c: nat, pod: nat, name: string) {
    AllWork(w, c, c + 4) && Find(links, Pod(pod), name).Some?
  }

  lemma ConfigureAny(w: World, h: State, pod: nat, name: string)
    ensures Configure(w, h, pod, name).r == if Configures(w, h.links, h.clock, pod, name) then Ok else Fail
  {
    hide Find, Exec;
    var c := h.clock;
    FindIsAt(h.links, Pod(pod), name);
    AsksByName(w, h.(clock := c + 1), Pod(pod), name);
    ProbesIt(w, h);
    if Find(h.links, Pod(pod), name).Some? {
      var i := Find(h.links, Pod(pod), name).value;
      RaisesIt(w, h.(clock := c + 2), i);
      ProbesIt(w, h.(clock := c + 3, links := h.links[i := h.links[i].(up := true)]));
    }
  }

  lemma AsksByName(w: World, h: State, ns: Ns, name: string)
    ensures var found := Find(h.links, ns, name);
            Exec(w, h, LinkByName(ns, name)) ==
            Ran(h.(clock := h.clock + 1), if w(h.clock).ok && found.Some? then Index(found.value) else Fail)
  {
  }

  /**
   One turn in any world: which of the five ways it ends, what it has deferred, and what it answers, which is what IPAM
   said at the moment the setup was through.
   */
  lemma TurnAny(w: World, h: State, a: Args, pod: nat, i: nat, pf: string, rates: Rates)
    ensures var one := PlaceOne(w, h, a, pod, i, pf, rates);
            var s := Setup(w, h, a, pod, pf, Eth(i), rates);
            var c := s.h.clock;
            && one.stop == (if !s.ok then SetupFailed else if !w(c).ok then IpamFailed
                            else if w(c).answer.None? then NoIp4
                            else if Configures(w, s.h.links, c + 1, pod, Eth(i)) then Completed else ConfigFailed)
            && one.answers == (if one.stop.Completed? then [w(c).answer.value] else [])
            && one.frames == [RollbackFrame(i, pf, s.vf)] +
                             (if one.stop.Completed? || one.stop.ConfigFailed? then [IpamFrame(i)] else [])
  {
    hide Setup, Configure, Eth, Configures;
    var s := Setup(w, h, a, pod, pf, Eth(i), rates);
    if s.ok {
      IpamSays(w, s.h);
      ConfigureAny(w, s.h.(clock := s.h.clock + 1), pod, Eth(i));
    }
    hide Exec;
  }

  lemma IpamSays(w: World, h: State)
    ensures Exec(w, h, IpamAdd) ==
            Ran(h.(clock := h.clock + 1), if w(h.clock).ok then Answer(w(h.clock).answer) else Fail)
  {
  }

  ghost predicate CallsDecide(w: World, links: Links, pod: nat, name: string) {
    forall c: nat :: Configures(w, links, c, pod, name) <==> AllWork(w, c, c + 4)
  }

  /** After a setup that succeeded the interface is there, so that the calls alone decide the configuration. */
  lemma ConfiguresExactly(w: World, h: State, a: Args, pod: nat, i: nat, pf: string, rates: Rates)
    requires Inv(h) && TempSafe(h, pod)
    ensures var s := Setup(w, h, a, pod, pf, Eth(i), rates);
            s.ok ==> CallsDecide(w, s.h.links, pod, Eth(i))
  {
    hide Setup, Eth, Find, UniqueNames, Wired, DevOk, TempSafe, NoSriov, Key, AllWork;
    var s := Setup(w, h, a, pod, pf, Eth(i), rates);
    var x := SetupDone(w, h, a, pod, pf, Eth(i), rates);
    if s.ok {
      SafeFor(h, pod, VfId(pf, s.vf.value), x);
      assert At(s.h.links, x, Pod(pod), Eth(i));
      FindIsAt(s.h.links, Pod(pod), Eth(i));
    }
  }

  // ----- the loop -----

  /** The host before turn k. */
  ghost function HostBefore(w: World, h: State, a: Args, pod: nat, pfs: seq<PfInfo>, reqs: seq<Rates>,
                            placed: seq<nat>, k: nat): State
    requires InBounds(placed, |reqs|, |pfs|) && k <= |placed|
    decreases k, 0
  {
    if k == 0 then h else TurnOf(w, h, a, pod, pfs, reqs, placed, k - 1).h
  }

  ghost function TurnOf(w: World, h: State, a: Args, pod: nat, pfs: seq<PfInfo>, reqs: seq<Rates>, placed: seq<nat>,
                        k: nat): Turn
    requires InBounds(placed, |reqs|, |pfs|) && k < |placed|
    decreases k, 1
  {
    PlaceOne(w, HostBefore(w, h, a, pod, pfs, reqs, placed, k), a, pod, k, pfs[placed[k]].name, reqs[k])
  }

  /** The moment at which turn k asks IPAM: its setup is through. */
  ghost function AskTime(w: World, h: State, a: Args, pod: nat, pfs: seq<PfInfo>, reqs: seq<Rates>, placed: seq<nat>,
                         k: nat): nat
    requires InBounds(placed, |reqs|, |pfs|) && k < |placed|
  {
    Setup(w, HostBefore(w, h, a, pod, pfs, reqs, placed, k), a, pod, pfs[placed[k]].name, Eth(k), reqs[k]).h.clock
  }

  /** What IPAM said when turn k asked. */
  ghost function Said(w: World, h: State, a: Args, pod: nat, pfs: seq<PfInfo>, reqs: seq<Rates>, placed: seq<nat>,
                      k: nat): Option<Types020.IPConfig>
    requires InBounds(placed, |reqs|, |pfs|) && k < |placed|
  {
    w(AskTime(w, h, a, pod, pfs, reqs, placed, k)).answer
  }

  /** The loop from turn i on: the turns complete up to the last one, and the answers are what IPAM said. */
  ghost predicate Went(w: World, h: State, a: Args, pod: nat, pfs: seq<PfInfo>, reqs: seq<Rates>, placed: seq<nat>,
                       i: nat, p: Turn)
    requires InBounds(placed, |reqs|, |pfs|)
  {
    var n := i + |p.answers|;
    && n <= |placed|
    && (forall k | i <= k < n ::
          && TurnOf(w, h, a, pod, pfs, reqs, placed, k).stop.Completed?
          && Said(w, h, a, pod, pfs, reqs, placed, k) == Some(p.answers[k - i]))
    && if n == |placed| then p.stop.Completed? && p.h == HostBefore(w, h, a, pod, pfs, reqs, placed, n)
       else
         var last := TurnOf(w, h, a, pod, pfs, reqs, placed, n);
         !p.stop.Completed? && p.stop == last.stop && p.h == last.h
  }

  lemma {:induction false} LoopAny(w: World, h: State, a: Args, pod: nat, pfs: seq<PfInfo>, reqs: seq<Rates>,
                                   placed: seq<nat>, i: nat)
    requires InBounds(placed, |reqs|, |pfs|) && i <= |placed|
    ensures Went(w, h, a, pod, pfs, reqs, placed, i,
                 PlaceFrom(w, HostBefore(w, h, a, pod, pfs, reqs, placed, i), a, pod, pfs, reqs, placed, i))
    decreases |placed| - i
  {
    hide PlaceOne, Setup, Eth, Configures;
    if i < |placed| {
      var t := HostBefore(w, h, a, pod, pfs, reqs, placed, i);
      var one := TurnOf(w, h, a, pod, pfs, reqs, placed, i);
      TurnAny(w, t, a, pod, i, pfs[placed[i]].name, reqs[i]);
      if one.stop.Completed? {
        LoopAny(w, h, a, pod, pfs, reqs, placed, i + 1);
        WentOn(w, h, a, pod, pfs, reqs, placed, i, one, PlaceFrom(w, one.h, a, pod, pfs, reqs, placed, i + 1));
      }
    }
  }

  lemma WentOn(w: World, h: State, a: Args, pod: nat, pfs: seq<PfInfo>, reqs: seq<Rates>, placed: seq<nat>, i: nat,
               one: Turn, rest: Turn)
    requires InBounds(placed, |reqs|, |pfs|) && i < |placed| && Went(w, h, a, pod, pfs, reqs, placed, i + 1, rest)
    requires TurnOf(w, h, a, pod, pfs, reqs, placed, i).stop.Completed?
    requires |one.answers| == 1 && Said(w, h, a, pod, pfs, reqs, placed, i) == Some(one.answers[0])
    ensures Went(w, h, a, pod, pfs, reqs, placed, i, After(one.frames, one.answers, rest))
  {
    hide TurnOf, HostBefore, Said;
    var all := one.answers + rest.answers;
    forall k | i <= k < i + |all| ensures Said(w, h, a, pod, pfs, reqs, placed, k) == Some(all[k - i]) {
      if k > i {
        assert all[k - i] == rest.answers[k - (i + 1)];
      }
    }
  }

  // ----- ADD -----

  /** ADD gets an answer to each of its first questions, and the placement is within bounds. */
  ghost predicate Starts(w: World, c: nat) {
    w(c).ok && w(c + 1).ok && w(c + 2).ok && InBounds(w(c + 2).placed, |w(c).requests|, |w(c + 1).table|)
  }

  /** The loop of an ADD that started on host h and got as far. */
  ghost function LoopOf(w: World, h: State, a: Args): Turn
    requires Starts(w, h.clock) && a.ns.Some?
  {
    var c := h.clock;
    PlaceFrom(w, h.(clock := c + 4), a, a.ns.value, w(c + 1).table, w(c).requests, w(c + 2).placed, 0)
  }

  ghost predicate LoopWent(w: World, h: State, a: Args, p: Turn)
    requires Starts(w, h.clock) && a.ns.Some?
  {
    var c := h.clock;
    Went(w, h.(clock := c + 4), a, a.ns.value, w(c + 1).table, w(c).requests, w(c + 2).placed, 0, p)
  }

  ghost predicate Begins(w: World, c: nat, a: Args, conf: bool) {
    Starts(w, c) && conf && w(c + 3).ok && a.ns.Some?
  }

  /**
   How ADD ends in any world: it dies exactly if one of its first three questions has no usable answer; it returns early
   with an error if the configuration or the namespace is bad; else the loop decides, and the print has to work.
   */
  lemma AddExit(w: World, h: State, a: Args, conf: bool)
    ensures var r := Add(w, h, a, conf);
            && (r.exit.Fatal? <==> !Starts(w, h.clock))
            && (Starts(w, h.clock) && !Begins(w, h.clock, a, conf) ==>
                  r.exit == Returned(false, Completed, [], []) && SameButClock(r.h, h))
            && (Begins(w, h.clock, a, conf) ==>
                  var p := LoopOf(w, h, a);
                  && LoopWent(w, h, a, p)
                  && r.exit.Returned? && r.exit.stop == p.stop && r.exit.answers == p.answers
                  && (r.exit.ok <==> p.stop.Completed? && w(p.h.clock).ok))
  {
    AsksThree(w, h);
    var c := h.clock;
    hide PlaceFrom, Unwind, Exec, Went;
    if Begins(w, c, a, conf) {
      LoopAny(w, h.(clock := c + 4), a, a.ns.value, w(c + 1).table, w(c).requests, w(c + 2).placed, 0);
      ProbesIt(w, LoopOf(w, h, a).h);
    }
  }

  lemma AsksThree(w: World, h: State)
    ensures var c := h.clock;
            && Exec(w, h, PodInfo) == Ran(h.(clock := c + 1), if w(c).ok then Requests(w(c).requests) else Fail)
            && Exec(w, h.(clock := c + 1), Query) ==
               Ran(h.(clock := c + 2), if w(c + 1).ok then Table(w(c + 1).table) else Fail)
            && (forall wanted, pfs ::
                  Exec(w, h.(clock := c + 2), Place(wanted, pfs)) ==
                  Ran(h.(clock := c + 3),
                      if w(c + 2).ok && InBounds(w(c + 2).placed, wanted, pfs) then Placed(w(c + 2).placed) else Fail))
            && Exec(w, h.(clock := c + 3), Probe) == Ran(h.(clock := c + 4), if w(c + 3).ok then Ok else Fail)
  {
  }

  // ----- what is printed -----

  /**
   v is what is printed when the loop starts on host h: for every interface placed, in order, its name, and the address,
   gateway and routes that IPAM gave when that interface's turn asked, with the configured DNS.
   */
  ghost predicate LoopPrints(w: World, h: State, a: Args, pod: nat, pfs: seq<PfInfo>, reqs: seq<Rates>,
                             placed: seq<nat>, dns: CniTypes.DNS, v: Current.Value)
    requires InBounds(placed, |reqs|, |pfs|)
  {
    && v.cniVersion == "0.4.0" && v.dns == (if placed == [] then CniTypes.DNS([], "", [], []) else dns)
    && |v.interfaces| == |v.ips| == |placed|
    && exists said: seq<Types020.IPConfig> ::
         && |said| == |placed| && v.routes == Merge.AllRoutes(said)
         && forall k | 0 <= k < |placed| ::
              && Said(w, h, a, pod, pfs, reqs, placed, k) == Some(said[k])
              && v.interfaces[k] == Current.Interface("eth" + Itoa(k), "", "")
              && v.ips[k] == Current.IPConfig("4", None, said[k].ip, said[k].gateway)
  }

  lemma PrintsWhatIpamSaid(w: World, h: State, a: Args, pod: nat, pfs: seq<PfInfo>, reqs: seq<Rates>, placed: seq<nat>,
                           dns: CniTypes.DNS)
    requires InBounds(placed, |reqs|, |pfs|)
    ensures var p := PlaceFrom(w, h, a, pod, pfs, reqs, placed, 0);
            p.stop.Completed? ==>
              LoopPrints(w, h, a, pod, pfs, reqs, placed, dns, Merge.FinalValue(p.answers, dns))
  {
    hide PlaceFrom, TurnOf, Said, Merge.FinalValue, Merge.AllRoutes;
    LoopAny(w, h, a, pod, pfs, reqs, placed, 0);
    Merge.MergeRefinement(PlaceFrom(w, h, a, pod, pfs, reqs, placed, 0).answers, dns);
  }

  lemma PrintsThen(w: World, h: State, a: Args, dns: CniTypes.DNS, v: Current.Value)
    requires Starts(w, h.clock) && a.ns.Some?
    requires var c := h.clock;
             LoopPrints(w, h.(clock := c + 4), a, a.ns.value, w(c + 1).table, w(c).requests, w(c + 2).placed, dns, v)
    ensures Prints(w, h, a, dns, v)
  {
  }

  /** v is what an ADD on host h prints, whose loop starts after its first four calls. */
  ghost predicate Prints(w: World, h: State, a: Args, dns: CniTypes.DNS, v: Current.Value) {
    var c := h.clock;
    && Starts(w, c) && a.ns.Some?
    && LoopPrints(w, h.(clock := c + 4), a, a.ns.value, w(c + 1).table, w(c).requests, w(c + 2).placed, dns, v)
  }
}
