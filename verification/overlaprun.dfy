/** A run of three ADDs and three DELs from the start, without a crash, that ends in a host without the invariant. */
module OverlapRun {
  import opened Text
  import opened Host
  import opened Lifecycle
  import opened Programs
  import opened HostInvariant
  import opened Reclaim
  import opened Placement
  import opened SetupLaw
  import opened Lock
  import opened Commands
  import opened Overlap

  // ----- an ADD up to its first hand-over -----

  /** In every call of this world the same answers: one interface, on the first physical function. */
  ghost predicate Steady(w: World, pf: PfInfo, rates: Rates) {
    forall n: nat :: w(n).ok && w(n).requests == [rates] && w(n).table == [pf] && w(n).placed == [0]
  }

  /** What a setup does once its scan has ended. */
  function OnceScanned(a: Args, pod: nat, pf: string, podIf: string, k: (Option<nat>, bool) -> Prog)
    : (Option<nat>, seq<string>, bool) -> Prog
  {
    (vf: Option<nat>, names: seq<string>, ok: bool) =>
      if !ok || vf.None? || |names| != 1 then k(vf, false)
      else if a.vlan == 0 then HandP(a, pod, names[0], podIf, vf.value, (b: Reply) => k(vf, b.Ok?))
      else Do(SetVlan(VfId(pf, vf.value), a.vlan), (c: Reply) =>
        if !c.Ok? then k(vf, false)
        else HandP(a, pod, names[0], podIf, vf.value, (b: Reply) => k(vf, b.Ok?)))
  }

  lemma SetupReaches(w: World, h: State, a: Args, pod: nat, pf: string, podIf: string, rates: Rates,
                     k: (Option<nat>, bool) -> Prog, v: nat, x: nat)
    returns (kb: Reply -> Prog, t: State)
    requires AllOk(w, 0) && Inv(h) && a.vlan == 0 && Offered(h, pf, v, x) && h.links[x].name != "eth0"
    ensures Reach(w, Config(SetupP(a, pod, pf, podIf, rates, k), h),
                  Config(HandRestP(a, pod, x, h.links[x].name, podIf, v, kb), t))
    ensures t == h.(clock := t.clock, vfCfg := t.vfCfg) && t.vfCfg.Keys == h.vfCfg.Keys
  {
    hide Exec, Scan, ScanP, HandRestP, First, NetDir, UniqueNames, DevOk, Wired, Looks, Reach, Steps;
    var s := Config(SetupP(a, pod, pf, podIf, rates, k), h);
    Here(w, s);
    Looked(w, h, pf);
    var c := Go(w, s, s);
    c := Go(w, s, c);
    var t0 := h.(clock := h.clock + 2);
    var kk := OnceScanned(a, pod, pf, podIf, k);
    ScanRuns(w, t0, pf, 0, h.totals[pf], rates, kk);
    var z := Scan(w, t0, pf, 0, h.totals[pf], rates);
    ScanOffers(w, h, pf, rates);
    ScanFinds(w, t0, pf, 0, h.totals[pf], rates);
    OfferedOnce(h, pf, v, x, z.vf.value, h.vfLinks[VfId(pf, z.vf.value)][0]);
    var c2 := Config(kk(z.vf, z.names, z.ok), z.h);
    Trans(w, s, c, c2);
    kb := (b: Reply) => k(z.vf, b.Ok?);
    LinkByNameOk(w, z.h, Init, z.names[0], x);
    assert z.vf == Some(v) && |z.names| == 1 && z.names[0] == h.links[x].name;
    assert c2.p == HandP(a, pod, z.names[0], podIf, v, kb);
    c := Go(w, s, c2);
    t := z.h.(clock := z.h.clock + 1);
    assert c.h == t;
    assert c.p == HandRestP(a, pod, x, h.links[x].name, podIf, v, kb);
  }

  /** An ADD that is offered the VF v gets to the point where it hands over the VF's link. */
  lemma AddReaches(w: World, h: State, a: Args, pod: nat, pf: PfInfo, rates: Rates, v: nat, x: nat)
    returns (k: Reply -> Prog, t: State)
    requires Steady(w, pf, rates) && Inv(h) && a.ns == Some(pod) && a.vlan == 0
    requires Offered(h, pf.name, v, x) && h.links[x].name != "eth0"
    ensures Reach(w, Config(AddP(a, true), h), Config(HandRestP(a, pod, x, h.links[x].name, Eth(0), v, k), t))
    ensures t == h.(clock := t.clock, vfCfg := t.vfCfg) && t.vfCfg.Keys == h.vfCfg.Keys
  {
    var name := h.links[x].name;
    hide SetupP, HandRestP, PlaceFromP, AddP, Eth, Offered, UniqueNames, DevOk, Wired, Reach, Exec;
    var o := h.(clock := h.clock + 4);
    AddStarts(w, h, a, pod, pf, rates);
    var ks := TurnIsSetup(a, pod, pf, rates);
    StillOffered(h, o, pf.name, v, x);
    k, t := SetupReaches(w, o, a, pod, pf.name, Eth(0), rates, ks, v, x);
    Trans(w, Config(AddP(a, true), h), Config(SetupP(a, pod, pf.name, Eth(0), rates, ks), o),
          Config(HandRestP(a, pod, x, name, Eth(0), v, k), t));
  }

  lemma AddStarts(w: World, h: State, a: Args, pod: nat, pf: PfInfo, rates: Rates)
    requires Steady(w, pf, rates) && a.ns == Some(pod)
    ensures InBounds([0], 1, 1)
    ensures Reach(w, Config(AddP(a, true), h),
                  Config(PlaceFromP(a, pod, [pf], [rates], [0], 0, [UnlockFrame]), h.(clock := h.clock + 4)))
  {
    hide PlaceFromP, Reach;
    AddAnswers(w, h, pf, rates);
    hide Exec;
    var s := Config(AddP(a, true), h);
    Here(w, s);
    var c := Go(w, s, s);
    c := Go(w, s, c);
    c := Go(w, s, c);
    c := Go(w, s, c);
  }

  /** The placement loop starts with the setup for the first interface. */
  lemma TurnIsSetup(a: Args, pod: nat, pf: PfInfo, rates: Rates) returns (ks: (Option<nat>, bool) -> Prog)
    requires InBounds([0], 1, 1)
    ensures PlaceFromP(a, pod, [pf], [rates], [0], 0, [UnlockFrame]) == SetupP(a, pod, pf.name, Eth(0), rates, ks)
  {
    hide SetupP, Eth;
    var ko := (stop: Stop, frames: seq<Frame>) =>
      if stop.Completed? then PlaceFromP(a, pod, [pf], [rates], [0], 0 + 1, [UnlockFrame] + frames)
      else UnwindP(a, pod, [UnlockFrame] + frames, ErrSet(stop));
    ks := (vf: Option<nat>, ok: bool) =>
      var back := [RollbackFrame(0, pf.name, vf)];
      if !ok then ko(SetupFailed, back)
      else Do(IpamAdd, (r: Reply) =>
        if !r.Answer? then ko(IpamFailed, back)
        else if r.ip4.None? then ko(NoIp4, back)
        else ConfigureP(pod, Eth(0), (c: Reply) =>
          ko(if c.Ok? then Completed else ConfigFailed, back + [IpamFrame(0)])));
  }

  lemma AddAnswers(w: World, h: State, pf: PfInfo, rates: Rates)
    requires Steady(w, pf, rates)
    ensures Exec(w, h, PodInfo) == Ran(h.(clock := h.clock + 1), Requests([rates]))
    ensures Exec(w, h.(clock := h.clock + 1), Query) == Ran(h.(clock := h.clock + 2), Table([pf]))
    ensures InBounds([0], 1, 1)
    ensures Exec(w, h.(clock := h.clock + 2), Place(1, 1)) == Ran(h.(clock := h.clock + 3), Placed([0]))
    ensures Exec(w, h.(clock := h.clock + 3), Probe) == Ran(h.(clock := h.clock + 4), Ok)
  {
  }

  lemma StillOffered(h: State, t: State, pf: string, v: nat, x: nat)
    requires SameButClock(t, h) && Inv(h)
    ensures Offered(t, pf, v, x) <==> Offered(h, pf, v, x)
    ensures Inv(t)
  {
    hide UniqueNames, DevOk, Wired, Find;
    SameFirst(h, t, pf, if pf in h.totals then h.totals[pf] else 0);
    hide First;
  }

  // ----- a DEL up to its release -----

  /** About to remove the record it has read, and to bring the interface back whatever comes of that. */
  ghost predicate AboutToRemove(p: Prog, key: string, pod: nat, name: string, k: Reply -> Prog) {
    p.Do? && p.op == RemoveFile(key) && forall r :: p.k(r) == EnterAndReturnP(pod, name, k)
  }

  /** A DEL reads the record of the only link in the pod. */
  lemma DelReaches(w: World, h: State, a: Args, pod: nat, i: nat) returns (p: Prog, k: Reply -> Prog)
    requires AllOk(w, 0) && a.ns == Some(pod) && !a.ipam && i in h.links
    requires w(h.clock).order == [i] && Enumerates(h.links, Pod(pod), [i]) && IsEthName(h.links[i].name)
    requires Key(a.cid, h.links[i].name) in h.store
    ensures Reach(w, Config(DelP(a), h), Config(p, h.(clock := h.clock + 4)))
    ensures AboutToRemove(p, Key(a.cid, h.links[i].name), pod, h.links[i].name, k)
  {
    hide EnterAndReturnP, FreeVfP, IsEthName, Key, FindMac, ReleaseCustomP, Exec, Enumerates, Reach, Steps;
    var name := h.links[i].name;
    var ifc := Iface(name, h.links[i].mac);
    var pfs := w(h.clock + 1).table;
    DelAnswers(w, h, pod, i, Key(a.cid, name));
    var s := Config(DelP(a), h);
    Here(w, s);
    var c := Go(w, s, s);
    c := Go(w, s, c);
    var kd := (x: DelExit) => DelEnd(x);
    var kx := (x: DelExit) => if x.Crashed? then kd(x) else DelLoopP(a, pod, [ifc][1..], pfs, kd);
    assert c == Config(ReleaseCustomP(a, pod, ifc, pfs, kx), h.(clock := h.clock + 2));
    var d;
    p, k, d := ReadReaches(w, c.h, a, pod, ifc, pfs, kx);
    Trans(w, s, c, d);
  }

  lemma ReadReaches(w: World, h: State, a: Args, pod: nat, ifc: Iface, pfs: seq<PfInfo>, kx: DelExit -> Prog)
    returns (p: Prog, k: Reply -> Prog, d: Config)
    requires Key(a.cid, ifc.name) in h.store
    requires Exec(w, h, Probe) == Ran(h.(clock := h.clock + 1), Ok)
    requires var key := Key(a.cid, ifc.name);
             Exec(w, h.(clock := h.clock + 1), ReadFile(key)) == Ran(h.(clock := h.clock + 2), Data(h.store[key]))
    ensures d == Config(p, h.(clock := h.clock + 2)) && Reach(w, Config(ReleaseCustomP(a, pod, ifc, pfs, kx), h), d)
    ensures AboutToRemove(p, Key(a.cid, ifc.name), pod, ifc.name, k)
  {
    hide EnterAndReturnP, FreeVfP, Key, FindMac, Exec, Reach, Steps;
    var s := Config(ReleaseCustomP(a, pod, ifc, pfs, kx), h);
    Here(w, s);
    d := Go(w, s, s);
    d := Go(w, s, d);
    p := d.p;
    k := (b: Reply) => if !b.Index? then kx(Done(false)) else FreeVfP(a.vlan, FindMac(pfs, ifc.mac), Dev(b.index), kx);
  }

  lemma DelAnswers(w: World, h: State, pod: nat, i: nat, key: string)
    requires AllOk(w, 0) && w(h.clock).order == [i] && Enumerates(h.links, Pod(pod), [i])
    requires i in h.links && key in h.store
    ensures Exec(w, h, ListNs(Pod(pod))) ==
            Ran(h.(clock := h.clock + 1), Ifaces([Iface(h.links[i].name, h.links[i].mac)]))
    ensures Exec(w, h.(clock := h.clock + 1), Query) == Ran(h.(clock := h.clock + 2), Table(w(h.clock + 1).table))
    ensures Exec(w, h.(clock := h.clock + 2), Probe) == Ran(h.(clock := h.clock + 3), Ok)
    ensures Exec(w, h.(clock := h.clock + 3), ReadFile(key)) == Ran(h.(clock := h.clock + 4), Data(h.store[key]))
  {
    hide Enumerates, Listing, Exec;
    ListsIt(w, h, pod, i);
    ReadsIt(w, h, key);
  }

  lemma ListsIt(w: World, h: State, pod: nat, i: nat)
    requires w(h.clock).ok && w(h.clock).order == [i] && Enumerates(h.links, Pod(pod), [i]) && i in h.links
    ensures Exec(w, h, ListNs(Pod(pod))) ==
            Ran(h.(clock := h.clock + 1), Ifaces([Iface(h.links[i].name, h.links[i].mac)]))
  {
    OneListed(h.links, pod, i);
    hide Enumerates, Listing;
  }

  lemma ReadsIt(w: World, h: State, key: string)
    requires AllOk(w, 0) && key in h.store
    ensures Exec(w, h.(clock := h.clock + 1), Query) == Ran(h.(clock := h.clock + 2), Table(w(h.clock + 1).table))
    ensures Exec(w, h.(clock := h.clock + 2), Probe) == Ran(h.(clock := h.clock + 3), Ok)
    ensures Exec(w, h.(clock := h.clock + 3), ReadFile(key)) == Ran(h.(clock := h.clock + 4), Data(h.store[key]))
  {
  }

  lemma OneListed(links: Links, pod: nat, i: nat)
    requires Enumerates(links, Pod(pod), [i]) && i in links
    ensures forall k | 0 <= k < |[i]| :: [i][k] in links
    ensures Listing(links, [i]) == [Iface(links[i].name, links[i].mac)]
  {
  }

  /** It removes the record, or finds it removed, and goes on to bring the interface back. */
  lemma RemoveReaches(w: World, h: State, p: Prog, key: string, pod: nat, name: string, k: Reply -> Prog)
    requires AllOk(w, 0) && AboutToRemove(p, key, pod, name, k)
    ensures Reach(w, Config(p, h), Config(BringBackP(pod, name, k), h.(clock := h.clock + 3, store := h.store - {key})))
  {
    hide BringBackP;
    var s := Config(p, h);
    Here(w, s);
    RemoveAnswers(w, h, key);
    hide Exec;
    var c := Go(w, s, s);
    c := Go(w, s, c);
    c := Go(w, s, c);
  }

  lemma RemoveAnswers(w: World, h: State, key: string)
    requires AllOk(w, 0)
    ensures var t := h.(store := h.store - {key});
            && Exec(w, h, RemoveFile(key)).h == t.(clock := h.clock + 1)
            && Exec(w, t.(clock := h.clock + 1), Probe) == Ran(t.(clock := h.clock + 2), Ok)
            && Exec(w, t.(clock := h.clock + 2), Probe) == Ran(t.(clock := h.clock + 3), Ok)
  {
  }

  // ----- the processes -----

  /** No process is killed, and no call on the lock file fails. */
  predicate Calm(es: seq<Event>) {
    forall e | e in es :: !e.Kill? && e.ok
  }

  /** The process pid has entered, and has run alone as far as q. */
  ghost predicate Went(s: Sys, t: Sys, pid: nat, q: Config) {
    pid in s.procs && t.file && t.h == q.h && t.procs == s.procs[pid := Critical(q.p)]
  }

  lemma Entered(w: World, progs: Progs, s: Sys, t: Sys, opens: seq<Event>, pid: nat, q: Config) returns (es: seq<Event>)
    requires s.procs.Keys <= progs.Keys && pid in s.procs && Calm(opens)
    requires Play(w, progs, s, opens) == t && t.file && t.h == s.h && t.procs == s.procs[pid := Critical(progs[pid])]
    requires Reach(w, Config(progs[pid], s.h), q)
    ensures Calm(es) && Went(s, Play(w, progs, s, es), pid, q)
  {
    hide Play;
    var n: nat :| Steps(w, Config(progs[pid], s.h), n) == q;
    var more := RunAlone(w, progs, s, opens, pid, n, q);
    es := opens + more;
    assert t.procs[pid := Critical(q.p)] == s.procs[pid := Critical(q.p)];
  }

  /** The file is not there: the process creates it. */
  lemma Creates(w: World, progs: Progs, s: Sys, pid: nat, q: Config) returns (es: seq<Event>)
    requires s.procs.Keys <= progs.Keys && pid in s.procs && s.procs[pid] == Waiting(0) && !s.file
    requires Reach(w, Config(progs[pid], s.h), q)
    ensures Calm(es) && Went(s, Play(w, progs, s, es), pid, q)
  {
    var t := Next(w, progs, s, Open(pid, true));
    PlayNothing(w, progs, s);
    PlayMore(w, progs, s, [], Open(pid, true));
    assert [] + [Open(pid, true)] == [Open(pid, true)];
    es := Entered(w, progs, s, t, [Open(pid, true)], pid, q);
  }

  /** The file is there: the process takes it over after 300 failures. */
  lemma Takes(w: World, progs: Progs, s: Sys, pid: nat, q: Config) returns (es: seq<Event>)
    requires s.procs.Keys <= progs.Keys && pid in s.procs && s.procs[pid] == Waiting(0) && s.file
    requires Reach(w, Config(progs[pid], s.h), q)
    ensures Calm(es) && Went(s, Play(w, progs, s, es), pid, q)
  {
    hide Play, Reach;
    TakeOver(w, progs, s, pid, 0);
    var t := Play(w, progs, s, Opens(pid, 301));
    es := Entered(w, progs, s, t, Opens(pid, 301), pid, q);
  }

  /** A process that is inside goes on alone. */
  lemma GoesOn(w: World, progs: Progs, s: Sys, pid: nat, p: Prog, q: Config) returns (es: seq<Event>)
    requires s.procs.Keys <= progs.Keys && pid in s.procs && s.procs[pid] == Critical(p) && s.file
    requires Reach(w, Config(p, s.h), q)
    ensures Calm(es) && Went(s, Play(w, progs, s, es), pid, q)
  {
    hide Play, Reach;
    PlayNothing(w, progs, s);
    es := RunTo(w, progs, s, [], pid, p, q);
  }

  lemma Joined(w: World, progs: Progs, s: Sys, xs: seq<Event>, ys: seq<Event>)
    requires s.procs.Keys <= progs.Keys && Calm(xs) && Calm(ys)
    ensures Calm(xs + ys) && Play(w, progs, s, xs + ys) == Play(w, progs, Play(w, progs, s, xs), ys)
  {
    PlayOn(w, progs, s, xs, ys);
  }

  // ----- the host and the six requests -----

  const POD: nat := 7
  const OTHER: nat := 8

  /** Two free VFs; the link of the first has come back from a pod before, so that it has its reserved name. */
  function StartHost(): State {
    State(map[0 := Link(Init, "pf", true, 100), 1 := Link(Init, Dev(1), false, 101), 2 := Link(Init, "vf", false, 102)],
          map["pf" := 2], map[VfId("pf", 0) := [1], VfId("pf", 1) := [2]],
          map[VfId("pf", 0) := VfCfg(0, 0, 0), VfId("pf", 1) := VfCfg(0, 0, 0)], map[], 0)
  }

  const PF := PfInfo("pf", [])
  const RATES := Rates(1, 2)

  function Answers(): World {
    (n: nat) => Fate(true, 0, None, [RATES], [PF], [0], [1])
  }

  const MINE := Args("c", Some(POD), 0, false)
  const YOURS := Args("d", Some(OTHER), 0, false)

  /** One container is deleted three times and added twice, another is added once. */
  function Requests6(): map<nat, Req> {
    map[0 := DelReq(MINE), 1 := DelReq(MINE), 2 := AddReq(MINE, true), 3 := AddReq(YOURS, true), 4 := DelReq(MINE),
        5 := AddReq(MINE, true)]
  }

  function Start(): Sys {
    Sys(false, StartHost(), map pid: nat | pid in Requests6() :: Waiting(0), 0, [])
  }

  /** The key of the record that the first container has for its interface. */
  function MyKey(): string {
    Key("c", Eth(0))
  }

  /** The links once the first VF is in the pod. */
  function LinksIn(): Links {
    StartHost().links[1 := InPod(StartHost().links[1], POD, Eth(0), false)]
  }

  /** The starting host but for these links, these records and the rates. */
  ghost predicate Like(t: State, links: Links, store: map<string, Record>) {
    && t == StartHost().(clock := t.clock, vfCfg := t.vfCfg, links := links, store := store)
    && t.vfCfg.Keys == StartHost().vfCfg.Keys
  }

  lemma Names()
    ensures forall k: nat :: Dev(k) != "pf" && Dev(k) != "vf" && Dev(k) != Eth(0) && Dev(k) != "eth0"
    ensures forall k: nat | Dev(k) == Dev(1) :: k == 1
    ensures Eth(0) != "pf" && Eth(0) != "vf" && IsEthName(Eth(0))
  {
    NameKindsDisjoint(0, "");
    forall k: nat ensures Dev(k) != "pf" && Dev(k) != "vf" && Dev(k) != Eth(0) && Dev(k) != "eth0" {
      NameKindsDisjoint(k, "");
    }
    forall k: nat | Dev(k) == Dev(1) ensures k == 1 {
      DevInjective(k, 1);
    }
    EthIsEthName(0);
  }

  lemma WiredThere(t: State, links: Links, store: map<string, Record>)
    requires Like(t, links, store) && links.Keys == {0, 1, 2}
    ensures Wired(t.links, t.vfLinks, t.vfCfg, t.totals)
    ensures t.vfLinks[VfId("pf", 0)] == [1] && t.vfLinks[VfId("pf", 1)] == [2] && t.totals["pf"] == 2
  {
    hide Dev;
  }

  lemma BeforeMove(t: State, store: map<string, Record>)
    requires Like(t, StartHost().links, store)
    ensures Inv(t) && Offered(t, "pf", 0, 1) && t.links[1].name == Dev(1) && Dev(1) != "eth0"
    ensures FreeIn(t.links, POD, Dev(1)) && FreeIn(t.links, POD, Eth(0)) && At(t.links, 1, Init, Dev(1))
  {
    StartLinksOk();
    FirstOffered(t, store);
    hide Dev, Eth, IsEthName, UniqueNames, DevOk, Wired, Offered, FreeIn;
    WiredThere(t, StartHost().links, store);
  }

  lemma StartLinksOk()
    ensures UniqueNames(StartHost().links) && DevOk(StartHost().links, Init) && Dev(1) != "eth0"
    ensures FreeIn(StartHost().links, POD, Dev(1)) && FreeIn(StartHost().links, POD, Eth(0))
  {
    Names();
    hide Dev, Eth, IsEthName;
  }

  lemma FirstOffered(t: State, store: map<string, Record>)
    requires Like(t, StartHost().links, store)
    ensures Offered(t, "pf", 0, 1)
  {
    hide Dev, Eth, Wired;
    WiredThere(t, StartHost().links, store);
    SingleNetDir(t, VfId("pf", 0));
    assert At(t.links, 0, Init, "pf");
    hide NetDir;
    assert Visible(t, "pf", 0) && First(t, "pf", 0, 2, 0);
  }

  lemma AfterMove(t: State, store: map<string, Record>)
    requires Like(t, LinksIn(), store)
    ensures Inv(t) && DevOk(t.links, Pod(POD))
    ensures Enumerates(t.links, Pod(POD), [1]) && t.links[1].name == Eth(0) && IsEthName(Eth(0))
    ensures At(t.links, 1, Pod(POD), Eth(0)) && At(t.links, 2, Init, "vf") && FreeIn(t.links, POD, "vf")
    ensures FreeIn(t.links, OTHER, Dev(1)) && FreeIn(t.links, OTHER, Eth(0))
  {
    Names();
    hide Dev, Eth, IsEthName, Wired, Enumerates, DevOk, UniqueNames;
    WiredThere(t, LinksIn(), store);
    LinksInOk();
  }

  lemma LinksInOk()
    ensures UniqueNames(LinksIn()) && DevOk(LinksIn(), Init) && DevOk(LinksIn(), Pod(POD))
    ensures Enumerates(LinksIn(), Pod(POD), [1])
  {
    Names();
    hide Dev, Eth, IsEthName;
    assert 1 in [1];
  }

  lemma SecondOffered(t: State, store: map<string, Record>)
    requires Like(t, LinksIn(), store)
    ensures Offered(t, "pf", 1, 2) && t.links[2].name == "vf"
  {
    hide Dev, Eth, Wired;
    WiredThere(t, LinksIn(), store);
    SingleNetDir(t, VfId("pf", 0));
    SingleNetDir(t, VfId("pf", 1));
    assert At(t.links, 0, Init, "pf");
    hide NetDir;
    assert !Visible(t, "pf", 0) && Visible(t, "pf", 1);
    assert First(t, "pf", 0, 2, 1);
  }

  // ----- the run -----

  ghost predicate Among6(t: Sys) {
    t.procs.Keys == Requests6().Keys
  }

  lemma AnswersSteady()
    ensures Steady(Answers(), PF, RATES) && AllOk(Answers(), 0) && forall n: nat :: Answers()(n).order == [1]
  {
  }

  ghost function Progs6(): Progs {
    ProgramsOf(Requests6())
  }

  lemma TheirPrograms()
    ensures Progs6().Keys == Requests6().Keys == {0, 1, 2, 3, 4, 5}
    ensures Progs6()[0] == Progs6()[1] == Progs6()[4] == DelP(MINE)
    ensures Progs6()[2] == Progs6()[5] == AddP(MINE, true) && Progs6()[3] == AddP(YOURS, true)
  {
  }

  function Mine(): Record {
    Record(Eth(0), 0, 0)
  }

  /** The other container's ADD has looked up the first VF's link and is about to hand it over. */
  ghost predicate Holding(t: Sys, kE: Reply -> Prog) {
    && Among6(t) && t.file && t.procs[3] == Critical(HandRestP(YOURS, OTHER, 1, Dev(1), Eth(0), 0, kE))
  }

  ghost predicate Idle(t: Sys, pids: set<nat>) {
    forall pid | pid in pids :: pid in t.procs && t.procs[pid] == Waiting(0)
  }

  /** The other container's ADD chooses the first VF and is slow; so this container's ADD gives it to the pod. */
  lemma BothAdd() returns (es: seq<Event>, kE: Reply -> Prog)
    ensures Calm(es)
    ensures var t := Play(Answers(), Progs6(), Start(), es);
            && Holding(t, kE) && Idle(t, {0, 1, 2, 4}) && Like(t.h, LinksIn(), map[MyKey() := Mine()])
  {
    hide Play, AddP, DelP, HandRestP, Eth, Dev, Reach, Offered, FreeIn, UniqueNames, DevOk, Wired, Progs6, Key;
    var w, h := Answers(), StartHost();
    AnswersSteady();
    TheirPrograms();
    BeforeMove(h, map[]);
    var hE;
    kE, hE := AddReaches(w, h, YOURS, OTHER, PF, RATES, 0, 1);
    var xs := Creates(w, Progs6(), Start(), 3, Config(HandRestP(YOURS, OTHER, 1, Dev(1), Eth(0), 0, kE), hE));
    var s1 := Play(w, Progs6(), Start(), xs);
    BeforeMove(hE, map[]);
    var kF, hF := AddReaches(w, hE, MINE, POD, PF, RATES, 0, 1);
    BeforeMove(hF, map[]);
    var t := HandsOut(w, hF, MINE, POD, 1, Dev(1), Eth(0), 0, kF);
    Trans(w, Config(AddP(MINE, true), hE), Config(HandRestP(MINE, POD, 1, Dev(1), Eth(0), 0, kF), hF),
          Config(kF(Ok), t));
    var ys := Takes(w, Progs6(), s1, 5, Config(kF(Ok), t));
    Joined(w, Progs6(), Start(), xs, ys);
    es := xs + ys;
  }

  /** A DEL that has read the record. */
  ghost predicate HasRead(t: Sys, pid: nat, k: Reply -> Prog) {
    pid in t.procs && t.procs[pid].Critical? && AboutToRemove(t.procs[pid].p, MyKey(), POD, Eth(0), k)
  }

  /** One more DEL takes the lock over and reads the record. */
  lemma OneReads(s: Sys, pid: nat) returns (es: seq<Event>, k: Reply -> Prog)
    requires pid in {0, 1, 4} && Among6(s) && s.file && s.procs[pid] == Waiting(0)
    requires Like(s.h, LinksIn(), map[MyKey() := Mine()])
    ensures Calm(es)
    ensures var t := Play(Answers(), Progs6(), s, es);
            && Among6(t) && t.file && Like(t.h, LinksIn(), map[MyKey() := Mine()]) && HasRead(t, pid, k)
            && t.procs == s.procs[pid := t.procs[pid]]
  {
    hide Play, AddP, DelP, Eth, Dev, Reach, FreeIn, UniqueNames, DevOk, Wired, Progs6, Key, AboutToRemove, Enumerates,
        IsEthName;
    AnswersSteady();
    TheirPrograms();
    AfterMove(s.h, map[MyKey() := Mine()]);
    var p;
    p, k := DelReaches(Answers(), s.h, MINE, POD, 1);
    es := Takes(Answers(), Progs6(), s, pid, Config(p, s.h.(clock := s.h.clock + 4)));
  }

  /** One of them goes on: the record is gone after that, and it is about to bring the interface back. */
  lemma OneRemoves(s: Sys, pid: nat, k: Reply -> Prog, store: map<string, Record>) returns (es: seq<Event>)
    requires Among6(s) && s.file && Like(s.h, LinksIn(), store) && HasRead(s, pid, k)
    ensures Calm(es)
    ensures var t := Play(Answers(), Progs6(), s, es);
            && Among6(t) && t.file && Like(t.h, LinksIn(), store - {MyKey()})
            && t.procs == s.procs[pid := Critical(BringBackP(POD, Eth(0), k))]
  {
    hide Play, BringBackP, Eth, Dev, Reach, Progs6, Key, AboutToRemove, MyKey;
    AnswersSteady();
    TheirPrograms();
    var h := s.h.(clock := s.h.clock + 3, store := s.h.store - {MyKey()});
    RemoveReaches(Answers(), s.h, s.procs[pid].p, MyKey(), POD, Eth(0), k);
    es := GoesOn(Answers(), Progs6(), s, pid, s.procs[pid].p, Config(BringBackP(POD, Eth(0), k), h));
  }

  /** All three DELs read the record before one of them removes it. */
  lemma AllRead() returns (es: seq<Event>, kE: Reply -> Prog, kA: Reply -> Prog, kB: Reply -> Prog, kD: Reply -> Prog)
    ensures Calm(es)
    ensures var t := Play(Answers(), Progs6(), Start(), es);
            && Holding(t, kE) && Idle(t, {2}) && Like(t.h, LinksIn(), map[MyKey() := Mine()])
            && HasRead(t, 0, kA) && HasRead(t, 1, kB) && HasRead(t, 4, kD)
  {
    hide Play, HandRestP, Eth, Dev, Progs6, MyKey, AboutToRemove, Like;
    TheirPrograms();
    es, kE := BothAdd();
    var more;
    more, kA := OneReads(Play(Answers(), Progs6(), Start(), es), 0);
    Joined(Answers(), Progs6(), Start(), es, more);
    es := es + more;
    more, kB := OneReads(Play(Answers(), Progs6(), Start(), es), 1);
    Joined(Answers(), Progs6(), Start(), es, more);
    es := es + more;
    more, kD := OneReads(Play(Answers(), Progs6(), Start(), es), 4);
    Joined(Answers(), Progs6(), Start(), es, more);
    es := es + more;
  }

  ghost predicate AboutToBringBack(t: Sys, pid: nat, k: Reply -> Prog) {
    pid in t.procs && t.procs[pid] == Critical(BringBackP(POD, Eth(0), k))
  }

  /** Then all three are about to bring the interface back. */
  lemma AllRemove() returns (es: seq<Event>, kE: Reply -> Prog, kA: Reply -> Prog, kB: Reply -> Prog, kD: Reply -> Prog)
    ensures Calm(es)
    ensures var t := Play(Answers(), Progs6(), Start(), es);
            && Holding(t, kE) && Idle(t, {2}) && Like(t.h, LinksIn(), map[])
            && AboutToBringBack(t, 0, kA) && AboutToBringBack(t, 1, kB) && AboutToBringBack(t, 4, kD)
  {
    hide Play, HandRestP, BringBackP, Eth, Dev, Progs6, MyKey, AboutToRemove, Like;
    TheirPrograms();
    es, kE, kA, kB, kD := AllRead();
    var more := OneRemoves(Play(Answers(), Progs6(), Start(), es), 0, kA, map[MyKey() := Mine()]);
    Joined(Answers(), Progs6(), Start(), es, more);
    es := es + more;
    NoRecordLess(MyKey());
    more := OneRemoves(Play(Answers(), Progs6(), Start(), es), 1, kB, map[]);
    Joined(Answers(), Progs6(), Start(), es, more);
    es := es + more;
    more := OneRemoves(Play(Answers(), Progs6(), Start(), es), 4, kD, map[]);
    Joined(Answers(), Progs6(), Start(), es, more);
    es := es + more;
  }

  lemma NoRecordLess(key: string)
    ensures var none: map<string, Record> := map[]; none - {key} == none
    ensures map[key := Mine()] - {key} == map[]
  {
  }

  /** The container's second ADD comes in and is about to hand over the second VF's link. */
  lemma FiveInside() returns (es: seq<Event>, c: Cast, b: Bodies)
    ensures Calm(es)
    ensures var t := Play(Answers(), Progs6(), Start(), es); Staged(Answers(), t.h, c) && FiveLive(t.procs, c, b)
  {
    hide Play, AddP, HandRestP, BringBackP, Eth, Dev, Reach, Progs6, FreeIn, UniqueNames, DevOk, Wired, Offered;
    AnswersSteady();
    TheirPrograms();
    var kE, kA, kB, kD;
    es, kE, kA, kB, kD := AllRemove();
    var s := Play(Answers(), Progs6(), Start(), es);
    AfterMove(s.h, map[]);
    SecondOffered(s.h, map[]);
    NotEth0Name();
    var kC, t := AddReaches(Answers(), s.h, MINE, POD, PF, RATES, 1, 2);
    var more := Takes(Answers(), Progs6(), s, 2, Config(HandRestP(MINE, POD, 2, "vf", Eth(0), 1, kC), t));
    Joined(Answers(), Progs6(), Start(), es, more);
    es := es + more;
    c, b := OnStage(Play(Answers(), Progs6(), Start(), es), kA, kB, kC, kE, kD);
  }

  lemma OnStage(t: Sys, kA: Reply -> Prog, kB: Reply -> Prog, kC: Reply -> Prog, kE: Reply -> Prog, kD: Reply -> Prog)
    returns (c: Cast, b: Bodies)
    requires Like(t.h, LinksIn(), map[]) && Holding(t, kE) && 2 in t.procs
    requires AboutToBringBack(t, 0, kA) && AboutToBringBack(t, 1, kB) && AboutToBringBack(t, 4, kD)
    requires t.procs[2] == Critical(HandRestP(MINE, POD, 2, "vf", Eth(0), 1, kC))
    ensures Staged(Answers(), t.h, c) && FiveLive(t.procs, c, b)
  {
    hide HandRestP, BringBackP, Eth, Dev, FreeIn, UniqueNames, DevOk, Wired, Like, Enumerates;
    AnswersSteady();
    AfterMove(t.h, map[]);
    c := Cast(POD, Eth(0), 1, 2, "vf", OTHER, Eth(0));
    b := Bodies([0, 1, 2, 3, 4], [kA, kB, kC, kE, kD], MINE, YOURS, 1, 0);
  }

  lemma NotEth0Name()
    ensures "vf" != "eth0"
  {
  }

  /**
   From the start, on a host with the invariant, with calls that all work and without a crash: three DELs and two ADDs
   of one container and an ADD of another, let in by takeovers, end on a host without the invariant.
   */
  lemma InvariantCanBreak() returns (es: seq<Event>)
    ensures Fresh(Requests6(), Start()) && Inv(Start().h) && AllOk(Answers(), 0) && Calm(es)
    ensures !Inv(Play(Answers(), ProgramsOf(Requests6()), Start(), es).h)
  {
    hide Play, Dev, Inv, Staged, FiveLive, Progs6;
    AnswersSteady();
    TheirPrograms();
    BeforeMove(StartHost(), map[]);
    var c, b;
    es, c, b := FiveInside();
    var t := Play(Answers(), Progs6(), Start(), es);
    var more := OverlapMixesNames(Answers(), Progs6(), t, c, b);
    Joined(Answers(), Progs6(), Start(), es, more);
    es := es + more;
    ThoseProgs();
  }

  lemma ThoseProgs()
    ensures Progs6() == ProgramsOf(Requests6())
  {
  }
}
