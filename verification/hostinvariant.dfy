/** What every ADD, rollback and DEL keeps, whichever of their calls fail. */
module HostInvariant {
  import opened Text
  import opened Host
  import opened Lifecycle

  ghost predicate IsVfLink(vfLinks: VfMap, i: nat) {
    exists id :: id in vfLinks && i in vfLinks[id]
  }

  /** A scratch file of this container: its name ends in an interface name of DEL's kind. */
  ghost predicate OwnKey(cid: string, key: string) {
    exists n :: IsEthName(n) && key == Key(cid, n)
  }

  /** Links a command for this pod may touch: those in the pod, and VF links of the initial namespace. */
  ghost predicate Mine(links: Links, vfLinks: VfMap, i: nat, pod: nat) {
    i in links && (links[i].ns == Pod(pod) || (links[i].ns == Init && IsVfLink(vfLinks, i)))
  }

  /** The links: none appears or vanishes, addresses stay, foreign links keep everything. */
  ghost predicate LinksEvolve(links: Links, links': Links, vfLinks: VfMap, pod: nat) {
    && links'.Keys == links.Keys
    && (forall i | i in links :: links'[i].mac == links[i].mac)
    && (forall i | i in links && !Mine(links, vfLinks, i, pod) :: links'[i] == links[i])
    && (forall i | i in links && Mine(links, vfLinks, i, pod) :: links'[i].ns in {Init, Pod(pod)})
  }

  ghost predicate StoreEvolves(store: map<string, Record>, store': map<string, Record>, cid: string) {
    forall key | !OwnKey(cid, key) ::
      (key in store' <==> key in store) && (key in store ==> store'[key] == store[key])
  }

  ghost predicate Evolves(h: State, h': State, pod: nat, cid: string) {
    && h'.vfLinks == h.vfLinks && h'.totals == h.totals && h'.vfCfg.Keys == h.vfCfg.Keys
    && LinksEvolve(h.links, h'.links, h.vfLinks, pod)
    && StoreEvolves(h.store, h'.store, cid)
  }

  /** From h to h': the invariant holds again, and dev-names in the pod stay as clean as they were. */
  ghost predicate Kept(h: State, h': State, pod: nat, cid: string) {
    && Inv(h')
    && Evolves(h, h', pod, cid)
    && (DevOk(h.links, Pod(pod)) ==> DevOk(h'.links, Pod(pod)))
  }

  ghost predicate DevNamed(i: nat, name: string) {
    forall k: nat :: name == Dev(k) ==> k == i
  }

  /** What the commands check, or know, before they make a call. */
  ghost predicate Allowed(h: State, op: Op, pod: nat, cid: string) {
    match op
    case SetUp(i) => i in h.links ==> Mine(h.links, h.vfLinks, i, pod)
    case SetDown(i) => i in h.links ==> Mine(h.links, h.vfLinks, i, pod)
    case SetName(i, name) => i in h.links ==> Mine(h.links, h.vfLinks, i, pod) && DevNamed(i, name)
    case SetNs(i, ns) =>
      i in h.links ==> && Mine(h.links, h.vfLinks, i, pod)
                       && ((ns == Pod(pod) && h.links[i].ns == Init) || (ns == Init && DevNamed(i, h.links[i].name)))
    case WriteFile(key, _) => OwnKey(cid, key)
    case RemoveFile(key) => OwnKey(cid, key)
    case _ => true
  }

  /** Which parts of a host a call can change. */
  lemma ExecFrame(w: World, h: State, op: Op)
    ensures var t := Exec(w, h, op).h;
            && t.vfLinks == h.vfLinks && t.totals == h.totals && t.vfCfg.Keys == h.vfCfg.Keys
            && (t.store == h.store || (op.WriteFile? && t.store == h.store[op.key := op.rec])
                || (op.RemoveFile? && t.store == h.store - {op.key}))
            && (t.links == h.links || LinkChange(h, op, t))
  {
    hide Exec, LinkChange;
    ExecStore(w, h, op);
    ExecLinks(w, h, op);
  }

  lemma ExecStore(w: World, h: State, op: Op)
    ensures var t := Exec(w, h, op).h;
            && t.vfLinks == h.vfLinks && t.totals == h.totals && t.vfCfg.Keys == h.vfCfg.Keys
            && (t.store == h.store || (op.WriteFile? && t.store == h.store[op.key := op.rec])
                || (op.RemoveFile? && t.store == h.store - {op.key}))
  {
    hide Find, Taken, NetDir, Listing, Enumerates, InBounds;
  }

  lemma ExecLinks(w: World, h: State, op: Op)
    ensures var t := Exec(w, h, op).h; t.links == h.links || LinkChange(h, op, t)
  {
    hide Find, Taken, NetDir, Listing, Enumerates, InBounds;
  }

  /** The four calls that change a link, when they work. */
  ghost predicate LinkChange(h: State, op: Op, t: State) {
    && (op.SetUp? || op.SetDown? || op.SetName? || op.SetNs?)
    && op.link in h.links
    && var l := h.links[op.link];
       var l' := match op
         case SetUp(_) => l.(up := true)
         case SetDown(_) => l.(up := false)
         case SetName(_, name) => l.(name := name)
         case SetNs(_, ns) => l.(ns := ns, up := false)
         case _ => l;
    && t.links == h.links[op.link := l']
    && (op.SetName? || op.SetNs? ==> !Taken(h.links, op.link, l'.ns, l'.name))
  }

  lemma OpKept(w: World, h: State, op: Op, pod: nat, cid: string)
    requires Inv(h) && Allowed(h, op, pod, cid)
    ensures Kept(h, Exec(w, h, op).h, pod, cid)
  {
    ExecFrame(w, h, op);
    var t := Exec(w, h, op).h;
    StoreStep(h, op, t, pod, cid);
    if t.links == h.links {
      SameLinksKept(h, t, pod, cid);
    } else {
      LinkStep(h, op, t, pod, cid);
    }
  }

  lemma StoreStep(h: State, op: Op, t: State, pod: nat, cid: string)
    requires Allowed(h, op, pod, cid)
    requires t.store == h.store || (op.WriteFile? && t.store == h.store[op.key := op.rec])
             || (op.RemoveFile? && t.store == h.store - {op.key})
    ensures StoreEvolves(h.store, t.store, cid)
  {
  }

  lemma SameLinksKept(h: State, t: State, pod: nat, cid: string)
    requires Inv(h) && t.links == h.links
    requires t.vfLinks == h.vfLinks && t.totals == h.totals && t.vfCfg.Keys == h.vfCfg.Keys
    requires StoreEvolves(h.store, t.store, cid)
    ensures Kept(h, t, pod, cid)
  {
  }

  lemma LinkStep(h: State, op: Op, t: State, pod: nat, cid: string)
    requires Inv(h) && Allowed(h, op, pod, cid) && LinkChange(h, op, t)
    requires t.vfLinks == h.vfLinks && t.totals == h.totals && t.vfCfg.Keys == h.vfCfg.Keys
    requires StoreEvolves(h.store, t.store, cid)
    ensures Kept(h, t, pod, cid)
  {
    NotTaken(h.links, op.link);
    hide UniqueNames, DevOk, Wired, LinksEvolve, StoreEvolves, Taken;
    LinkUpdate(h.links, h.vfLinks, op.link, t.links[op.link], pod);
    WiredKeys(h.links, t.links, h.vfLinks, h.vfCfg, t.vfCfg, h.totals);
  }

  lemma NotTaken(links: Links, i: nat)
    requires UniqueNames(links) && i in links
    ensures !Taken(links, i, links[i].ns, links[i].name)
  {
  }

  lemma WiredKeys(links: Links, links': Links, vfLinks: VfMap, vfCfg: map<VfId, VfCfg>, vfCfg': map<VfId, VfCfg>,
                  totals: map<string, int>)
    requires Wired(links, vfLinks, vfCfg, totals) && links'.Keys == links.Keys && vfCfg'.Keys == vfCfg.Keys
    ensures Wired(links', vfLinks, vfCfg', totals)
  {
  }

  /** Changing one link keeps the link part of the invariant when name and place stay disciplined. */
  lemma LinkUpdate(links: Links, vfLinks: VfMap, i: nat, l: Link, pod: nat)
    requires UniqueNames(links) && DevOk(links, Init) && i in links && Mine(links, vfLinks, i, pod)
    requires l.mac == links[i].mac && !Taken(links, i, l.ns, l.name)
    requires l.ns in {Init, Pod(pod)}
    requires DevNamed(i, l.name) || (l.name == links[i].name && (l.ns == links[i].ns || l.ns == Pod(pod)))
    requires l.ns != links[i].ns && l.ns == Pod(pod) ==> links[i].ns == Init
    ensures var links' := links[i := l];
            && UniqueNames(links') && DevOk(links', Init)
            && LinksEvolve(links, links', vfLinks, pod)
            && (DevOk(links, Pod(pod)) ==> DevOk(links', Pod(pod)))
  {
    var links' := links[i := l];
    forall j, k | j in links' && k in links' && links'[j].ns == links'[k].ns && links'[j].name == links'[k].name
      ensures j == k
    {
      if j == i && k != i {
        assert At(links, k, l.ns, l.name);
      } else if k == i && j != i {
        assert At(links, j, l.ns, l.name);
      }
    }
  }

  lemma KeptRefl(h: State, pod: nat, cid: string)
    requires Inv(h)
    ensures Kept(h, h, pod, cid)
  {
  }

  lemma KeptTrans(a: State, b: State, c: State, pod: nat, cid: string)
    requires Kept(a, b, pod, cid) && Kept(b, c, pod, cid)
    ensures Kept(a, c, pod, cid)
  {
    forall i | i in a.links ensures c.links[i].mac == a.links[i].mac {
      assert i in b.links;
    }
    forall i | i in a.links && !Mine(a.links, a.vfLinks, i, pod) ensures c.links[i] == a.links[i] {
      assert b.links[i] == a.links[i];
    }
    forall key | !OwnKey(cid, key)
      ensures (key in c.store <==> key in a.store) && (key in a.store ==> c.store[key] == a.store[key])
    {
      assert key in b.store <==> key in a.store;
    }
  }

  lemma KeptInv(h: State, t: State, pod: nat, cid: string)
    requires Kept(h, t, pod, cid)
    ensures Inv(t) && (DevOk(h.links, Pod(pod)) ==> DevOk(t.links, Pod(pod)))
  {
  }

  /** One more call after a kept stretch. */
  lemma Then1(w: World, a: State, h: State, op: Op, pod: nat, cid: string)
    requires Kept(a, h, pod, cid) && Allowed(h, op, pod, cid)
    ensures Kept(a, Exec(w, h, op).h, pod, cid)
  {
    OpKept(w, h, op, pod, cid);
    KeptTrans(a, h, Exec(w, h, op).h, pod, cid);
  }

  // ----- the routines -----

  lemma RenameKept(w: World, h: State, ns: Ns, cur: string, name: string, pod: nat, cid: string)
    requires Inv(h)
    requires forall i :: At(h.links, i, ns, cur) ==> Mine(h.links, h.vfLinks, i, pod) && DevNamed(i, name)
    ensures Kept(h, Rename(w, h, ns, cur, name).h, pod, cid)
  {
    OpKept(w, h, LinkByName(ns, cur), pod, cid);
    var l := Exec(w, h, LinkByName(ns, cur));
    if l.r.Index? {
      Then1(w, h, l.h, SetName(l.r.index, name), pod, cid);
    }
  }

  lemma {:induction false} ScanKept(w: World, h: State, pf: string, v: nat, total: int, rates: Rates, pod: nat,
      cid: string)
    requires Inv(h)
    ensures Kept(h, Scan(w, h, pf, v, total, rates).h, pod, cid)
    decreases total - v
  {
    hide Kept;
    KeptRefl(h, pod, cid);
    if v < total {
      var id := VfId(pf, v);
      OpKept(w, h, Lstat(id), pod, cid);
      var s := Exec(w, h, Lstat(id));
      if !s.r.Ok? {
        if v < total - 1 {
          ScanKept(w, s.h, pf, v + 1, total, rates, pod, cid);
          KeptTrans(h, s.h, Scan(w, s.h, pf, v + 1, total, rates).h, pod, cid);
        }
      } else {
        Then1(w, h, s.h, ReadDir(id), pod, cid);
        var d := Exec(w, s.h, ReadDir(id));
        if d.r.Names? && d.r.names == [] {
          if v < total - 1 {
            ScanKept(w, d.h, pf, v + 1, total, rates, pod, cid);
            KeptTrans(h, d.h, Scan(w, d.h, pf, v + 1, total, rates).h, pod, cid);
          }
        } else if d.r.Names? && |d.r.names| <= 2 {
          Then1(w, h, d.h, PciAddr(id), pod, cid);
          var p := Exec(w, d.h, PciAddr(id));
          if p.r.Ok? {
            Then1(w, h, p.h, SetRates(id, rates), pod, cid);
          }
        }
      }
    }
  }

  /** What a scan may return on a host: the links untouched, the chosen directory as the host has it. */
  ghost predicate ScanFound(h: State, s: Scanned, pf: string, v: nat, total: int, rates: Rates) {
    && s.h.links == h.links && s.h.store == h.store && s.h.vfLinks == h.vfLinks && s.h.totals == h.totals
    && (!s.ok ==> s.h.vfCfg == h.vfCfg)
    && (s.ok ==> && s.vf.Some? && v <= s.vf.value < total
                 && var id := VfId(pf, s.vf.value);
                    && id in h.vfLinks && s.names == NetDir(h, id) && 1 <= |s.names| <= 2
                    && s.h.vfCfg == if id in h.vfCfg
                                    then h.vfCfg[id := h.vfCfg[id].(minRate := rates.min, maxRate := rates.max)]
                                    else h.vfCfg)
  }

  lemma {:induction false} ScanFinds(w: World, h: State, pf: string, v: nat, total: int, rates: Rates)
    ensures ScanFound(h, Scan(w, h, pf, v, total, rates), pf, v, total, rates)
    decreases total - v
  {
    if v < total {
      var id := VfId(pf, v);
      var s := Exec(w, h, Lstat(id));
      ScanReads(w, h, id);
      hide Exec, NetDir;
      if !s.r.Ok? {
        if v < total - 1 {
          ScanFinds(w, s.h, pf, v + 1, total, rates);
          SameNetDirs(h, s.h);
        }
      } else {
        var d := Exec(w, s.h, ReadDir(id));
        if d.r.Names? && d.r.names == [] {
          if v < total - 1 {
            ScanFinds(w, d.h, pf, v + 1, total, rates);
            SameNetDirs(h, d.h);
          }
        } else if d.r.Names? && |d.r.names| <= 2 {
          ScanPick(w, h, d.h, pf, v, total, rates, d.r.names);
        }
      }
    }
  }

  lemma ScanReads(w: World, h: State, id: VfId)
    ensures var s := Exec(w, h, Lstat(id));
            var d := Exec(w, s.h, ReadDir(id));
            && s.h == h.(clock := h.clock + 1)
            && d.h == h.(clock := h.clock + 2) && (d.r.Names? ==> id in h.vfLinks && d.r.names == NetDir(h, id))
  {
    SameNetDirs(h, Exec(w, h, Lstat(id)).h);
  }

  lemma SameNetDirs(h: State, t: State)
    requires t == h.(clock := t.clock)
    ensures forall id :: NetDir(t, id) == NetDir(h, id)
  {
  }

  lemma ScanPick(w: World, h: State, d: State, pf: string, v: nat, total: int, rates: Rates, names: seq<string>)
    requires d == h.(clock := d.clock) && v < total && VfId(pf, v) in h.vfLinks
    requires names == NetDir(h, VfId(pf, v)) && 1 <= |names| <= 2
    ensures var p := Exec(w, d, PciAddr(VfId(pf, v)));
            var r := Exec(w, p.h, SetRates(VfId(pf, v), rates));
            && ScanFound(h, Scanned(p.h, None, [], false), pf, v, total, rates)
            && ScanFound(h, Scanned(r.h, Some(v), names, r.r.Ok?), pf, v, total, rates)
  {
  }

  lemma HandRestKept(w: World, h: State, a: Args, pod: nat, i: nat, vfName: string, podIf: string, vf: nat)
    requires Inv(h) && i in h.links && h.links[i].ns == Init && IsVfLink(h.vfLinks, i)
    requires IsEthName(podIf)
    ensures Kept(h, HandRest(w, h, a, pod, i, vfName, podIf, vf).h, pod, a.cid)
  {
    hide Kept;
    OpKept(w, h, SetUp(i), pod, a.cid);
    var up := Exec(w, h, SetUp(i));
    if up.r.Ok? {
      Then1(w, h, up.h, SetNs(i, Pod(pod)), pod, a.cid);
      var mv := Exec(w, up.h, SetNs(i, Pod(pod)));
      if mv.r.Ok? {
        Then1(w, h, mv.h, Probe, pod, a.cid);
        var en := Exec(w, mv.h, Probe);
        if en.r.Ok? {
          EthNamesAreNotDev(podIf);
          RenameKept(w, en.h, Pod(pod), vfName, podIf, pod, a.cid);
          var fin := Rename(w, en.h, Pod(pod), vfName, podIf);
          KeptTrans(h, en.h, fin.h, pod, a.cid);
          if fin.r.Ok? {
            Then1(w, h, fin.h, WriteFile(Key(a.cid, podIf), Record(podIf, vf, a.vlan)), pod, a.cid);
          }
        }
      }
    }
  }

  lemma EthNamesAreNotDev(name: string)
    requires IsEthName(name)
    ensures forall k: nat :: name != Dev(k)
  {
    forall k: nat ensures name != Dev(k) {
      NameKindsDisjoint(k, name);
    }
  }

  lemma SriovNamesAreNotDev(i: nat)
    ensures forall k: nat :: Sriov(i) != Dev(k)
  {
    forall k: nat ensures Sriov(i) != Dev(k) {
      NameKindsDisjoint(k, "");
      NameKindsDisjoint(i, "");
    }
  }

  /** The detour of a link called eth0: down, a random number, a rename that may fail. */
  ghost function Spare(w: World, h: State, i: nat): Ran {
    var n := Exec(w, Exec(w, h, SetDown(i)).h, Random);
    Ran(Rename(w, n.h, Init, "eth0", Sriov(n.r.index)).h, n.r)
  }

  lemma SpareKept(w: World, h: State, i: nat, pod: nat, cid: string)
    requires Inv(h) && At(h.links, i, Init, "eth0") && IsVfLink(h.vfLinks, i)
    ensures Kept(h, Spare(w, h, i).h, pod, cid)
  {
    hide Kept;
    OpKept(w, h, SetDown(i), pod, cid);
    var d := Exec(w, h, SetDown(i));
    Then1(w, h, d.h, Random, pod, cid);
    var n := Exec(w, d.h, Random);
    SriovNamesAreNotDev(n.r.index);
    assert forall j :: At(n.h.links, j, Init, "eth0") ==> At(h.links, j, Init, "eth0");
    RenameKept(w, n.h, Init, "eth0", Sriov(n.r.index), pod, cid);
    KeptTrans(h, n.h, Spare(w, h, i).h, pod, cid);
  }

  lemma SpareStaysInInit(w: World, h: State, i: nat)
    requires i in h.links && h.links[i].ns == Init
    ensures var l := Spare(w, h, i).h.links; i in l && l[i].ns == Init
  {
    var d := Exec(w, h, SetDown(i)).h;
    assert Exec(w, d, Random).r.Index?;
    hide Exec, Taken;
    ExecFrame(w, h, SetDown(i));
    ExecFrame(w, d, Random);
    var n := Exec(w, d, Random);
    var l := Exec(w, n.h, LinkByName(Init, "eth0"));
    ExecFrame(w, n.h, LinkByName(Init, "eth0"));
    if l.r.Index? {
      ExecFrame(w, l.h, SetName(l.r.index, Sriov(n.r.index)));
    }
  }

  lemma HandKept(w: World, h: State, a: Args, pod: nat, name: string, podIf: string, vf: nat)
    requires Inv(h) && IsEthName(podIf)
    requires forall i :: At(h.links, i, Init, name) ==> IsVfLink(h.vfLinks, i)
    ensures Kept(h, Hand(w, h, a, pod, name, podIf, vf).h, pod, a.cid)
  {
    OpKept(w, h, LinkByName(Init, name), pod, a.cid);
    var l := Exec(w, h, LinkByName(Init, name));
    if l.r.Index? {
      var i := l.r.index;
      if name != "eth0" {
        HandRestKept(w, l.h, a, pod, i, name, podIf, vf);
        KeptTrans(h, l.h, Hand(w, h, a, pod, name, podIf, vf).h, pod, a.cid);
      } else {
        SpareKept(w, l.h, i, pod, a.cid);
        SpareStaysInInit(w, l.h, i);
        var sp := Spare(w, l.h, i);
        AfterSpareKept(w, l.h, sp.h, a, pod, i, Sriov(sp.r.index), podIf, vf);
        KeptTrans(h, l.h, Hand(w, h, a, pod, name, podIf, vf).h, pod, a.cid);
      }
    }
  }

  lemma AfterSpareKept(w: World, h: State, t: State, a: Args, pod: nat, i: nat, vfName: string, podIf: string, vf: nat)
    requires IsVfLink(h.vfLinks, i) && i in t.links && t.links[i].ns == Init && IsEthName(podIf)
    ensures Kept(h, t, pod, a.cid) ==> Kept(h, HandRest(w, t, a, pod, i, vfName, podIf, vf).h, pod, a.cid)
  {
    hide HandRest;
    if Kept(h, t, pod, a.cid) {
      HandRestKept(w, t, a, pod, i, vfName, podIf, vf);
      KeptTrans(h, t, HandRest(w, t, a, pod, i, vfName, podIf, vf).h, pod, a.cid);
    }
  }

  lemma SetupKept(w: World, h: State, a: Args, pod: nat, pf: string, podIf: string, rates: Rates)
    requires Inv(h) && IsEthName(podIf)
    ensures Kept(h, Setup(w, h, a, pod, pf, podIf, rates).h, pod, a.cid)
  {
    hide Kept;
    OpKept(w, h, LinkByName(Init, pf), pod, a.cid);
    var m := Exec(w, h, LinkByName(Init, pf));
    if m.r.Index? {
      Then1(w, h, m.h, NumVfs(pf), pod, a.cid);
      var t := Exec(w, m.h, NumVfs(pf));
      if t.r.Num? {
        ScanKept(w, t.h, pf, 0, t.r.num, rates, pod, a.cid);
        ScanFinds(w, t.h, pf, 0, t.r.num, rates);
        var s := Scan(w, t.h, pf, 0, t.r.num, rates);
        KeptTrans(h, t.h, s.h, pod, a.cid);
        if s.ok && |s.names| == 1 {
          SingleNetDir(t.h, VfId(pf, s.vf.value));
          AfterScanKept(w, s, a, pod, pf, podIf);
          KeptTrans(h, s.h, AfterScan(w, s, a, pod, pf, podIf).h, pod, a.cid);
        }
      }
    }
  }

  lemma AfterScanKept(w: World, s: Scanned, a: Args, pod: nat, pf: string, podIf: string)
    requires Inv(s.h) && IsEthName(podIf)
    requires s.ok && s.vf.Some? && |s.names| == 1
    requires var id := VfId(pf, s.vf.value);
             id in s.h.vfLinks && At(s.h.links, s.h.vfLinks[id][0], Init, s.names[0])
    ensures Kept(s.h, AfterScan(w, s, a, pod, pf, podIf).h, pod, a.cid)
  {
    hide Kept, Inv, Hand;
    var id := VfId(pf, s.vf.value);
    KeptRefl(s.h, pod, a.cid);
    OnlyVfLinks(s.h, id, s.names[0]);
    var c := if a.vlan != 0 then Exec(w, s.h, SetVlan(id, a.vlan)) else Ran(s.h, Ok);
    VlanLeavesLinks(w, s.h, id, a.vlan);
    hide Exec;
    if a.vlan != 0 {
      OpKept(w, s.h, SetVlan(id, a.vlan), pod, a.cid);
    }
    if c.r.Ok? {
      KeptInv(s.h, c.h, pod, a.cid);
      HandKept(w, c.h, a, pod, s.names[0], podIf, s.vf.value);
      KeptTrans(s.h, c.h, AfterScan(w, s, a, pod, pf, podIf).h, pod, a.cid);
    }
  }

  lemma OnlyVfLinks(h: State, id: VfId, name: string)
    requires Inv(h) && id in h.vfLinks && At(h.links, h.vfLinks[id][0], Init, name)
    ensures forall i :: At(h.links, i, Init, name) ==> IsVfLink(h.vfLinks, i)
  {
    hide DevOk;
    assert h.vfLinks[id][0] in h.vfLinks[id];
  }

  lemma VlanLeavesLinks(w: World, h: State, id: VfId, vlan: int)
    ensures Exec(w, h, SetVlan(id, vlan)).h.links == h.links && Exec(w, h, SetVlan(id, vlan)).h.vfLinks == h.vfLinks
  {
  }

  lemma ConsumeKept(w: World, h: State, cid: string, name: string, pod: nat)
    requires Inv(h) && IsEthName(name)
    ensures Kept(h, Consume(w, h, Key(cid, name)).h, pod, cid)
  {
    OpKept(w, h, ReadFile(Key(cid, name)), pod, cid);
    Then1(w, h, Exec(w, h, ReadFile(Key(cid, name))).h, RemoveFile(Key(cid, name)), pod, cid);
  }

  /** A link on its way back has the name its index reserves, so its way into the initial namespace is free. */
  lemma BringBackKept(w: World, h: State, pod: nat, ifName: string, cid: string)
    requires Inv(h)
    ensures Kept(h, BringBack(w, h, pod, ifName).h, pod, cid)
  {
    hide Kept;
    OpKept(w, h, LinkByName(Pod(pod), ifName), pod, cid);
    var l := Exec(w, h, LinkByName(Pod(pod), ifName));
    if l.r.Index? {
      var i := l.r.index;
      Then1(w, h, l.h, SetDown(i), pod, cid);
      var d := Exec(w, l.h, SetDown(i));
      if d.r.Ok? {
        DevNamedSelf(i);
        RenameKept(w, d.h, Pod(pod), ifName, Dev(i), pod, cid);
        var n := Rename(w, d.h, Pod(pod), ifName, Dev(i));
        KeptTrans(h, d.h, n.h, pod, cid);
        if n.r.Ok? {
          assert At(d.h.links, i, Pod(pod), ifName);
          Then1(w, h, n.h, SetNs(i, Init), pod, cid);
        }
      }
    }
  }

  lemma DevNamedSelf(i: nat)
    ensures DevNamed(i, Dev(i))
  {
    forall k: nat | Dev(i) == Dev(k) ensures k == i {
      DevInjective(i, k);
    }
  }

  lemma EnterAndReturnKept(w: World, h: State, pod: nat, ifName: string, cid: string)
    requires Inv(h)
    ensures Kept(h, EnterAndReturn(w, h, pod, ifName).h, pod, cid)
  {
    OpKept(w, h, Probe, pod, cid);
    var g := Exec(w, h, Probe);
    if g.r.Ok? {
      Then1(w, h, g.h, Probe, pod, cid);
      var e := Exec(w, g.h, Probe);
      if e.r.Ok? {
        BringBackKept(w, e.h, pod, ifName, cid);
        KeptTrans(h, e.h, BringBack(w, e.h, pod, ifName).h, pod, cid);
      }
    }
  }

  lemma {:induction false} LocateKept(w: World, h: State, pf: string, v: nat, total: int, name: string, pod: nat,
      cid: string)
    requires Inv(h)
    ensures Kept(h, Locate(w, h, pf, v, total, name).h, pod, cid)
    decreases total - v
  {
    KeptRefl(h, pod, cid);
    if v < total {
      OpKept(w, h, StatLink(VfId(pf, v), name), pod, cid);
      var s := Exec(w, h, StatLink(VfId(pf, v), name));
      if s.r.Absent? {
        LocateKept(w, s.h, pf, v + 1, total, name, pod, cid);
        KeptTrans(h, s.h, Locate(w, s.h, pf, v + 1, total, name).h, pod, cid);
      }
    }
  }

  lemma MaybeResetVlanKept(w: World, h: State, vlan: int, pf: string, name: string, pod: nat, cid: string)
    requires Inv(h)
    ensures Kept(h, MaybeResetVlan(w, h, vlan, pf, name).h, pod, cid)
  {
    hide Kept;
    KeptRefl(h, pod, cid);
    if vlan != 0 {
      OpKept(w, h, Probe, pod, cid);
      var e := Exec(w, h, Probe);
      if e.r.Ok? {
        Then1(w, h, e.h, NumVfs(pf), pod, cid);
        var t := Exec(w, e.h, NumVfs(pf));
        if t.r.Num? {
          LocateKept(w, t.h, pf, 0, t.r.num, name, pod, cid);
          var v := Locate(w, t.h, pf, 0, t.r.num, name);
          KeptTrans(h, t.h, v.h, pod, cid);
          if v.r.Num? && v.r.num >= 0 {
            Then1(w, h, v.h, LinkByName(Init, pf), pod, cid);
            var l := Exec(w, v.h, LinkByName(Init, pf));
            if l.r.Index? {
              Then1(w, h, l.h, SetVlan(VfId(pf, v.r.num), 0), pod, cid);
            }
          }
        }
      }
    }
  }

  lemma ResetRatesKept(w: World, h: State, id: VfId, pod: nat, cid: string)
    requires Inv(h)
    ensures Kept(h, ResetRates(w, h, id).h, pod, cid)
  {
    OpKept(w, h, Probe, pod, cid);
    var e := Exec(w, h, Probe);
    if e.r.Ok? {
      Then1(w, h, e.h, SetRates(id, Rates(0, 0)), pod, cid);
    }
  }

  lemma ReleaseKept(w: World, h: State, a: Args, pod: nat, podIf: string, pf: string, vf: Option<nat>)
    requires Inv(h) && IsEthName(podIf)
    ensures Kept(h, Release(w, h, a, pod, podIf, pf, vf).h, pod, a.cid)
  {
    hide Kept;
    ConsumeKept(w, h, a.cid, podIf, pod);
    var c := Consume(w, h, Key(a.cid, podIf));
    if c.r.Data? {
      EnterAndReturnKept(w, c.h, pod, podIf, a.cid);
      var b := EnterAndReturn(w, c.h, pod, podIf);
      KeptTrans(h, c.h, b.h, pod, a.cid);
      if b.r.Index? {
        MaybeResetVlanKept(w, b.h, a.vlan, pf, Dev(b.r.index), pod, a.cid);
        var v := MaybeResetVlan(w, b.h, a.vlan, pf, Dev(b.r.index));
        KeptTrans(h, b.h, v.h, pod, a.cid);
        if v.r.Ok? && vf.Some? {
          ResetRatesKept(w, v.h, VfId(pf, vf.value), pod, a.cid);
          KeptTrans(h, v.h, ResetRates(w, v.h, VfId(pf, vf.value)).h, pod, a.cid);
        }
      }
    }
  }

  lemma FreeVfKept(w: World, h: State, vlan: int, found: Option<VfId>, dev: string, pod: nat, cid: string)
    requires Inv(h)
    ensures Kept(h, FreeVf(w, h, vlan, found, dev).h, pod, cid)
  {
    var pf := if found.Some? then found.value.pf else "";
    MaybeResetVlanKept(w, h, vlan, pf, dev, pod, cid);
    var v := MaybeResetVlan(w, h, vlan, pf, dev);
    if v.r.Ok? {
      if found.None? {
        Then1(w, h, v.h, Probe, pod, cid);
      } else {
        ResetRatesKept(w, v.h, found.value, pod, cid);
        KeptTrans(h, v.h, ResetRates(w, v.h, found.value).h, pod, cid);
      }
    }
  }

  lemma ReleaseCustomKept(w: World, h: State, a: Args, pod: nat, ifc: Iface, pfs: seq<PfInfo>)
    requires Inv(h) && IsEthName(ifc.name)
    ensures Kept(h, ReleaseCustom(w, h, a, pod, ifc, pfs).h, pod, a.cid)
  {
    hide Kept;
    OpKept(w, h, Probe, pod, a.cid);
    var o := Exec(w, h, Probe);
    if o.r.Ok? {
      ConsumeKept(w, o.h, a.cid, ifc.name, pod);
      var c := Consume(w, o.h, Key(a.cid, ifc.name));
      KeptTrans(h, o.h, c.h, pod, a.cid);
      if c.r.Data? {
        EnterAndReturnKept(w, c.h, pod, ifc.name, a.cid);
        var b := EnterAndReturn(w, c.h, pod, ifc.name);
        KeptTrans(h, c.h, b.h, pod, a.cid);
        if b.r.Index? {
          FreeVfKept(w, b.h, a.vlan, FindMac(pfs, ifc.mac), Dev(b.r.index), pod, a.cid);
          KeptTrans(h, b.h, FreeVf(w, b.h, a.vlan, FindMac(pfs, ifc.mac), Dev(b.r.index)).h, pod, a.cid);
        }
      }
    }
  }

  lemma {:induction false} DelLoopKept(w: World, h: State, a: Args, pod: nat, ifaces: seq<Iface>, pfs: seq<PfInfo>)
    requires Inv(h)
    ensures Kept(h, DelLoop(w, h, a, pod, ifaces, pfs).h, pod, a.cid)
    decreases |ifaces|
  {
    KeptRefl(h, pod, a.cid);
    if ifaces != [] {
      if !IsEthName(ifaces[0].name) {
        DelLoopKept(w, h, a, pod, ifaces[1..], pfs);
      } else {
        ReleaseCustomKept(w, h, a, pod, ifaces[0], pfs);
        var r := ReleaseCustom(w, h, a, pod, ifaces[0], pfs);
        if !r.exit.Crashed? {
          DelLoopKept(w, r.h, a, pod, ifaces[1..], pfs);
          KeptTrans(h, r.h, DelLoop(w, r.h, a, pod, ifaces[1..], pfs).h, pod, a.cid);
        }
      }
    }
  }

  /** The pod a command works in; a command without one touches no link and no file. */
  function PodOf(a: Args): nat {
    if a.ns.Some? then a.ns.value else 0
  }

  /** DEL, however its calls go, keeps the invariant and leaves other pods and other containers alone. */
  lemma DelKeepsInvariant(w: World, h: State, a: Args)
    requires Inv(h)
    ensures Kept(h, Del(w, h, a).h, PodOf(a), a.cid)
  {
    hide Kept, DelLoop, Inv, Exec;
    var pod := PodOf(a);
    KeptRefl(h, pod, a.cid);
    var d := if a.ipam then Exec(w, h, IpamDel) else Ran(h, Ok);
    if a.ipam {
      OpKept(w, h, IpamDel, pod, a.cid);
    }
    if d.r.Ok? && a.ns.Some? {
      Then1(w, h, d.h, ListNs(Pod(pod)), pod, a.cid);
      var l := Exec(w, d.h, ListNs(Pod(pod)));
      if l.r.Ifaces? {
        Then1(w, h, l.h, Query, pod, a.cid);
        var q := Exec(w, l.h, Query);
        var pfs := if q.r.Table? then q.r.table else [];
        KeptInv(h, q.h, pod, a.cid);
        DelLoopKept(w, q.h, a, pod, l.r.ifaces, pfs);
        KeptTrans(h, q.h, DelLoop(w, q.h, a, pod, l.r.ifaces, pfs).h, pod, a.cid);
      }
    }
  }

  lemma LooksOnly(w: World, h: State, op: Op)
    requires op.Probe? || op.LinkByName?
    ensures SameButClock(Exec(w, h, op).h, h)
  {
  }

  lemma LookupKept(w: World, h: State, pod: nat, name: string, cid: string)
    requires Inv(h)
    ensures Kept(h, Lookup(w, h, pod, name).h, pod, cid)
    ensures Lookup(w, h, pod, name).h.(clock := h.clock) == h
  {
    LooksOnly(w, h, Probe);
    LooksOnly(w, Exec(w, h, Probe).h, LinkByName(Pod(pod), name));
    hide Exec, Kept;
    OpKept(w, h, Probe, pod, cid);
    var e := Exec(w, h, Probe);
    if e.r.Ok? {
      Then1(w, h, e.h, LinkByName(Pod(pod), name), pod, cid);
    }
  }

  lemma ConfigureKept(w: World, h: State, pod: nat, name: string, cid: string)
    requires Inv(h)
    ensures Kept(h, Configure(w, h, pod, name).h, pod, cid)
  {
    LookupKept(w, h, pod, name, cid);
    var l := Lookup(w, h, pod, name);
    if l.r.Index? {
      Then1(w, h, l.h, SetUp(l.r.index), pod, cid);
      var u := Exec(w, l.h, SetUp(l.r.index));
      if u.r.Ok? {
        Then1(w, h, u.h, Probe, pod, cid);
      }
    }
  }

  /** A frame of an interface number that a slice can have. */
  predicate Counted(f: Frame) {
    f.RollbackFrame? ==> f.i <= MAX_INT
  }

  lemma PopKept(w: World, h: State, a: Args, pod: nat, f: Frame, err: bool)
    requires Inv(h) && Counted(f)
    ensures Kept(h, Pop(w, h, a, pod, f, err).h, pod, a.cid)
  {
    KeptRefl(h, pod, a.cid);
    if err {
      match f
      case UnlockFrame =>
      case IpamFrame(i) => OpKept(w, h, IpamDel, pod, a.cid);
      case RollbackFrame(i, pf, vf) =>
        LookupKept(w, h, pod, Eth(i), a.cid);
        var l := Lookup(w, h, pod, Eth(i));
        if l.r.Index? {
          EthIsEthName(i);
          ReleaseKept(w, l.h, a, pod, Eth(i), pf, vf);
          KeptTrans(h, l.h, Release(w, l.h, a, pod, Eth(i), pf, vf).h, pod, a.cid);
        }
    }
  }

  lemma {:induction false} UnwindKept(w: World, h: State, a: Args, pod: nat, stack: seq<Frame>, err: bool)
    requires Inv(h) && forall j | 0 <= j < |stack| :: Counted(stack[j])
    ensures Kept(h, Unwind(w, h, a, pod, stack, err).h, pod, a.cid)
    decreases |stack|
  {
    KeptRefl(h, pod, a.cid);
    if stack != [] {
      var top, rest := stack[|stack| - 1], stack[..|stack| - 1];
      PopKept(w, h, a, pod, top, err);
      var p := Pop(w, h, a, pod, top, err);
      UnwindKept(w, p.h, a, pod, rest, p.err);
      KeptTrans(h, p.h, Unwind(w, p.h, a, pod, rest, p.err).h, pod, a.cid);
    }
  }

  lemma PlaceOneKept(w: World, h: State, a: Args, pod: nat, i: nat, pf: string, rates: Rates)
    requires Inv(h) && i <= MAX_INT
    ensures Kept(h, PlaceOne(w, h, a, pod, i, pf, rates).h, pod, a.cid)
    ensures forall j | 0 <= j < |PlaceOne(w, h, a, pod, i, pf, rates).frames| ::
              Counted(PlaceOne(w, h, a, pod, i, pf, rates).frames[j])
  {
    hide Kept, Setup, Configure, Exec;
    EthIsEthName(i);
    SetupKept(w, h, a, pod, pf, Eth(i), rates);
    var s := Setup(w, h, a, pod, pf, Eth(i), rates);
    if s.ok {
      Then1(w, h, s.h, IpamAdd, pod, a.cid);
      var r := Exec(w, s.h, IpamAdd);
      if r.r.Answer? && r.r.ip4.Some? {
        ConfigureKept(w, r.h, pod, Eth(i), a.cid);
        KeptTrans(h, r.h, Configure(w, r.h, pod, Eth(i)).h, pod, a.cid);
      }
    }
  }

  lemma {:induction false} PlaceFromKept(w: World, h: State, a: Args, pod: nat, pfs: seq<PfInfo>, reqs: seq<Rates>,
                                         placed: seq<nat>, i: nat)
    requires Inv(h) && InBounds(placed, |reqs|, |pfs|) && i <= |placed|
    ensures Kept(h, PlaceFrom(w, h, a, pod, pfs, reqs, placed, i).h, pod, a.cid)
    ensures forall j | 0 <= j < |PlaceFrom(w, h, a, pod, pfs, reqs, placed, i).frames| ::
              Counted(PlaceFrom(w, h, a, pod, pfs, reqs, placed, i).frames[j])
    decreases |placed| - i
  {
    hide Kept, PlaceOne, Exec, Inv;
    KeptRefl(h, pod, a.cid);
    if i < |placed| {
      PlaceOneKept(w, h, a, pod, i, pfs[placed[i]].name, reqs[i]);
      var one := PlaceOne(w, h, a, pod, i, pfs[placed[i]].name, reqs[i]);
      if one.stop.Completed? {
        KeptInv(h, one.h, pod, a.cid);
        PlaceFromKept(w, one.h, a, pod, pfs, reqs, placed, i + 1);
        KeptTrans(h, one.h, PlaceFrom(w, one.h, a, pod, pfs, reqs, placed, i + 1).h, pod, a.cid);
      }
    }
  }

  lemma AddBodyKept(w: World, h: State, a: Args, pod: nat, pfs: seq<PfInfo>, reqs: seq<Rates>, placed: seq<nat>)
    requires Inv(h) && InBounds(placed, |reqs|, |pfs|)
    ensures Kept(h, AddBody(w, h, a, pod, pfs, reqs, placed).h, pod, a.cid)
  {
    hide Kept, Exec, PlaceFrom, Unwind, Inv;
    PlaceFromKept(w, h, a, pod, pfs, reqs, placed, 0);
    var p := PlaceFrom(w, h, a, pod, pfs, reqs, placed, 0);
    var pr := if p.stop.Completed? then Exec(w, p.h, Probe) else Ran(p.h, Fail);
    if p.stop.Completed? {
      Then1(w, h, p.h, Probe, pod, a.cid);
    }
    KeptInv(h, pr.h, pod, a.cid);
    UnwindKept(w, pr.h, a, pod, [UnlockFrame] + p.frames, ErrSet(p.stop));
    KeptTrans(h, pr.h, Unwind(w, pr.h, a, pod, [UnlockFrame] + p.frames, ErrSet(p.stop)).h, pod, a.cid);
  }

  /** ADD, rollback included and however its calls go, keeps the invariant and leaves others alone. */
  lemma AddKeepsInvariant(w: World, h: State, a: Args, conf: bool)
    requires Inv(h)
    ensures Kept(h, Add(w, h, a, conf).h, PodOf(a), a.cid)
  {
    hide Kept;
    var pod := PodOf(a);
    OpKept(w, h, PodInfo, pod, a.cid);
    var p := Exec(w, h, PodInfo);
    if p.r.Requests? {
      Then1(w, h, p.h, Query, pod, a.cid);
      var q := Exec(w, p.h, Query);
      if q.r.Table? {
        Then1(w, h, q.h, Place(|p.r.requests|, |q.r.table|), pod, a.cid);
        var k := Exec(w, q.h, Place(|p.r.requests|, |q.r.table|));
        if k.r.Placed? {
          AddPlacedKept(w, k.h, a, conf, q.r.table, p.r.requests, k.r.placed);
          KeptTrans(h, k.h, AddPlaced(w, k.h, a, conf, q.r.table, p.r.requests, k.r.placed).h, pod, a.cid);
        }
      }
    }
  }

  lemma AddPlacedKept(w: World, h: State, a: Args, conf: bool, pfs: seq<PfInfo>, reqs: seq<Rates>, placed: seq<nat>)
    requires Inv(h) && InBounds(placed, |reqs|, |pfs|)
    ensures Kept(h, AddPlaced(w, h, a, conf, pfs, reqs, placed).h, PodOf(a), a.cid)
  {
    var pod := PodOf(a);
    KeptRefl(h, pod, a.cid);
    if conf {
      OpKept(w, h, Probe, pod, a.cid);
      var o := Exec(w, h, Probe);
      if o.r.Ok? && a.ns.Some? {
        AddBodyKept(w, o.h, a, pod, pfs, reqs, placed);
        KeptTrans(h, o.h, AddBody(w, o.h, a, pod, pfs, reqs, placed).h, pod, a.cid);
      }
    }
  }
}
