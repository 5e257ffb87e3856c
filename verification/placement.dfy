/** What a setup that succeeds has done, exactly, in whatever world it ran. */
module Placement {
  import opened Text
  import opened Host
  import opened Lifecycle
  import opened HostInvariant
  import opened Reclaim

  // ----- the choice of a VF -----

  /** The VF shows at least one link in the initial namespace: its net directory is there and not empty. */
  predicate Visible(h: State, pf: string, v: nat) {
    VfId(pf, v) in h.vfLinks && NetDir(h, VfId(pf, v)) != []
  }

  /** The least visible VF from number u on. */
  ghost predicate First(h: State, pf: string, u: nat, total: int, v: nat) {
    u <= v < total && Visible(h, pf, v) && forall k: nat | u <= k < v :: !Visible(h, pf, k)
  }

  lemma {:induction false} ScanFirst(w: World, h: State, pf: string, u: nat, total: int, rates: Rates)
    requires AllOk(w, h.clock)
    ensures var s := Scan(w, h, pf, u, total, rates);
            && (s.ok ==> s.vf.Some? && First(h, pf, u, total, s.vf.value) && |s.names| <= 2
                         && s.names == NetDir(h, VfId(pf, s.vf.value)))
            && (!s.ok ==> forall v | First(h, pf, u, total, v) :: |NetDir(h, VfId(pf, v))| > 2)
    decreases total - u
  {
    if u < total {
      var id := VfId(pf, u);
      var s := Exec(w, h, Lstat(id));
      var d := Exec(w, s.h, ReadDir(id));
      ScanCalls(w, h, id, rates);
      if !Visible(h, pf, u) {
        var t := if s.r.Ok? then d.h else s.h;
        forall v: nat ensures First(h, pf, u, total, v) <==> First(t, pf, u + 1, total, v) {
          FirstTail(h, t, pf, u, total, v);
        }
        if u < total - 1 {
          ScanFirst(w, t, pf, u + 1, total, rates);
          SameNetDirs(h, t);
        }
      }
    }
  }

  lemma FirstTail(h: State, t: State, pf: string, u: nat, total: int, v: nat)
    requires SameButClock(t, h) && !Visible(h, pf, u)
    ensures First(h, pf, u, total, v) <==> First(t, pf, u + 1, total, v)
  {
    forall k: nat ensures Visible(t, pf, k) <==> Visible(h, pf, k) {
      assert NetDir(t, VfId(pf, k)) == NetDir(h, VfId(pf, k));
    }
    if First(t, pf, u + 1, total, v) {
      forall k: nat | u <= k < v ensures !Visible(h, pf, k) {
        assert k == u || !Visible(t, pf, k);
      }
    }
  }

  lemma ScanCalls(w: World, h: State, id: VfId, rates: Rates)
    requires AllOk(w, h.clock)
    ensures var s := Exec(w, h, Lstat(id));
            var d := Exec(w, s.h, ReadDir(id));
            && s == Ran(h.(clock := h.clock + 1), if id in h.vfLinks then Ok else Fail)
            && (id in h.vfLinks ==>
                  && d == Ran(h.(clock := h.clock + 2), Names(NetDir(h, id)))
                  && Exec(w, d.h, PciAddr(id)).r == Ok
                  && Exec(w, Exec(w, d.h, PciAddr(id)).h, SetRates(id, rates)).r == Ok)
  {
    var s := Exec(w, h, Lstat(id));
    SameNetDirs(h, s.h);
  }

  /** Some call made in this stretch of time failed. */
  ghost predicate SomeFailed(w: World, from: nat, to: nat) {
    exists c: nat :: from <= c < to && !w(c).ok
  }

  /** In a world where calls fail too: only a call that failed makes the scan pass over a visible VF. */
  lemma {:induction false} ScanSkips(w: World, h: State, pf: string, u: nat, total: int, rates: Rates, k: nat)
    ensures var s := Scan(w, h, pf, u, total, rates);
            && s.h.clock >= h.clock && (s.ok ==> s.vf.Some?)
            && (s.ok && u <= k < s.vf.value && Visible(h, pf, k) ==> SomeFailed(w, h.clock, s.h.clock))
    decreases total - u
  {
    if u < total {
      var s := Exec(w, h, Lstat(VfId(pf, u)));
      var d := Exec(w, s.h, ReadDir(VfId(pf, u)));
      ScanLooks(w, h, VfId(pf, u), rates);
      hide Exec, NetDir, SomeFailed;
      SameNetDirs(h, s.h);
      SameNetDirs(h, d.h);
      if !s.r.Ok? {
        ScanSkips(w, s.h, pf, u + 1, total, rates, k);
        FailedBefore(w, h.clock, s.h.clock, Scan(w, s.h, pf, u + 1, total, rates).h.clock);
      } else if d.r.Names? && d.r.names == [] {
        ScanSkips(w, d.h, pf, u + 1, total, rates, k);
        FailedBefore(w, h.clock, d.h.clock, Scan(w, d.h, pf, u + 1, total, rates).h.clock);
      }
    }
  }

  lemma FailedBefore(w: World, a: nat, b: nat, c: nat)
    requires a < b <= c
    ensures SomeFailed(w, b, c) || !w(a).ok ==> SomeFailed(w, a, c)
  {
  }

  lemma ScanLooks(w: World, h: State, id: VfId, rates: Rates)
    ensures var s := Exec(w, h, Lstat(id));
            var d := Exec(w, s.h, ReadDir(id));
            var p := Exec(w, d.h, PciAddr(id));
            && s.h == h.(clock := h.clock + 1) && (!s.r.Ok? && id in h.vfLinks ==> !w(h.clock).ok)
            && d.h == h.(clock := h.clock + 2) && (d.r.Names? ==> d.r.names == NetDir(h, id))
            && Exec(w, p.h, SetRates(id, rates)).h.clock > p.h.clock > h.clock
  {
    SameNetDirs(h, Exec(w, h, Lstat(id)).h);
  }

  // ----- the hand-over -----

  /** No link of the pod has a name that can be drawn as a temporary one. */
  ghost predicate NoSriov(links: Links, pod: nat) {
    forall i, n: nat | i in links && links[i].ns == Pod(pod) && n < 9999 :: links[i].name != Sriov(n)
  }

  /** If a VF's free link is called eth0 and so needs a temporary name, no link of the pod has such a name. */
  ghost predicate TempSafe(h: State, pod: nat) {
    (exists i :: IsVfLink(h.vfLinks, i) && At(h.links, i, Init, "eth0")) ==> NoSriov(h.links, pod)
  }

  /** A link in the pod, as the setup leaves it (down) or as the configuration does (up). */
  function InPod(l: Link, pod: nat, podIf: string, up: bool): Link {
    Link(Pod(pod), podIf, up, l.mac)
  }

  function Noted(h: State, x: nat, pod: nat, cid: string, rec: Record): State
    requires x in h.links
  {
    h.(links := h.links[x := InPod(h.links[x], pod, rec.ifname, false)], store := h.store[Key(cid, rec.ifname) := rec])
  }

  lemma HandRestDone(w: World, h: State, a: Args, pod: nat, x: nat, vfName: string, podIf: string, vf: nat)
    requires UniqueNames(h.links) && x in h.links && h.links[x].ns == Init
    requires h.links[x].name == vfName || forall j :: !At(h.links, j, Pod(pod), vfName)
    requires HandRest(w, h, a, pod, x, vfName, podIf, vf).r.Ok?
    ensures SameButClock(HandRest(w, h, a, pod, x, vfName, podIf, vf).h,
                         Noted(h, x, pod, a.cid, Record(podIf, vf, a.vlan)))
  {
    hide Key, Exec, Rename;
    Moved(w, h, x, pod);
    var mv := Exec(w, Exec(w, h, SetUp(x)).h, SetNs(x, Pod(pod)));
    var en := Exec(w, mv.h, Probe);
    ProbeOnlyTicks(w, mv.h);
    var l := h.links[x].(ns := Pod(pod), up := false);
    assert forall j | j != x :: At(en.h.links, j, Pod(pod), vfName) == At(h.links, j, Pod(pod), vfName);
    RenamedInPod(w, en.h, pod, x, vfName, podIf);
    var fin := Rename(w, en.h, Pod(pod), vfName, podIf);
    Written(w, fin.h, Key(a.cid, podIf), Record(podIf, vf, a.vlan));
    assert h.links[x := l][x := l.(name := podIf)] == h.links[x := l.(name := podIf)];
  }

  lemma ProbeOnlyTicks(w: World, h: State)
    ensures SameButClock(Exec(w, h, Probe).h, h) && Exec(w, h, Probe).h.clock == h.clock + 1
  {
  }

  lemma Written(w: World, h: State, key: string, rec: Record)
    ensures var r := Exec(w, h, WriteFile(key, rec));
            SameButClock(r.h, if r.r.Ok? then h.(store := h.store[key := rec]) else h)
  {
  }

  lemma Moved(w: World, h: State, x: nat, pod: nat)
    requires UniqueNames(h.links) && x in h.links && h.links[x].ns == Init
    requires var up := Exec(w, h, SetUp(x)); up.r.Ok? && Exec(w, up.h, SetNs(x, Pod(pod))).r.Ok?
    ensures var t := Exec(w, Exec(w, h, SetUp(x)).h, SetNs(x, Pod(pod))).h;
            && SameButClock(t, h.(links := h.links[x := h.links[x].(ns := Pod(pod), up := false)]))
            && UniqueNames(t.links)
  {
    var l := h.links[x].(ns := Pod(pod), up := false);
    var up := Exec(w, h, SetUp(x)).h;
    assert up.links == h.links[x := h.links[x].(up := true)];
    assert up.links[x := l] == h.links[x := l];
    assert !Taken(up.links, x, Pod(pod), l.name);
    forall j | j in h.links && j != x && h.links[j].ns == Pod(pod) ensures h.links[j].name != l.name {
      assert up.links[j] == h.links[j];
      assert !At(up.links, j, Pod(pod), l.name);
    }
  }

  /** A successful rename in the pod hit this link, as nothing else there has the name. */
  lemma RenamedInPod(w: World, h: State, pod: nat, x: nat, vfName: string, podIf: string)
    requires UniqueNames(h.links) && x in h.links && h.links[x].ns == Pod(pod)
    requires forall j | j != x :: h.links[x].name == vfName || !At(h.links, j, Pod(pod), vfName)
    requires Rename(w, h, Pod(pod), vfName, podIf).r.Ok?
    ensures SameButClock(Rename(w, h, Pod(pod), vfName, podIf).h, h.(links := h.links[x := h.links[x].(name := podIf)]))
  {
    var i := Exec(w, h, LinkByName(Pod(pod), vfName)).r.index;
    FindIsAt(h.links, Pod(pod), vfName);
    assert i == x;
  }

  /**
   In any world, a hand-over that succeeds gave the interface's name to the link it moved exactly if that link
   was called as expected or no link of the pod was.
   */
  lemma RightLink(w: World, h: State, a: Args, pod: nat, x: nat, vfName: string, podIf: string, vf: nat)
    requires UniqueNames(h.links) && x in h.links && h.links[x].ns == Init
    ensures var r := HandRest(w, h, a, pod, x, vfName, podIf, vf);
            r.r.Ok? ==>
              (At(r.h.links, x, Pod(pod), podIf) <==>
               h.links[x].name == vfName || forall j :: !At(h.links, j, Pod(pod), vfName))
  {
    hide Key, Exec, Rename;
    var r := HandRest(w, h, a, pod, x, vfName, podIf, vf);
    if !r.r.Ok? {
    } else if h.links[x].name == vfName || forall j :: !At(h.links, j, Pod(pod), vfName) {
      HandRestDone(w, h, a, pod, x, vfName, podIf, vf);
    } else {
      var y :| At(h.links, y, Pod(pod), vfName);
      Moved(w, h, x, pod);
      var mv := Exec(w, Exec(w, h, SetUp(x)).h, SetNs(x, Pod(pod)));
      var en := Exec(w, mv.h, Probe);
      ProbeOnlyTicks(w, mv.h);
      RenamedOther(w, en.h, pod, x, y, vfName, podIf);
      Written(w, Rename(w, en.h, Pod(pod), vfName, podIf).h, Key(a.cid, podIf), Record(podIf, vf, a.vlan));
    }
  }

  lemma RenamedOther(w: World, h: State, pod: nat, x: nat, y: nat, vfName: string, podIf: string)
    requires UniqueNames(h.links) && x in h.links && h.links[x].ns == Pod(pod) && h.links[x].name != vfName
    requires At(h.links, y, Pod(pod), vfName) && Rename(w, h, Pod(pod), vfName, podIf).r.Ok?
    ensures var t := Rename(w, h, Pod(pod), vfName, podIf).h;
            && t == h.(clock := t.clock, links := h.links[y := h.links[y].(name := podIf)])
            && h.links[x].name != podIf && !h.links[y].up && !Taken(h.links, y, Pod(pod), podIf)
  {
    FindUnique(h.links, y, Pod(pod), vfName);
    assert At(h.links, x, Pod(pod), h.links[x].name);
  }

  lemma WriteWorks(w: World, h: State, key: string, rec: Record)
    requires AllOk(w, h.clock)
    ensures Exec(w, h, WriteFile(key, rec)) == Ran(h.(clock := h.clock + 1, store := h.store[key := rec]), Ok)
  {
  }

  /** The link called name is handed over; the detour of a link called eth0 leaves no trace when all ends well. */
  lemma HandDone(w: World, h: State, a: Args, pod: nat, name: string, podIf: string, vf: nat, x: nat)
    requires UniqueNames(h.links) && At(h.links, x, Init, name) && (name == "eth0" ==> NoSriov(h.links, pod))
    ensures var r := Hand(w, h, a, pod, name, podIf, vf);
            r.r.Ok? ==> SameButClock(r.h, Noted(h, x, pod, a.cid, Record(podIf, vf, a.vlan)))
  {
    hide HandRest, Key, Rename;
    var l := Exec(w, h, LinkByName(Init, name));
    FindUnique(h.links, x, Init, name);
    if !Hand(w, h, a, pod, name, podIf, vf).r.Ok? {
    } else if name != "eth0" {
      HandRestDone(w, l.h, a, pod, x, name, podIf, vf);
    } else {
      var sp := Spare(w, l.h, x);
      SpareDone(w, l.h, x);
      StillUnused(l.h.links, sp.h.links, x, pod, sp.r.index);
      HandRestDone(w, sp.h, a, pod, x, Sriov(sp.r.index), podIf, vf);
      assert sp.h.links[x := InPod(h.links[x], pod, podIf, false)] ==
          h.links[x := InPod(h.links[x], pod, podIf, false)];
    }
  }

  /** The detour changes the link's state and, if its rename works, the link's name. */
  lemma SpareDone(w: World, h: State, x: nat)
    requires UniqueNames(h.links) && At(h.links, x, Init, "eth0")
    ensures var sp := Spare(w, h, x);
            && sp.h == h.(clock := sp.h.clock, links := sp.h.links) && UniqueNames(sp.h.links)
            && sp.r.Index? && sp.r.index < 9999
            && sp.h.links.Keys == h.links.Keys && (forall j | j in h.links && j != x :: sp.h.links[j] == h.links[j])
            && sp.h.links[x].ns == Init && sp.h.links[x].mac == h.links[x].mac
  {
    hide Sriov, Exec, Rename;
    Lowered(w, h, x);
    var n := Exec(w, Exec(w, h, SetDown(x)).h, Random);
    RenameOnly(w, n.h, x, Sriov(n.r.index));
  }

  lemma StillUnused(links: Links, links': Links, x: nat, pod: nat, n: nat)
    requires NoSriov(links, pod) && links'.Keys == links.Keys && x in links && links'[x].ns == Init
    requires n < 9999 && forall j | j in links && j != x :: links'[j] == links[j]
    ensures forall j :: !At(links', j, Pod(pod), Sriov(n))
  {
    hide Sriov;
    forall j ensures !At(links', j, Pod(pod), Sriov(n)) {
      if j in links' && j != x && links'[j].ns == Pod(pod) {
        assert links[j].name != Sriov(n);
      }
    }
  }

  lemma Lowered(w: World, h: State, x: nat)
    requires UniqueNames(h.links) && x in h.links
    ensures var n := Exec(w, Exec(w, h, SetDown(x)).h, Random);
            && n.h == h.(clock := n.h.clock, links := n.h.links) && UniqueNames(n.h.links)
            && n.r.Index? && n.r.index < 9999
            && (n.h.links == h.links || n.h.links == h.links[x := h.links[x].(up := false)])
  {
  }

  lemma RenameOnly(w: World, h: State, x: nat, name: string)
    requires UniqueNames(h.links) && At(h.links, x, Init, "eth0")
    ensures var t := Rename(w, h, Init, "eth0", name).h;
            && t == h.(clock := t.clock, links := t.links) && UniqueNames(t.links)
            && (t.links == h.links || t.links == h.links[x := h.links[x].(name := name)])
  {
    FindUnique(h.links, x, Init, "eth0");
    var t := Rename(w, h, Init, "eth0", name).h;
    if t.links != h.links {
      assert !Taken(h.links, x, Init, name);
      forall j | j in h.links && j != x && h.links[j].ns == Init ensures h.links[j].name != name {
        assert !At(h.links, j, Init, name);
      }
    }
  }

  // ----- one placement -----

  function Configured(c: VfCfg, vlan: int, rates: Rates): VfCfg {
    VfCfg(if vlan == 0 then c.vlan else vlan, rates.min, rates.max)
  }

  /** The host with the link x of the VF given to the pod under the name podIf. */
  function Given(h: State, id: VfId, x: nat, a: Args, pod: nat, podIf: string, rates: Rates, up: bool): State
    requires x in h.links && id in h.vfCfg
  {
    h.(links := h.links[x := InPod(h.links[x], pod, podIf, up)],
       vfCfg := h.vfCfg[id := Configured(h.vfCfg[id], a.vlan, rates)],
       store := h.store[Key(a.cid, podIf) := Record(podIf, id.num, a.vlan)])
  }

  /** The VF's only link was free, and the physical function was where it is looked for. */
  ghost predicate WasFree(h: State, id: VfId, x: nat) {
    && id in h.vfLinks && h.vfLinks[id] == [x] && id in h.vfCfg && x in h.links && h.links[x].ns == Init
    && Find(h.links, Init, id.pf).Some?
  }

  /**
   A setup that reports success chose one free VF; unless the VF's link needs a temporary name that some link of
   the pod could have, it gave that link away, configured the VF and noted it, and did nothing else.
   */
  lemma SetupDone(w: World, h: State, a: Args, pod: nat, pf: string, podIf: string, rates: Rates) returns (x: nat)
    requires Inv(h)
    ensures var s := Setup(w, h, a, pod, pf, podIf, rates);
            s.ok ==>
              && s.vf.Some? && WasFree(h, VfId(pf, s.vf.value), x)
              && ((h.links[x].name == "eth0" ==> NoSriov(h.links, pod)) ==>
                    SameButClock(s.h, Given(h, VfId(pf, s.vf.value), x, a, pod, podIf, rates, false)))
  {
    hide Exec, Scan, Key, AfterScan, UniqueNames, DevOk, NetDir;
    x := 0;
    if !Setup(w, h, a, pod, pf, podIf, rates).ok {
      return;
    }
    LookedUp(w, h, pf);
    var t := Exec(w, Exec(w, h, LinkByName(Init, pf)).h, NumVfs(pf));
    var s := Scan(w, t.h, pf, 0, t.r.num, rates);
    ScanFinds(w, t.h, pf, 0, t.r.num, rates);
    PassedCheck(w, s, a, pod, pf, podIf);
    x := SingleLink(t.h, s, pf, t.r.num, rates);
    if h.links[x].name == "eth0" ==> NoSriov(h.links, pod) {
      AfterScanDone(w, s, a, pod, pf, podIf, x);
    }
  }

  lemma SafeFor(h: State, pod: nat, id: VfId, x: nat)
    requires TempSafe(h, pod) && id in h.vfLinks && h.vfLinks[id] == [x] && x in h.links && h.links[x].ns == Init
    ensures h.links[x].name == "eth0" ==> NoSriov(h.links, pod)
  {
    hide NoSriov;
    assert x in h.vfLinks[id];
    assert h.links[x].name == "eth0" ==> IsVfLink(h.vfLinks, x) && At(h.links, x, Init, "eth0");
  }

  lemma PassedCheck(w: World, s: Scanned, a: Args, pod: nat, pf: string, podIf: string)
    ensures var o := AfterScan(w, s, a, pod, pf, podIf);
            o.vf == s.vf && (o.ok ==> s.ok && s.vf.Some? && |s.names| == 1)
  {
    hide Hand;
  }

  lemma SingleLink(t: State, s: Scanned, pf: string, total: int, rates: Rates) returns (x: nat)
    requires Wired(t.links, t.vfLinks, t.vfCfg, t.totals) && ScanFound(t, s, pf, 0, total, rates) && s.ok
        && |s.names| == 1
    ensures var id := VfId(pf, s.vf.value);
            && id in t.vfLinks && t.vfLinks[id] == [x] && id in t.vfCfg && At(t.links, x, Init, s.names[0])
            && s.h == t.(clock := s.h.clock,
                         vfCfg := t.vfCfg[id := t.vfCfg[id].(minRate := rates.min, maxRate := rates.max)])
  {
    var id := VfId(pf, s.vf.value);
    x := t.vfLinks[id][0];
    assert t.vfLinks[id] == [x];
    SingleNetDir(t, id);
  }

  lemma LookedUp(w: World, h: State, pf: string)
    ensures var m := Exec(w, h, LinkByName(Init, pf));
            var t := Exec(w, m.h, NumVfs(pf));
            SameButClock(t.h, h) && (m.r.Index? ==> Find(h.links, Init, pf).Some?)
  {
  }

  lemma AfterScanDone(w: World, s: Scanned, a: Args, pod: nat, pf: string, podIf: string, x: nat)
    requires UniqueNames(s.h.links)
    requires s.ok && s.vf.Some? && |s.names| == 1 && VfId(pf, s.vf.value) in s.h.vfCfg
    requires At(s.h.links, x, Init, s.names[0]) && (s.names[0] == "eth0" ==> NoSriov(s.h.links, pod))
    ensures var id := VfId(pf, s.vf.value);
            var cfg := s.h.vfCfg[id];
            var o := AfterScan(w, s, a, pod, pf, podIf);
            o.ok ==>
              SameButClock(o.h, Noted(s.h.(vfCfg := s.h.vfCfg[id := if a.vlan == 0 then cfg else cfg.(vlan := a.vlan)]),
                                      x, pod, a.cid, Record(podIf, s.vf.value, a.vlan)))
  {
    hide Hand, Key;
    var id := VfId(pf, s.vf.value);
    var c := if a.vlan != 0 then Exec(w, s.h, SetVlan(id, a.vlan)) else Ran(s.h, Ok);
    HandDone(w, c.h, a, pod, s.names[0], podIf, s.vf.value, x);
    assert s.h.vfCfg[id := s.h.vfCfg[id]] == s.h.vfCfg;
  }

  /**
   The three ways in which a VF is identified agree on a link that was set up: the index the setup scanned,
   the VF the table of addresses gives for the link, and, once the link is back, the number the scan for its
   name finds, exactly if no stat on a lower number fails.
   */
  lemma IdentificationsAgree(w: World, h: State, a: Args, pod: nat, pf: string, podIf: string, rates: Rates,
                             pfs: seq<PfInfo>, w': World, b: State) returns (x: nat)
    requires Inv(h) && TempSafe(h, pod) && Faithful(pfs, h.links, h.vfLinks)
    requires Inv(b) && b.vfLinks == h.vfLinks && b.totals == h.totals
    ensures var s := Setup(w, h, a, pod, pf, podIf, rates);
            s.ok ==>
            && s.vf.Some? && x in h.links && At(s.h.links, x, Pod(pod), podIf)
            && FindMac(pfs, s.h.links[x].mac) == Some(VfId(pf, s.vf.value))
            && (pf in b.totals && At(b.links, x, Init, Dev(x)) ==>
                  (Locate(w', b, pf, 0, b.totals[pf], Dev(x)).r == Num(s.vf.value) <==>
                   forall c: nat | b.clock <= c < b.clock + s.vf.value :: w'(c).ok))
  {
    hide Setup, Key, Exec, Locate, Dev, NetDir, UniqueNames, DevOk, NoSriov, TempSafe, Faithful, Find;
    x := SetupDone(w, h, a, pod, pf, podIf, rates);
    if !Setup(w, h, a, pod, pf, podIf, rates).ok {
      return;
    }
    var id := VfId(pf, Setup(w, h, a, pod, pf, podIf, rates).vf.value);
    SafeFor(h, pod, id, x);
    FindMacFinds(pfs, h, id);
    if pf in b.totals && At(b.links, x, Init, Dev(x)) {
      LocateExact(w', b, id, x, b.totals[pf]);
    }
  }

  lemma ConfigureDone(w: World, h: State, pod: nat, name: string, x: nat) returns (up: bool)
    requires UniqueNames(h.links) && At(h.links, x, Pod(pod), name)
    ensures var c := Configure(w, h, pod, name);
            && SameButClock(c.h, h.(links := h.links[x := h.links[x].(up := up)]))
            && (c.r.Ok? ==> up)
  {
    hide Exec, Lookup;
    LookupDone(w, h, pod, name, x);
    var l := Lookup(w, h, pod, name);
    assert h.links[x := h.links[x]] == h.links;
    up := h.links[x].up;
    if l.r.Index? {
      up := RaiseDone(w, l.h, x);
    }
  }

  lemma LookupDone(w: World, h: State, pod: nat, name: string, x: nat)
    requires UniqueNames(h.links) && At(h.links, x, Pod(pod), name)
    ensures var l := Lookup(w, h, pod, name);
            SameButClock(l.h, h) && (l.r.Index? ==> l.r.index == x)
  {
    FindUnique(h.links, x, Pod(pod), name);
  }

  lemma RaiseDone(w: World, h: State, x: nat) returns (up: bool)
    requires x in h.links
    ensures var u := Exec(w, h, SetUp(x));
            && SameButClock(u.h, h.(links := h.links[x := h.links[x].(up := up)])) && (u.r.Ok? ==> up)
            && SameButClock(Exec(w, u.h, Probe).h, u.h)
  {
    up := h.links[x].up || Exec(w, h, SetUp(x)).r.Ok?;
    assert h.links[x := h.links[x]] == h.links;
  }

  /** What a turn of the loop has done that got past its setup. */
  ghost predicate GaveOne(h: State, one: Turn, a: Args, pod: nat, i: nat, pf: string, rates: Rates, x: nat, vf: nat,
      up: bool) {
    && WasFree(h, VfId(pf, vf), x)
    && SameButClock(one.h, Given(h, VfId(pf, vf), x, a, pod, Eth(i), rates, up))
    && |one.frames| > 0 && one.frames[0] == RollbackFrame(i, pf, Some(vf))
    && (one.stop.Completed? ==> up && |one.answers| == 1)
  }

  /** A turn of the loop past its setup: the VF given away, its link up once the configuration is through. */
  lemma PlaceOneDone(w: World, h: State, a: Args, pod: nat, i: nat, pf: string, rates: Rates)
    returns (x: nat, vf: nat, up: bool)
    requires Inv(h) && TempSafe(h, pod) && i <= MAX_INT
    ensures var one := PlaceOne(w, h, a, pod, i, pf, rates);
            !one.stop.SetupFailed? ==> GaveOne(h, one, a, pod, i, pf, rates, x, vf, up)
  {
    hide Setup, Key, Configure, Eth, Exec, UniqueNames, Wired, DevOk, NoSriov, TempSafe, IsEthName;
    x := SetupDone(w, h, a, pod, pf, Eth(i), rates);
    var s := Setup(w, h, a, pod, pf, Eth(i), rates);
    vf, up := 0, false;
    if !s.ok {
      return;
    }
    vf := s.vf.value;
    SafeFor(h, pod, VfId(pf, vf), x);
    EthIsEthName(i);
    SetupKept(w, h, a, pod, pf, Eth(i), rates);
    IpamLeavesHost(w, s.h);
    var r := Exec(w, s.h, IpamAdd);
    if r.r.Answer? && r.r.ip4.Some? {
      up := ConfigureDone(w, r.h, pod, Eth(i), x);
      assert h.links[x := InPod(h.links[x], pod, Eth(i), false)][x := InPod(h.links[x], pod, Eth(i), up)]
          == h.links[x := InPod(h.links[x], pod, Eth(i), up)];
    }
  }

  lemma IpamLeavesHost(w: World, h: State)
    ensures SameButClock(Exec(w, h, IpamAdd).h, h) && SameButClock(Exec(w, h, IpamDel).h, h)
  {
  }
}
