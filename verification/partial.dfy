/** How far a setup has got when it fails: which link it has moved, and what it cannot have touched. */
module Partial {
  import opened Text
  import opened Host
  import opened Lifecycle
  import opened HostInvariant
  import opened Reclaim
  import opened Placement

  /** At most one link has changed its namespace, from the initial one to the pod's; the pod's own are unchanged. */
  ghost predicate LeftBehind(links: Links, links': Links, pod: nat, moved: Option<nat>) {
    && links'.Keys == links.Keys
    && (forall i | i in links && moved != Some(i) ::
          if links[i].ns == Init then links'[i].ns == Init else links'[i] == links[i])
    && (moved.Some? ==> moved.value in links && links[moved.value].ns == Init && links'[moved.value].ns == Pod(pod))
  }

  /** No link but x has changed in any way. */
  ghost predicate OnlyLink(links: Links, links': Links, x: nat) {
    && x in links && links'.Keys == links.Keys && links'[x].mac == links[x].mac
    && forall i | i in links && i != x :: links'[i] == links[i]
  }

  /** What a hand-over of x leaves when it ends in any way; it writes the store only by its last call. */
  ghost predicate Leaves(h: State, t: State, done: bool, pod: nat, moved: Option<nat>, x: nat) {
    && LeftBehind(h.links, t.links, pod, moved) && OnlyLink(h.links, t.links, x) && (moved.Some? ==> moved.value == x)
    && t.vfCfg == h.vfCfg && (!done ==> t.store == h.store)
  }

  lemma LeavesTrans(a: State, b: State, c: State, done: bool, pod: nat, moved: Option<nat>, x: nat)
    requires Leaves(a, b, false, pod, None, x) && Leaves(b, c, done, pod, moved, x)
    ensures Leaves(a, c, done, pod, moved, x)
  {
  }

  lemma RenameLeaves(w: World, h: State, pod: nat, x: nat, vfName: string, podIf: string)
    requires UniqueNames(h.links) && x in h.links && h.links[x].ns == Pod(pod)
    requires h.links[x].name == vfName || forall j | j != x :: !At(h.links, j, Pod(pod), vfName)
    ensures var t := Rename(w, h, Pod(pod), vfName, podIf).h;
            && t.store == h.store && t.vfCfg == h.vfCfg
            && (t.links == h.links || t.links == h.links[x := h.links[x].(name := podIf)])
  {
    FindIsAt(h.links, Pod(pod), vfName);
  }

  lemma MoveLeaves(w: World, h: State, x: nat, pod: nat)
    requires UniqueNames(h.links) && x in h.links && h.links[x].ns == Init
    ensures var up := Exec(w, h, SetUp(x));
            var mv := Exec(w, up.h, SetNs(x, Pod(pod)));
            && Leaves(h, up.h, false, pod, None, x) && mv.h.store == h.store && mv.h.vfCfg == h.vfCfg
            && (up.r.Ok? && !mv.r.Ok? ==> Leaves(h, mv.h, false, pod, None, x))
  {
    hide Find, NetDir, Listing, Enumerates, InBounds;
  }

  lemma MoveNeedsRoom(w: World, h: State, x: nat, pod: nat)
    requires x in h.links && h.links[x].ns == Init
    requires var up := Exec(w, h, SetUp(x)); up.r.Ok? && Exec(w, up.h, SetNs(x, Pod(pod))).r.Ok?
    ensures forall j :: !At(h.links, j, Pod(pod), h.links[x].name)
  {
    hide Find, NetDir, Listing, Enumerates, InBounds;
    var up := Exec(w, h, SetUp(x)).h;
    assert forall j | j != x :: At(up.links, j, Pod(pod), h.links[x].name) == At(h.links, j, Pod(pod), h.links[x].name);
  }

  lemma ProbeSame(w: World, h: State)
    ensures Exec(w, h, Probe).h == h.(clock := h.clock + 1)
  {
  }

  lemma HandRestLeaves(w: World, h: State, a: Args, pod: nat, x: nat, vfName: string, podIf: string, vf: nat)
    returns (moved: Option<nat>)
    requires UniqueNames(h.links) && x in h.links && h.links[x].ns == Init
    requires h.links[x].name == vfName || forall j :: !At(h.links, j, Pod(pod), vfName)
    ensures var r := HandRest(w, h, a, pod, x, vfName, podIf, vf); Leaves(h, r.h, r.r.Ok?, pod, moved, x)
    ensures moved.Some? ==> forall j :: !At(h.links, j, Pod(pod), h.links[x].name)
  {
    hide Key, Exec, Rename, UniqueNames, LeftBehind, OnlyLink;
    MoveLeaves(w, h, x, pod);
    var up := Exec(w, h, SetUp(x));
    var mv := Exec(w, up.h, SetNs(x, Pod(pod)));
    moved := None;
    if up.r.Ok? && mv.r.Ok? {
      moved := Some(x);
      Moved(w, h, x, pod);
      MoveNeedsRoom(w, h, x, pod);
      ProbeSame(w, mv.h);
      OneMoved(h.links, mv.h.links, x, h.links[x].name, pod);
      var en := Exec(w, mv.h, Probe);
      if en.r.Ok? {
        NamedLeaves(w, h, en.h, a, pod, x, vfName, podIf, vf);
      }
    }
  }

  lemma OneMoved(links: Links, links': Links, x: nat, name: string, pod: nat)
    requires x in links && links[x].ns == Init && links' == links[x := Link(Pod(pod), name, false, links[x].mac)]
    ensures LeftBehind(links, links', pod, Some(x)) && OnlyLink(links, links', x)
  {
  }

  lemma NamedLeaves(w: World, h: State, en: State, a: Args, pod: nat, x: nat, vfName: string, podIf: string, vf: nat)
    requires x in h.links && h.links[x].ns == Init && UniqueNames(en.links)
    requires en.store == h.store && en.vfCfg == h.vfCfg
    requires h.links[x].name == vfName || forall j :: !At(h.links, j, Pod(pod), vfName)
    requires en.links == h.links[x := h.links[x].(ns := Pod(pod), up := false)]
    ensures var fin := Rename(w, en, Pod(pod), vfName, podIf);
            var r := Exec(w, fin.h, WriteFile(Key(a.cid, podIf), Record(podIf, vf, a.vlan)));
            && Leaves(h, fin.h, false, pod, Some(x), x) && Leaves(h, r.h, r.r.Ok?, pod, Some(x), x)
  {
    hide Key, Exec, Rename, UniqueNames, LeftBehind, OnlyLink;
    assert forall j | j != x :: At(en.links, j, Pod(pod), vfName) == At(h.links, j, Pod(pod), vfName);
    RenameLeaves(w, en, pod, x, vfName, podIf);
    var fin := Rename(w, en, Pod(pod), vfName, podIf);
    OneMoved(h.links, fin.h.links, x, fin.h.links[x].name, pod);
    WriteLeaves(w, fin.h, Key(a.cid, podIf), Record(podIf, vf, a.vlan));
  }

  lemma WriteLeaves(w: World, h: State, key: string, rec: Record)
    ensures var r := Exec(w, h, WriteFile(key, rec));
            r.h.links == h.links && r.h.vfCfg == h.vfCfg && (!r.r.Ok? ==> r.h.store == h.store)
  {
  }

  lemma HandLeaves(w: World, h: State, a: Args, pod: nat, name: string, podIf: string, vf: nat, x: nat)
    returns (moved: Option<nat>)
    requires UniqueNames(h.links) && At(h.links, x, Init, name) && (name == "eth0" ==> NoSriov(h.links, pod))
    ensures var r := Hand(w, h, a, pod, name, podIf, vf); Leaves(h, r.h, r.r.Ok?, pod, moved, x)
    ensures moved.Some? && name != "eth0" ==> forall j :: !At(h.links, j, Pod(pod), name)
  {
    hide HandRest, Exec, Find, Rename, UniqueNames;
    LookLeaves(w, h, Init, name, x);
    var l := Exec(w, h, LinkByName(Init, name));
    moved := None;
    if l.r.Index? {
      if name != "eth0" {
        moved := HandRestLeaves(w, l.h, a, pod, x, name, podIf, vf);
      } else {
        var sp := Spare(w, l.h, x);
        SpareDone(w, l.h, x);
        StillUnused(l.h.links, sp.h.links, x, pod, sp.r.index);
        moved := HandRestLeaves(w, sp.h, a, pod, x, Sriov(sp.r.index), podIf, vf);
        var r := Hand(w, h, a, pod, name, podIf, vf);
        LeavesTrans(l.h, sp.h, r.h, r.r.Ok?, pod, moved, x);
      }
    }
  }

  lemma LookLeaves(w: World, h: State, ns: Ns, name: string, x: nat)
    requires UniqueNames(h.links) && At(h.links, x, ns, name)
    ensures var l := Exec(w, h, LinkByName(ns, name));
            SameButClock(l.h, h) && (l.r.Index? ==> l.r.index == x)
  {
    FindUnique(h.links, x, ns, name);
  }

  // ----- the configuration -----

  /** A link is moved under its own name, which is free in the pod then, or under a temporary one. */
  ghost predicate FoundRoom(links: Links, pod: nat, moved: Option<nat>) {
    moved.Some? && moved.value in links && links[moved.value].name != "eth0" ==>
      forall j :: !At(links, j, Pod(pod), links[moved.value].name)
  }

  /** The VF that a setup picked, its link, and whether its vlan was set. */
  datatype Pick = Pick(id: VfId, x: nat, vlanSet: bool)

  function SetTo(c: VfCfg, vlan: int, vlanSet: bool, rates: Rates): VfCfg {
    VfCfg(if vlanSet then vlan else c.vlan, rates.min, rates.max)
  }

  /** Between h and t no link and no VF has changed but those picked; the VF has the rates asked for. */
  ghost predicate Touched(h: State, t: State, pick: Option<Pick>, vlan: int, rates: Rates) {
    match pick
    case None => t.links == h.links && t.vfCfg == h.vfCfg
    case Some(p) =>
      && WasFree(h, p.id, p.x) && OnlyLink(h.links, t.links, p.x) && (p.vlanSet ==> vlan != 0)
      && t.vfCfg == h.vfCfg[p.id := SetTo(h.vfCfg[p.id], vlan, p.vlanSet, rates)]
  }

  /** The scan of a setup, if it gets that far. */
  ghost function ScanOf(w: World, h: State, pf: string, rates: Rates): Option<Scanned> {
    var m := Exec(w, h, LinkByName(Init, pf));
    var t := Exec(w, m.h, NumVfs(pf));
    if m.r.Index? && t.r.Num? then Some(Scan(w, t.h, pf, 0, t.r.num, rates)) else None
  }

  /** A VF is picked exactly if the scan ends well; its vlan is set exactly if one is asked for and that call works. */
  ghost predicate PickedBy(w: World, scan: Option<Scanned>, pick: Option<Pick>, pf: string, vlan: int) {
    && (pick.Some? <==> scan.Some? && scan.value.ok)
    && (pick.Some? ==> && pick.value.id.pf == pf && scan.value.vf == Some(pick.value.id.num)
                       && (pick.value.vlanSet <==> vlan != 0 && w(scan.value.h.clock).ok))
  }

  lemma VlanLeaves(w: World, h: State, id: VfId, vlan: int)
    requires id in h.vfCfg
    ensures var c := Exec(w, h, SetVlan(id, vlan));
            && c.h.links == h.links && c.h.store == h.store && (c.r.Ok? <==> w(h.clock).ok)
            && c.h.vfCfg == if c.r.Ok? then h.vfCfg[id := h.vfCfg[id].(vlan := vlan)] else h.vfCfg
  {
  }

  lemma AfterScanLeaves(w: World, s: Scanned, a: Args, pod: nat, pf: string, podIf: string, x: nat)
    returns (moved: Option<nat>)
    requires UniqueNames(s.h.links) && s.ok && s.vf.Some? && |s.names| == 1 && VfId(pf, s.vf.value) in s.h.vfCfg
    requires At(s.h.links, x, Init, s.names[0]) && (s.names[0] == "eth0" ==> NoSriov(s.h.links, pod))
    ensures var o := AfterScan(w, s, a, pod, pf, podIf);
            var id := VfId(pf, s.vf.value);
            var vlanSet := a.vlan != 0 && w(s.h.clock).ok;
            && Leaves(s.h, o.h.(vfCfg := s.h.vfCfg), o.ok, pod, moved, x)
            && o.h.vfCfg == (if vlanSet then s.h.vfCfg[id := s.h.vfCfg[id].(vlan := a.vlan)] else s.h.vfCfg)
            && (moved.Some? ==> (vlanSet <==> a.vlan != 0))
            && (moved.Some? && s.names[0] != "eth0" ==> forall j :: !At(s.h.links, j, Pod(pod), s.names[0]))
  {
    hide Hand, Exec, UniqueNames, NoSriov;
    var vf := s.vf.value;
    VlanLeaves(w, s.h, VfId(pf, vf), a.vlan);
    var c := if a.vlan != 0 then Exec(w, s.h, SetVlan(VfId(pf, vf), a.vlan)) else Ran(s.h, Ok);
    moved := None;
    if c.r.Ok? {
      moved := HandLeaves(w, c.h, a, pod, s.names[0], podIf, vf, x);
    }
  }

  /**
   A setup, however it ends, has picked one free VF or none; it has moved at most that VF's link, it has set that VF's
   rates and, unless that call failed, a configured vlan, and it saves nothing unless it succeeds.
   */
  lemma SetupLeaves(w: World, h: State, a: Args, pod: nat, pf: string, podIf: string, rates: Rates)
    returns (moved: Option<nat>, pick: Option<Pick>)
    requires Inv(h) && TempSafe(h, pod)
    ensures var s := Setup(w, h, a, pod, pf, podIf, rates);
            && LeftBehind(h.links, s.h.links, pod, moved) && (!s.ok ==> s.h.store == h.store)
            && Touched(h, s.h, pick, a.vlan, rates) && PickedBy(w, ScanOf(w, h, pf, rates), pick, pf, a.vlan)
            && (pick.None? ==> !s.ok) && (pick.Some? ==> s.vf == Some(pick.value.id.num))
            && (moved.Some? ==> pick.Some? && pick.value.x == moved.value && (pick.value.vlanSet <==> a.vlan != 0))
            && FoundRoom(h.links, pod, moved)
  {
    hide Exec, Scan, AfterScan, UniqueNames, DevOk, NetDir, NoSriov, Find, LeftBehind, OnlyLink;
    LookedUp(w, h, pf);
    AsksSame(w, h, pf);
    SameLinks(h.links, pod);
    var m := Exec(w, h, LinkByName(Init, pf));
    var t := Exec(w, m.h, NumVfs(pf));
    moved, pick := None, None;
    if m.r.Index? && t.r.Num? {
      var s := Scan(w, t.h, pf, 0, t.r.num, rates);
      ScanFinds(w, t.h, pf, 0, t.r.num, rates);
      if s.ok {
        OneName(t.h, s, pf, t.r.num, rates);
        var x := SingleLink(t.h, s, pf, t.r.num, rates);
        var id := VfId(pf, s.vf.value);
        SafeFor(h, pod, id, x);
        moved := AfterScanLeaves(w, s, a, pod, pf, podIf, x);
        pick := Some(Pick(id, x, a.vlan != 0 && w(s.h.clock).ok));
        PassedCheck(w, s, a, pod, pf, podIf);
        SetInTwo(h.vfCfg, id, a.vlan, rates);
      } else {
        Refused(w, s, a, pod, pf, podIf);
      }
    }
  }

  lemma SetInTwo(vfCfg: map<VfId, VfCfg>, id: VfId, vlan: int, rates: Rates)
    requires id in vfCfg
    ensures var c := vfCfg[id := vfCfg[id].(minRate := rates.min, maxRate := rates.max)];
            && c == vfCfg[id := SetTo(vfCfg[id], vlan, false, rates)]
            && c[id := c[id].(vlan := vlan)] == vfCfg[id := SetTo(vfCfg[id], vlan, true, rates)]
  {
  }

  lemma SameLinks(links: Links, pod: nat)
    ensures LeftBehind(links, links, pod, None)
  {
  }

  lemma OneName(t: State, s: Scanned, pf: string, total: int, rates: Rates)
    requires Wired(t.links, t.vfLinks, t.vfCfg, t.totals) && ScanFound(t, s, pf, 0, total, rates) && s.ok
    ensures |s.names| == 1
  {
    SingleNetDir(t, VfId(pf, s.vf.value));
  }

  lemma AsksSame(w: World, h: State, pf: string)
    ensures SameButClock(Exec(w, h, LinkByName(Init, pf)).h, h)
  {
  }

  lemma Refused(w: World, s: Scanned, a: Args, pod: nat, pf: string, podIf: string)
    requires !s.ok
    ensures AfterScan(w, s, a, pod, pf, podIf) == SetupOut(s.h, s.vf, false)
  {
  }
}
