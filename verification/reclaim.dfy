/** What DEL gets back, exactly: which links it moves, which VFs it resets, which records it removes. */
module Reclaim {
  import opened Text
  import opened Host
  import opened Lifecycle
  import opened HostInvariant

  /** From this moment on every call works. */
  ghost predicate AllOk(w: World, from: nat) {
    forall n: nat | n >= from :: w(n).ok
  }

  /** In the pod, with a name of DEL's kind, and with a scratch record of this container under that name. */
  ghost predicate Reclaimable(h: State, pod: nat, cid: string, i: nat) {
    && i in h.links && h.links[i].ns == Pod(pod)
    && IsEthName(h.links[i].name) && Key(cid, h.links[i].name) in h.store
  }

  ghost function ReclaimSet(h: State, pod: nat, cid: string): set<nat> {
    set i | i in h.links && Reclaimable(h, pod, cid, i)
  }

  /** The host with exactly these links back in the initial namespace, their VFs reset, their records gone. */
  ghost function Reclaimed(h: State, s: set<nat>, vlan: int, cid: string): State
    requires Wired(h.links, h.vfLinks, h.vfCfg, h.totals)
  {
    h.(links := map i | i in h.links :: if i in s then Back(h.links[i], i) else h.links[i],
       vfCfg := AllReset(h.vfCfg, h.vfLinks, s, vlan),
       store := map key | key in h.store && !RecordOf(h, s, cid, key) :: h.store[key])
  }

  /** The configurations with those of these links' VFs reset. */
  function AllReset(vfCfg: map<VfId, VfCfg>, vfLinks: VfMap, s: set<nat>, vlan: int): map<VfId, VfCfg>
    requires forall id | id in vfCfg :: id in vfLinks && |vfLinks[id]| == 1
  {
    map id | id in vfCfg :: if vfLinks[id][0] in s then Reset(vfCfg[id], vlan) else vfCfg[id]
  }

  function Back(l: Link, i: nat): Link {
    Link(Init, Dev(i), false, l.mac)
  }

  function Reset(c: VfCfg, vlan: int): VfCfg {
    VfCfg(if vlan == 0 then c.vlan else 0, 0, 0)
  }

  ghost predicate RecordOf(h: State, s: set<nat>, cid: string, key: string) {
    exists i :: i in s && i in h.links && key == Key(cid, h.links[i].name)
  }

  // ----- the table of hardware addresses -----

  ghost predicate Entry(pfs: seq<PfInfo>, id: VfId, mac: nat) {
    exists p, q :: && 0 <= p < |pfs| && 0 <= q < |pfs[p].vfs| && pfs[p].name == id.pf
                   && pfs[p].vfs[q] == VfInfo(id.num, mac)
  }

  /** The query lists every VF under its link's address, and no address twice. */
  ghost predicate Faithful(pfs: seq<PfInfo>, links: Links, vfLinks: VfMap) {
    && (forall id | id in vfLinks && |vfLinks[id]| == 1 && vfLinks[id][0] in links ::
          Entry(pfs, id, links[vfLinks[id][0]].mac))
    && (forall a, b, mac | Entry(pfs, a, mac) && Entry(pfs, b, mac) :: a == b)
  }

  lemma {:induction false} FindVfEntry(vfs: seq<VfInfo>, mac: nat)
    ensures FindVf(vfs, mac).Some? ==> exists q :: 0 <= q < |vfs| && vfs[q] == VfInfo(FindVf(vfs, mac).value, mac)
    ensures FindVf(vfs, mac).None? ==> forall q | 0 <= q < |vfs| :: vfs[q].mac != mac
  {
    if vfs != [] {
      FindVfEntry(vfs[1..], mac);
      if vfs[0].mac == mac {
        assert vfs[0] == VfInfo(vfs[0].num, mac);
      } else if FindVf(vfs[1..], mac).Some? {
        var q :| 0 <= q < |vfs[1..]| && vfs[1..][q] == VfInfo(FindVf(vfs, mac).value, mac);
        assert vfs[q + 1] == vfs[1..][q];
      } else {
        forall q | 0 <= q < |vfs| ensures vfs[q].mac != mac {
          if q > 0 {
            assert vfs[q] == vfs[1..][q - 1];
          }
        }
      }
    }
  }

  lemma {:induction false} FindMacEntry(pfs: seq<PfInfo>, mac: nat)
    ensures FindMac(pfs, mac).Some? ==> Entry(pfs, FindMac(pfs, mac).value, mac)
    ensures FindMac(pfs, mac).None? ==> forall id :: !Entry(pfs, id, mac)
  {
    if pfs != [] {
      FindVfEntry(pfs[0].vfs, mac);
      FindMacEntry(pfs[1..], mac);
      if FindVf(pfs[0].vfs, mac).None? {
        forall id ensures Entry(pfs, id, mac) <==> Entry(pfs[1..], id, mac) {
          EntryTail(pfs, id, mac);
        }
      }
    }
  }

  /** Row p has this address at place q, and no row has it before. */
  predicate FirstAt(pfs: seq<PfInfo>, mac: nat, p: nat, q: nat) {
    && p < |pfs| && q < |pfs[p].vfs| && pfs[p].vfs[q].mac == mac
    && (forall k | 0 <= k < q :: pfs[p].vfs[k].mac != mac)
    && forall r, k | 0 <= r < p && 0 <= k < |pfs[r].vfs| :: pfs[r].vfs[k].mac != mac
  }

  lemma {:induction false} FindVfFirst(vfs: seq<VfInfo>, mac: nat) returns (q: nat)
    ensures FindVf(vfs, mac).Some? ==>
              && q < |vfs| && vfs[q] == VfInfo(FindVf(vfs, mac).value, mac)
              && forall k | 0 <= k < q :: vfs[k].mac != mac
    ensures FindVf(vfs, mac).None? ==> forall k | 0 <= k < |vfs| :: vfs[k].mac != mac
  {
    q := 0;
    if vfs != [] && vfs[0].mac != mac {
      var rest := FindVfFirst(vfs[1..], mac);
      q := rest + 1;
      assert forall k | 0 < k < |vfs| :: vfs[k] == vfs[1..][k - 1];
    }
  }

  /** The search by address finds the first entry with it, in the order of the table. */
  lemma {:induction false} FindMacFirst(pfs: seq<PfInfo>, mac: nat) returns (p: nat, q: nat)
    ensures FindMac(pfs, mac).Some? ==>
              FirstAt(pfs, mac, p, q) && FindMac(pfs, mac).value == VfId(pfs[p].name, pfs[p].vfs[q].num)
    ensures FindMac(pfs, mac).None? ==>
              forall r, k | 0 <= r < |pfs| && 0 <= k < |pfs[r].vfs| :: pfs[r].vfs[k].mac != mac
  {
    p, q := 0, 0;
    if pfs != [] {
      q := FindVfFirst(pfs[0].vfs, mac);
      if FindVf(pfs[0].vfs, mac).None? {
        var rest;
        rest, q := FindMacFirst(pfs[1..], mac);
        p := rest + 1;
        assert forall r | 0 < r < |pfs| :: pfs[r] == pfs[1..][r - 1];
      }
    }
  }

  lemma EntryTail(pfs: seq<PfInfo>, id: VfId, mac: nat)
    requires pfs != [] && forall q | 0 <= q < |pfs[0].vfs| :: pfs[0].vfs[q].mac != mac
    ensures Entry(pfs, id, mac) <==> Entry(pfs[1..], id, mac)
  {
    if Entry(pfs, id, mac) {
      var p, q :| 0 <= p < |pfs| && 0 <= q < |pfs[p].vfs| && pfs[p].name == id.pf
          && pfs[p].vfs[q] == VfInfo(id.num, mac);
      assert p != 0;
      assert pfs[1..][p - 1] == pfs[p];
    }
    if Entry(pfs[1..], id, mac) {
      var rest := pfs[1..];
      var p, q :| 0 <= p < |rest| && 0 <= q < |rest[p].vfs| && rest[p].name == id.pf
          && rest[p].vfs[q] == VfInfo(id.num, mac);
      assert pfs[p + 1] == rest[p];
    }
  }

  /** The search by address finds the VF that owns the link. */
  lemma FindMacFinds(pfs: seq<PfInfo>, h: State, id: VfId)
    requires Faithful(pfs, h.links, h.vfLinks) && id in h.vfLinks
    requires |h.vfLinks[id]| == 1 && h.vfLinks[id][0] in h.links
    ensures FindMac(pfs, h.links[h.vfLinks[id][0]].mac) == Some(id)
  {
    FindMacEntry(pfs, h.links[h.vfLinks[id][0]].mac);
  }

  // ----- the name scan of resetVfVlan -----

  /** On a released link: the name dev<i> is in exactly one net directory, that of the link's VF. */
  lemma OnlyOwnDir(h: State, id: VfId, i: nat, other: VfId)
    requires Inv(h) && id in h.vfLinks && h.vfLinks[id] == [i]
    requires h.links[i].ns == Init && h.links[i].name == Dev(i)
    ensures Dev(i) in NetDir(h, other) <==> other == id
  {
    SingleNetDir(h, id);
    if other in h.vfLinks {
      SingleNetDir(h, other);
      var ls := h.vfLinks[other];
      assert ls == [ls[0]];
    }
  }

  /** Among the VFs of pf the name is in the net directory of number num only. */
  ghost predicate OnlyAt(h: State, pf: string, name: string, num: nat) {
    forall v: nat :: name in NetDir(h, VfId(pf, v)) <==> v == num
  }

  /** The number the scan returns: the one with the name, or that of the first stat that fails before it. */
  lemma {:induction false} LocateNumber(w: World, h: State, pf: string, name: string, num: nat, u: nat, total: int)
    requires OnlyAt(h, pf, name, num) && u <= num < total
    ensures var r := Locate(w, h, pf, u, total, name);
            && r.r.Num? && u <= r.r.num <= num && SameButClock(r.h, h) && r.h.clock > h.clock
            && (r.r == Num(num) <==> forall c: nat | h.clock <= c < h.clock + (num - u) :: w(c).ok)
            && (r.r.num < num ==> !w(h.clock + (r.r.num - u)).ok)
    decreases total - u
  {
    var s := Exec(w, h, StatLink(VfId(pf, u), name));
    StatOutcome(w, h, VfId(pf, u), name);
    if s.r.Absent? {
      forall v: nat ensures name in NetDir(s.h, VfId(pf, v)) <==> v == num {
        assert NetDir(s.h, VfId(pf, v)) == NetDir(h, VfId(pf, v));
      }
      LocateNumber(w, s.h, pf, name, num, u + 1, total);
      var r := Locate(w, s.h, pf, u + 1, total, name);
      assert h.clock + (r.r.num - u) == s.h.clock + (r.r.num - (u + 1));
    }
  }

  /**
   resetVfVlan's scan for a link that has come back: it finds the link's own VF exactly when no stat on a
   lower number fails for another reason than absence; otherwise the number of such a failure is taken.
   */
  lemma LocateExact(w: World, h: State, id: VfId, i: nat, total: int)
    requires Inv(h) && id in h.vfLinks && h.vfLinks[id] == [i]
    requires h.links[i].ns == Init && h.links[i].name == Dev(i) && id.num < total
    ensures var r := Locate(w, h, id.pf, 0, total, Dev(i));
            && r.r.Num? && 0 <= r.r.num <= id.num && SameButClock(r.h, h) && r.h.clock > h.clock
            && (r.r == Num(id.num) <==> forall c: nat | h.clock <= c < h.clock + id.num :: w(c).ok)
            && (r.r.num < id.num ==> !w(h.clock + r.r.num).ok)
  {
    hide Dev, Inv;
    OnlyAtOwn(h, id, i);
    hide *;
    LocateNumber(w, h, id.pf, Dev(i), id.num, 0, total);
  }

  lemma OnlyAtOwn(h: State, id: VfId, i: nat)
    requires Inv(h) && id in h.vfLinks && h.vfLinks[id] == [i]
    requires h.links[i].ns == Init && h.links[i].name == Dev(i)
    ensures OnlyAt(h, id.pf, Dev(i), id.num)
  {
    forall v: nat ensures Dev(i) in NetDir(h, VfId(id.pf, v)) <==> v == id.num {
      OnlyOwnDir(h, id, i, VfId(id.pf, v));
    }
  }

  lemma StatOutcome(w: World, h: State, id: VfId, name: string)
    ensures var s := Exec(w, h, StatLink(id, name));
            s.h == h.(clock := h.clock + 1) && (s.r == Absent <==> w(h.clock).ok && name !in NetDir(h, id))
  {
  }

  /** With one failing stat on a lower number the vlan of a VF that is not the link's is the one reset. */
  lemma LocateCanMiss(w: World, h: State, id: VfId, i: nat, total: int)
    requires Inv(h) && id in h.vfLinks && h.vfLinks[id] == [i]
    requires h.links[i].ns == Init && h.links[i].name == Dev(i)
    requires 0 < id.num < total && !w(h.clock).ok
    ensures Locate(w, h, id.pf, 0, total, Dev(i)).r == Num(0)
  {
  }

  // ----- each part of the release, when its calls work -----

  lemma EnterAndReturnOk(w: World, h: State, pod: nat, ifName: string, i: nat)
    requires UniqueNames(h.links) && DevOk(h.links, Init) && DevOk(h.links, Pod(pod))
    requires At(h.links, i, Pod(pod), ifName) && AllOk(w, h.clock)
    ensures var r := EnterAndReturn(w, h, pod, ifName);
            r.r == Index(i) && SameButClock(r.h, h.(links := h.links[i := Back(h.links[i], i)])) && r.h.clock > h.clock
  {
    var e := h.(clock := h.clock + 2);
    BringBackOk(w, e, pod, ifName, i);
    TwoProbes(w, h);
  }

  lemma TwoProbes(w: World, h: State)
    requires AllOk(w, h.clock)
    ensures Exec(w, h, Probe) == Ran(h.(clock := h.clock + 1), Ok)
    ensures Exec(w, h.(clock := h.clock + 1), Probe) == Ran(h.(clock := h.clock + 2), Ok)
  {
  }

  lemma RenameOk(w: World, h: State, ns: Ns, cur: string, name: string, i: nat)
    requires UniqueNames(h.links) && At(h.links, i, ns, cur) && AllOk(w, h.clock)
    requires !h.links[i].up && !Taken(h.links, i, ns, name)
    ensures Rename(w, h, ns, cur, name) ==
            Ran(h.(clock := h.clock + 2, links := h.links[i := h.links[i].(name := name)]), Ok)
  {
    FindUnique(h.links, i, ns, cur);
  }

  lemma BringBackOk(w: World, h: State, pod: nat, ifName: string, i: nat)
    requires UniqueNames(h.links) && DevOk(h.links, Init) && DevOk(h.links, Pod(pod))
    requires At(h.links, i, Pod(pod), ifName) && AllOk(w, h.clock)
    ensures BringBack(w, h, pod, ifName) ==
            Ran(h.(clock := h.clock + 5, links := h.links[i := Back(h.links[i], i)]), Index(i))
  {
    hide Exec, Rename;
    var l := h.links[i];
    var down := h.links[i := l.(up := false)];
    var named := h.links[i := l.(up := false, name := Dev(i))];
    LinkByNameOk(w, h, Pod(pod), ifName, i);
    SetDownOk(w, h.(clock := h.clock + 1), i);
    DevFree(h.links, down, i, pod);
    RenameOk(w, h.(clock := h.clock + 2, links := down), Pod(pod), ifName, Dev(i), i);
    assert down[i := down[i].(name := Dev(i))] == named;
    DevFreeInInit(h.links, named, i);
    SetNsOk(w, h.(clock := h.clock + 4, links := named), i, Init);
    assert named[i := Back(l, i)] == h.links[i := Back(l, i)];
  }

  lemma LinkByNameOk(w: World, h: State, ns: Ns, name: string, i: nat)
    requires UniqueNames(h.links) && At(h.links, i, ns, name) && AllOk(w, h.clock)
    ensures Exec(w, h, LinkByName(ns, name)) == Ran(h.(clock := h.clock + 1), Index(i))
  {
    FindUnique(h.links, i, ns, name);
  }

  lemma SetDownOk(w: World, h: State, i: nat)
    requires AllOk(w, h.clock) && i in h.links
    ensures Exec(w, h, SetDown(i)) ==
            Ran(h.(clock := h.clock + 1, links := h.links[i := h.links[i].(up := false)]), Ok)
  {
  }

  lemma SetNsOk(w: World, h: State, i: nat, ns: Ns)
    requires AllOk(w, h.clock) && i in h.links && !Taken(h.links, i, ns, h.links[i].name)
    ensures Exec(w, h, SetNs(i, ns)) ==
            Ran(h.(clock := h.clock + 1, links := h.links[i := h.links[i].(ns := ns, up := false)]), Ok)
  {
  }

  lemma DevFreeInInit(links: Links, named: Links, i: nat)
    requires DevOk(links, Init) && i in links && named.Keys == links.Keys
    requires forall j | j in links && j != i :: named[j] == links[j]
    ensures !Taken(named, i, Init, Dev(i))
  {
    assert forall j :: j != i && At(named, j, Init, Dev(i)) ==> At(links, j, Init, Dev(i));
  }

  /** Raising or lowering a link keeps names unique, and dev<i> is free for link i in its pod. */
  lemma DevFree(links: Links, down: Links, i: nat, pod: nat)
    requires UniqueNames(links) && DevOk(links, Pod(pod)) && i in links && links[i].ns == Pod(pod)
    requires down == links[i := links[i].(up := false)]
    ensures UniqueNames(down) && !Taken(down, i, Pod(pod), Dev(i))
  {
    assert forall j :: At(down, j, Pod(pod), Dev(i)) ==> At(links, j, Pod(pod), Dev(i));
  }

  lemma ResetVlanOk(w: World, h: State, id: VfId, i: nat)
    requires Inv(h) && AllOk(w, h.clock) && id in h.vfLinks && h.vfLinks[id] == [i]
    requires h.links[i].ns == Init && h.links[i].name == Dev(i)
    requires Find(h.links, Init, id.pf).Some?
    ensures var r := ResetVlan(w, h, id.pf, Dev(i));
            r.r == Ok && r.h.clock > h.clock && SameButClock(r.h, h.(vfCfg := h.vfCfg[id := h.vfCfg[id].(vlan := 0)]))
  {
    var t := h.(clock := h.clock + 1);
    var total := h.totals[id.pf];
    assert Exec(w, h, NumVfs(id.pf)) == Ran(t, Num(total));
    LocateExact(w, t, id, i, total);
    var v := Locate(w, t, id.pf, 0, total, Dev(i));
    assert VfId(id.pf, v.r.num) == id;
    SetVlanOk(w, v.h, id);
  }

  lemma SetVlanOk(w: World, h: State, id: VfId)
    requires AllOk(w, h.clock) && Find(h.links, Init, id.pf).Some? && id in h.vfCfg
    ensures var l := Exec(w, h, LinkByName(Init, id.pf));
            && l.r.Index?
            && Exec(w, l.h, SetVlan(id, 0)) ==
               Ran(h.(clock := h.clock + 2, vfCfg := h.vfCfg[id := h.vfCfg[id].(vlan := 0)]), Ok)
  {
  }

  /** The vlan reset on the VF whose link has come back. */
  lemma MaybeResetVlanOk(w: World, h: State, vlan: int, id: VfId, i: nat)
    requires Inv(h) && AllOk(w, h.clock) && id in h.vfLinks && h.vfLinks[id] == [i]
    requires h.links[i].ns == Init && h.links[i].name == Dev(i)
    requires Find(h.links, Init, id.pf).Some?
    ensures var r := MaybeResetVlan(w, h, vlan, id.pf, Dev(i));
            r.r == Ok && r.h.clock >= h.clock &&
            SameButClock(r.h, if vlan == 0 then h else h.(vfCfg := h.vfCfg[id := h.vfCfg[id].(vlan := 0)]))
  {
    if vlan != 0 {
      TwoProbes(w, h);
      ResetVlanOk(w, h.(clock := h.clock + 1), id, i);
    }
  }

  lemma ResetRatesOk(w: World, h: State, id: VfId)
    requires AllOk(w, h.clock) && id in h.vfCfg
    ensures var r := ResetRates(w, h, id);
            && r.r == Ok && r.h.clock > h.clock
            && SameButClock(r.h, h.(vfCfg := h.vfCfg[id := h.vfCfg[id].(minRate := 0, maxRate := 0)]))
  {
  }

  lemma ConsumeOk(w: World, h: State, key: string)
    requires AllOk(w, h.clock) && key in h.store
    ensures Consume(w, h, key) == Ran(h.(clock := h.clock + 2, store := h.store - {key}), Data(h.store[key]))
  {
  }

  /** Without a record nothing is read and the removal finds nothing, whichever calls work. */
  lemma ConsumeNothing(w: World, h: State, key: string)
    requires key !in h.store
    ensures Consume(w, h, key) == Ran(h.(clock := h.clock + 2), Fail)
  {
    assert h.store - {key} == h.store;
  }

  /** A missing record ends a release before it changes anything, whichever calls work. */
  lemma NoRecordNoRelease(w: World, h: State, a: Args, pod: nat, ifc: Iface, pfs: seq<PfInfo>)
    requires Key(a.cid, ifc.name) !in h.store
    ensures var r := ReleaseCustom(w, h, a, pod, ifc, pfs);
            r.exit == Done(false) && SameButClock(r.h, h) && r.h.clock > h.clock
  {
    var o := Exec(w, h, Probe);
    ConsumeNothing(w, o.h, Key(a.cid, ifc.name));
  }

  // ----- one release -----

  /** The host with one link back, its VF reset and its record gone. */
  function Freed(h: State, i: nat, id: VfId, key: string, vlan: int): State
    requires i in h.links && id in h.vfCfg
  {
    h.(links := h.links[i := Back(h.links[i], i)],
       vfCfg := h.vfCfg[id := Reset(h.vfCfg[id], vlan)],
       store := h.store - {key})
  }

  /** The two resets one after the other: the vlan, if one was configured, then the rates. */
  lemma BothResets(w: World, h: State, vlan: int, id: VfId, i: nat)
    requires Inv(h) && AllOk(w, h.clock) && id in h.vfLinks && h.vfLinks[id] == [i]
    requires h.links[i].ns == Init && h.links[i].name == Dev(i)
    requires Find(h.links, Init, id.pf).Some?
    ensures var v := MaybeResetVlan(w, h, vlan, id.pf, Dev(i));
            var r := ResetRates(w, v.h, id);
            && v.r == Ok && r.r == Ok && r.h.clock >= h.clock
            && SameButClock(r.h, h.(vfCfg := h.vfCfg[id := Reset(h.vfCfg[id], vlan)]))
  {
    assert id in h.vfCfg;
    hide Exec, MaybeResetVlan, ResetRates, Inv, Dev, Find, AllOk, Reset;
    MaybeResetVlanOk(w, h, vlan, id, i);
    var v := MaybeResetVlan(w, h, vlan, id.pf, Dev(i)).h;
    LaterOk(w, h, v);
    ResetRatesOk(w, v, id);
    ResetInTwo(h.vfCfg, vlan, id);
  }

  lemma ResetInTwo(vfCfg: map<VfId, VfCfg>, vlan: int, id: VfId)
    requires id in vfCfg
    ensures var c := if vlan == 0 then vfCfg else vfCfg[id := vfCfg[id].(vlan := 0)];
            c[id := c[id].(minRate := 0, maxRate := 0)] == vfCfg[id := Reset(vfCfg[id], vlan)]
  {
  }

  lemma LaterOk(w: World, h: State, t: State)
    requires AllOk(w, h.clock) && t.clock >= h.clock
    ensures AllOk(w, t.clock)
  {
  }

  lemma FreeVfOk(w: World, h: State, vlan: int, id: VfId, i: nat)
    requires Inv(h) && AllOk(w, h.clock) && id in h.vfLinks && h.vfLinks[id] == [i]
    requires h.links[i].ns == Init && h.links[i].name == Dev(i)
    requires Find(h.links, Init, id.pf).Some?
    ensures var r := FreeVf(w, h, vlan, Some(id), Dev(i));
            && r.exit == Done(true) && r.h.clock >= h.clock
            && SameButClock(r.h, h.(vfCfg := h.vfCfg[id := Reset(h.vfCfg[id], vlan)]))
  {
    assert id in h.vfCfg;
    hide Exec, MaybeResetVlan, ResetRates, Inv, Dev, Find, AllOk;
    BothResets(w, h, vlan, id, i);
  }

  /**
   DEL's release of one interface: the link, the VF that owns it (found by address, and again by name for
   the vlan) and the record; everything else stays as it was.
   */
  lemma ReleaseCustomOk(w: World, h: State, a: Args, pod: nat, i: nat, id: VfId, pfs: seq<PfInfo>)
    requires Inv(h) && DevOk(h.links, Pod(pod)) && AllOk(w, h.clock)
    requires i in h.links && h.links[i].ns == Pod(pod) && IsEthName(h.links[i].name)
    requires Key(a.cid, h.links[i].name) in h.store
    requires id in h.vfLinks && h.vfLinks[id] == [i] && Find(h.links, Init, id.pf).Some?
    requires Faithful(pfs, h.links, h.vfLinks)
    ensures var r := ReleaseCustom(w, h, a, pod, Iface(h.links[i].name, h.links[i].mac), pfs);
            && r.exit == Done(true) && r.h.clock >= h.clock
            && SameButClock(r.h, Freed(h, i, id, Key(a.cid, h.links[i].name), a.vlan))
  {
    var name, key := h.links[i].name, Key(a.cid, h.links[i].name);
    TwoProbes(w, h);
    var o := h.(clock := h.clock + 1);
    ConsumeOk(w, o, key);
    var c := Consume(w, o, key).h;
    ConsumeKept(w, o, a.cid, name, pod);
    EnterAndReturnOk(w, c, pod, name, i);
    EnterAndReturnKept(w, c, pod, name, a.cid);
    var b := EnterAndReturn(w, c, pod, name).h;
    FindMacFinds(pfs, h, id);
    StillPresent(h.links, i, Back(h.links[i], i), id.pf);
    FreeVfOk(w, b, a.vlan, id, i);
  }

  /** Bringing a pod's link back hides no link of the initial namespace. */
  lemma StillPresent(links: Links, i: nat, l: Link, name: string)
    requires Find(links, Init, name).Some? && i in links && links[i].ns != Init
    ensures Find(links[i := l], Init, name).Some?
  {
    var j :| At(links, j, Init, name);
    assert At(links[i := l], j, Init, name);
  }

  // ----- the loop of DEL -----

  /** The VF of a link, on a physical function that is where resetVfVlan looks for it. */
  ghost predicate Owns(h: State, id: VfId, i: nat) {
    id in h.vfLinks && h.vfLinks[id] == [i] && Find(h.links, Init, id.pf).Some?
  }

  ghost predicate AllOwned(h: State, s: set<nat>) {
    forall i | i in s :: exists id :: Owns(h, id, i)
  }

  ghost function ReclaimableIn(h: State, pod: nat, cid: string, order: seq<nat>): set<nat> {
    set i | i in order && Reclaimable(h, pod, cid, i)
  }

  /** Different links of one pod have different records. */
  lemma OtherRecord(h: State, pod: nat, cid: string, i: nat, j: nat)
    requires UniqueNames(h.links) && i != j && i in h.links && j in h.links
    requires h.links[i].ns == Pod(pod) && h.links[j].ns == Pod(pod)
    requires IsEthName(h.links[i].name) && IsEthName(h.links[j].name)
    ensures Key(cid, h.links[i].name) != Key(cid, h.links[j].name)
  {
    if Key(cid, h.links[i].name) == Key(cid, h.links[j].name) {
      KeyInjective(cid, h.links[i].name, cid, h.links[j].name);
    }
  }

  /** What is left to reclaim after one release, seen from before it. */
  lemma ReclaimableRest(h: State, pod: nat, cid: string, order: seq<nat>, t: State)
    requires UniqueNames(h.links) && order != [] && order[0] !in order[1..]
    requires Reclaimable(h, pod, cid, order[0])
    requires t.links == h.links[order[0] := Back(h.links[order[0]], order[0])]
    requires t.store == h.store - {Key(cid, h.links[order[0]].name)}
    ensures ReclaimableIn(t, pod, cid, order[1..]) == ReclaimableIn(h, pod, cid, order) - {order[0]}
  {
    forall j | j in order[1..]
      ensures Reclaimable(t, pod, cid, j) <==> Reclaimable(h, pod, cid, j)
    {
      if Reclaimable(h, pod, cid, j) {
        OtherRecord(h, pod, cid, order[0], j);
      }
    }
    forall j ensures j in order <==> j == order[0] || j in order[1..] {
      assert order == [order[0]] + order[1..];
    }
  }

  lemma ReclaimedStep(h: State, s: set<nat>, i: nat, id: VfId, vlan: int, cid: string, t: State)
    requires Wired(h.links, h.vfLinks, h.vfCfg, h.totals) && i in s && i in h.links
    requires id in h.vfLinks && h.vfLinks[id] == [i]
    requires SameButClock(t, Freed(h, i, id, Key(cid, h.links[i].name), vlan))
    ensures Wired(t.links, t.vfLinks, t.vfCfg, t.totals)
    ensures SameButClock(Reclaimed(t, s - {i}, vlan, cid), Reclaimed(h, s, vlan, cid))
  {
    hide Key, Back, Reset, RecordOf, AllReset;
    var a, b := Reclaimed(t, s - {i}, vlan, cid), Reclaimed(h, s, vlan, cid);
    assert t.vfCfg.Keys == h.vfCfg.Keys;
    assert a.links == b.links;
    CfgStep(h.vfCfg, h.vfLinks, s, i, id, vlan);
    forall key ensures RecordOf(h, s, cid, key) <==>
        key == Key(cid, h.links[i].name) || RecordOf(t, s - {i}, cid, key) {
      RecordSplit(h, s, i, cid, key, t);
    }
    assert a.store == b.store;
  }

  lemma CfgStep(vfCfg: map<VfId, VfCfg>, vfLinks: VfMap, s: set<nat>, i: nat, id: VfId, vlan: int)
    requires forall v | v in vfCfg :: v in vfLinks && |vfLinks[v]| == 1
    requires forall v, u | v in vfLinks && u in vfLinks && vfLinks[v] == vfLinks[u] :: v == u
    requires i in s && id in vfCfg && vfLinks[id] == [i]
    ensures AllReset(vfCfg[id := Reset(vfCfg[id], vlan)], vfLinks, s - {i}, vlan) == AllReset(vfCfg, vfLinks, s, vlan)
  {
    hide Reset, AllReset;
    var one := vfCfg[id := Reset(vfCfg[id], vlan)];
    ResetKeys(one, vfLinks, s - {i}, vlan);
    ResetKeys(vfCfg, vfLinks, s, vlan);
    forall v | v in vfCfg ensures AllReset(one, vfLinks, s - {i}, vlan)[v] == AllReset(vfCfg, vfLinks, s, vlan)[v] {
      if v != id {
        OtherLink(vfLinks, id, v, i);
      }
    }
  }

  lemma OtherLink(vfLinks: VfMap, id: VfId, v: VfId, i: nat)
    requires forall v, u | v in vfLinks && u in vfLinks && vfLinks[v] == vfLinks[u] :: v == u
    requires id in vfLinks && v in vfLinks && v != id && vfLinks[id] == [i] && |vfLinks[v]| == 1
    ensures vfLinks[v][0] != i
  {
    assert vfLinks[v] == [vfLinks[v][0]];
  }

  lemma ResetKeys(vfCfg: map<VfId, VfCfg>, vfLinks: VfMap, s: set<nat>, vlan: int)
    requires forall v | v in vfCfg :: v in vfLinks && |vfLinks[v]| == 1
    ensures AllReset(vfCfg, vfLinks, s, vlan).Keys == vfCfg.Keys
    ensures forall v | v in vfCfg ::
              AllReset(vfCfg, vfLinks, s, vlan)[v] == if vfLinks[v][0] in s then Reset(vfCfg[v], vlan) else vfCfg[v]
  {
    hide Reset;
  }

  lemma RecordSplit(h: State, s: set<nat>, i: nat, cid: string, key: string, t: State)
    requires i in s && i in h.links && t.links == h.links[i := Back(h.links[i], i)]
    ensures RecordOf(h, s, cid, key) <==> key == Key(cid, h.links[i].name) || RecordOf(t, s - {i}, cid, key)
  {
    if RecordOf(h, s, cid, key) && key != Key(cid, h.links[i].name) {
      var j :| j in s && j in h.links && key == Key(cid, h.links[j].name);
      assert j in s - {i} && t.links[j] == h.links[j];
    }
    if RecordOf(t, s - {i}, cid, key) {
      var j :| j in s - {i} && j in t.links && key == Key(cid, t.links[j].name);
      assert t.links[j] == h.links[j];
    }
  }

  lemma ListingTail(links: Links, links': Links, order: seq<nat>)
    requires order != [] && forall k | 0 <= k < |order| :: order[k] in links
    requires forall k | 0 < k < |order| :: order[k] in links' && links'[order[k]] == links[order[k]]
    ensures Listing(links, order)[1..] == Listing(links', order[1..])
  {
  }

  /** The premises of the loop, for what is left of the snapshot. */
  ghost predicate Ready(w: World, h: State, pod: nat, cid: string, order: seq<nat>, pfs: seq<PfInfo>) {
    && Inv(h) && DevOk(h.links, Pod(pod)) && AllOk(w, h.clock)
    && (forall k | 0 <= k < |order| :: order[k] in h.links && h.links[order[k]].ns == Pod(pod))
    && (forall k, m | 0 <= k < m < |order| :: order[k] != order[m])
    && AllOwned(h, ReclaimableIn(h, pod, cid, order))
    && Faithful(pfs, h.links, h.vfLinks)
  }

  lemma SkippedRest(h: State, pod: nat, cid: string, order: seq<nat>, t: State)
    requires order != [] && !Reclaimable(h, pod, cid, order[0]) && SameButClock(t, h)
    ensures ReclaimableIn(t, pod, cid, order[1..]) == ReclaimableIn(h, pod, cid, order)
  {
    forall j ensures j in order <==> j == order[0] || j in order[1..] {
      assert order == [order[0]] + order[1..];
    }
  }

  lemma ReadySkip(w: World, h: State, pod: nat, cid: string, order: seq<nat>, pfs: seq<PfInfo>, t: State)
    requires Ready(w, h, pod, cid, order, pfs) && order != [] && !Reclaimable(h, pod, cid, order[0])
    requires SameButClock(t, h) && t.clock >= h.clock
    ensures Ready(w, t, pod, cid, order[1..], pfs)
    ensures ReclaimableIn(t, pod, cid, order[1..]) == ReclaimableIn(h, pod, cid, order)
  {
    hide DevOk, UniqueNames, Wired, Faithful;
    SkippedRest(h, pod, cid, order, t);
    forall i | i in ReclaimableIn(t, pod, cid, order[1..]) ensures exists id :: Owns(t, id, i) {
      var id :| Owns(h, id, i);
      assert Owns(t, id, i);
    }
  }

  lemma ReadyNext(w: World, h: State, pod: nat, cid: string, order: seq<nat>, pfs: seq<PfInfo>, id: VfId, vlan: int,
                  t: State)
    requires order != [] && t.clock >= h.clock && Owns(h, id, order[0]) && id in h.vfCfg && order[0] in h.links
    requires SameButClock(t, Freed(h, order[0], id, Key(cid, h.links[order[0]].name), vlan))
    ensures Ready(w, h, pod, cid, order, pfs) && Reclaimable(h, pod, cid, order[0]) ==>
              Inv(t) && DevOk(t.links, Pod(pod)) ==> Ready(w, t, pod, cid, order[1..], pfs)
  {
    hide DevOk, UniqueNames, Wired;
    if Ready(w, h, pod, cid, order, pfs) && Reclaimable(h, pod, cid, order[0]) && Inv(t) && DevOk(t.links, Pod(pod)) {
      assert UniqueNames(h.links);
      ReclaimableRest(h, pod, cid, order, t);
      forall i | i in ReclaimableIn(t, pod, cid, order[1..]) ensures exists v :: Owns(t, v, i) {
        var v :| Owns(h, v, i);
        StillPresent(h.links, order[0], Back(h.links[order[0]], order[0]), v.pf);
        assert Owns(t, v, i);
      }
      SameAddresses(pfs, h.links, t.links, h.vfLinks);
    }
  }

  lemma SameAddresses(pfs: seq<PfInfo>, links: Links, links': Links, vfLinks: VfMap)
    requires Faithful(pfs, links, vfLinks) && links'.Keys == links.Keys
    requires forall i | i in links :: links'[i].mac == links[i].mac
    ensures Faithful(pfs, links', vfLinks)
  {
  }

  /** The loop over what is left of the snapshot reclaims exactly the reclaimable links in it. */
  lemma {:induction false} DelLoopExact(w: World, h: State, a: Args, pod: nat, order: seq<nat>, pfs: seq<PfInfo>)
    requires Ready(w, h, pod, a.cid, order, pfs)
    ensures var r := DelLoop(w, h, a, pod, Listing(h.links, order), pfs);
            && r.exit == Done(true) && r.h.clock >= h.clock
            && SameButClock(r.h, Reclaimed(h, ReclaimableIn(h, pod, a.cid, order), a.vlan, a.cid))
    decreases |order|
  {
    hide DevOk, UniqueNames, Faithful, Exec, ReleaseCustom, AllOk, IsEthName, AllOwned, Find;
    var s := ReclaimableIn(h, pod, a.cid, order);
    if order == [] {
      NothingReclaimed(h, s, a.vlan, a.cid);
    } else {
      var i := order[0];
      var ifc := Listing(h.links, order)[0];
      if !Reclaimable(h, pod, a.cid, i) {
        NotReclaimable(w, h, a, pod, ifc, pfs);
        var t := if IsEthName(ifc.name) then ReleaseCustom(w, h, a, pod, ifc, pfs).h else h;
        ReadySkip(w, h, pod, a.cid, order, pfs, t);
        ListingTail(h.links, t.links, order);
        DelLoopExact(w, t, a, pod, order[1..], pfs);
      } else {
        LoopStep(w, h, a, pod, order, pfs);
      }
    }
  }

  lemma NothingReclaimed(h: State, s: set<nat>, vlan: int, cid: string)
    requires Wired(h.links, h.vfLinks, h.vfCfg, h.totals) && s == {}
    ensures Reclaimed(h, s, vlan, cid) == h
  {
    var r := Reclaimed(h, s, vlan, cid);
    assert r.links == h.links && r.vfCfg == h.vfCfg && r.store == h.store;
  }

  lemma NotReclaimable(w: World, h: State, a: Args, pod: nat, ifc: Iface, pfs: seq<PfInfo>)
    requires IsEthName(ifc.name) ==> Key(a.cid, ifc.name) !in h.store
    ensures IsEthName(ifc.name) ==>
              var r := ReleaseCustom(w, h, a, pod, ifc, pfs);
              r.exit == Done(false) && SameButClock(r.h, h) && r.h.clock > h.clock
  {
    if IsEthName(ifc.name) {
      NoRecordNoRelease(w, h, a, pod, ifc, pfs);
    }
  }

  lemma LoopStep(w: World, h: State, a: Args, pod: nat, order: seq<nat>, pfs: seq<PfInfo>)
    requires Ready(w, h, pod, a.cid, order, pfs) && order != [] && Reclaimable(h, pod, a.cid, order[0])
    ensures var r := DelLoop(w, h, a, pod, Listing(h.links, order), pfs);
            && r.exit == Done(true) && r.h.clock >= h.clock
            && SameButClock(r.h, Reclaimed(h, ReclaimableIn(h, pod, a.cid, order), a.vlan, a.cid))
    decreases |order|, 0
  {
    hide DevOk, UniqueNames, Faithful, Exec, ReleaseCustom, AllOk, IsEthName, Find;
    var s := ReclaimableIn(h, pod, a.cid, order);
    var i := order[0];
    var ifc := Listing(h.links, order)[0];
    assert i in s;
    var id :| Owns(h, id, i);
    ReleaseCustomOk(w, h, a, pod, i, id, pfs);
    ReleaseCustomKept(w, h, a, pod, ifc, pfs);
    var t := ReleaseCustom(w, h, a, pod, ifc, pfs).h;
    ReadyNext(w, h, pod, a.cid, order, pfs, id, a.vlan, t);
    ReclaimableRest(h, pod, a.cid, order, t);
    ListingTail(h.links, t.links, order);
    DelLoopExact(w, t, a, pod, order[1..], pfs);
    ReclaimedStep(h, s, i, id, a.vlan, a.cid, t);
  }

  // ----- DEL as a whole -----

  /** The moment at which DEL lists the interfaces of the pod; the query for the addresses comes next. */
  function ListTime(h: State, a: Args): nat {
    h.clock + if a.ipam then 1 else 0
  }

  /** Every call works, and the two answers describe this host. */
  ghost predicate Cooperates(w: World, h: State, a: Args, pod: nat) {
    && AllOk(w, h.clock)
    && Enumerates(h.links, Pod(pod), w(ListTime(h, a)).order)
    && Faithful(w(ListTime(h, a) + 1).table, h.links, h.vfLinks)
  }

  lemma AllOfThem(h: State, t: State, pod: nat, cid: string, order: seq<nat>, vlan: int, s: set<nat>)
    requires Inv(h) && SameButClock(t, h) && Enumerates(h.links, Pod(pod), order)
    ensures ReclaimableIn(t, pod, cid, order) == ReclaimSet(h, pod, cid)
    ensures SameButClock(Reclaimed(t, s, vlan, cid), Reclaimed(h, s, vlan, cid))
  {
    hide IsEthName, UniqueNames, DevOk;
    forall key ensures RecordOf(t, s, cid, key) <==> RecordOf(h, s, cid, key) {
    }
    assert Reclaimed(t, s, vlan, cid).store == Reclaimed(h, s, vlan, cid).store;
  }

  /**
   When its calls work DEL reclaims exactly the links that are in the pod, have an eth-name and a record of
   this container: back in the initial namespace as dev<index>, down, their VF's rates (and a configured
   vlan) zero, the record gone. No other link, VF or record changes.
   */
  lemma DelExact(w: World, h: State, a: Args, pod: nat)
    requires Inv(h) && a.ns == Some(pod) && DevOk(h.links, Pod(pod)) && Cooperates(w, h, a, pod)
    requires AllOwned(h, ReclaimSet(h, pod, a.cid))
    ensures var r := Del(w, h, a);
            && r.exit == Done(true)
            && SameButClock(r.h, Reclaimed(h, ReclaimSet(h, pod, a.cid), a.vlan, a.cid))
  {
    var order := w(ListTime(h, a)).order;
    var pfs := w(ListTime(h, a) + 1).table;
    var t := h.(clock := ListTime(h, a) + 2);
    Answered(w, h, a, pod);
    hide Del, DelLoop, Exec, Inv, DevOk, Reclaimed, ReclaimSet, AllOwned, AllOk, Faithful, SameButClock, Enumerates,
        Listing, Cooperates;
    OnlyLater(h, ListTime(h, a) + 2);
    Asked(w, h, a, pod);
    LoopOnSnapshot(w, h, t, a, pod, order, pfs);
  }

  lemma Answered(w: World, h: State, a: Args, pod: nat)
    requires Cooperates(w, h, a, pod)
    ensures AllOk(w, h.clock) && Enumerates(h.links, Pod(pod), w(ListTime(h, a)).order)
    ensures forall k | 0 <= k < |w(ListTime(h, a)).order| :: w(ListTime(h, a)).order[k] in h.links
    ensures Faithful(w(ListTime(h, a) + 1).table, h.links, h.vfLinks)
  {
    hide Faithful;
  }

  lemma LoopOnSnapshot(w: World, h: State, t: State, a: Args, pod: nat, order: seq<nat>, pfs: seq<PfInfo>)
    requires Inv(h) && DevOk(h.links, Pod(pod)) && AllOk(w, h.clock) && SameButClock(t, h) && t.clock >= h.clock
    requires Enumerates(h.links, Pod(pod), order) && Faithful(pfs, h.links, h.vfLinks)
    requires AllOwned(h, ReclaimSet(h, pod, a.cid))
    ensures var r := DelLoop(w, t, a, pod, Listing(h.links, order), pfs);
            && r.exit == Done(true)
            && SameButClock(r.h, Reclaimed(h, ReclaimSet(h, pod, a.cid), a.vlan, a.cid))
  {
    assert t.links == h.links;
    hide DelLoop, Exec, UniqueNames, Wired, DevOk, Reclaimed, ReclaimSet, ReclaimableIn, Ready, AllOwned, AllOk,
        Faithful;
    AllOfThem(h, t, pod, a.cid, order, a.vlan, ReclaimSet(h, pod, a.cid));
    LoopReady(w, h, t, pod, a.cid, order, pfs);
    hide Enumerates;
    DelLoopExact(w, t, a, pod, order, pfs);
    hide SameButClock;
    SameTrans(DelLoop(w, t, a, pod, Listing(h.links, order), pfs).h,
              Reclaimed(t, ReclaimSet(h, pod, a.cid), a.vlan, a.cid),
              Reclaimed(h, ReclaimSet(h, pod, a.cid), a.vlan, a.cid));
  }

  lemma OnlyLater(h: State, clock: nat)
    ensures SameButClock(h.(clock := clock), h)
  {
  }

  lemma SameTrans(a: State, b: State, c: State)
    requires SameButClock(a, b) && SameButClock(b, c)
    ensures SameButClock(a, c)
  {
  }

  lemma LoopReady(w: World, h: State, t: State, pod: nat, cid: string, order: seq<nat>, pfs: seq<PfInfo>)
    requires Inv(h) && DevOk(h.links, Pod(pod)) && AllOk(w, h.clock) && SameButClock(t, h) && t.clock >= h.clock
    requires Enumerates(h.links, Pod(pod), order) && Faithful(pfs, h.links, h.vfLinks)
    requires AllOwned(h, ReclaimSet(h, pod, cid))
    ensures Ready(w, t, pod, cid, order, pfs)
  {
    hide DevOk, UniqueNames, Wired, Faithful, IsEthName, Key;
    forall i | i in ReclaimableIn(t, pod, cid, order) ensures exists id :: Owns(t, id, i) {
      assert i in ReclaimSet(h, pod, cid);
      var id :| Owns(h, id, i);
      assert Owns(t, id, i);
    }
  }

  /** What DEL has in hand when its loop starts. */
  lemma Asked(w: World, h: State, a: Args, pod: nat)
    requires a.ns == Some(pod) && Cooperates(w, h, a, pod)
    ensures var order := w(ListTime(h, a)).order;
            Del(w, h, a) == DelLoop(w, h.(clock := ListTime(h, a) + 2), a, pod, Listing(h.links, order),
                w(ListTime(h, a) + 1).table)
  {
    hide DelLoop, Faithful, Exec, Enumerates;
    var b := h.(clock := ListTime(h, a));
    AnswersOf(w, h, b, pod);
  }

  lemma AnswersOf(w: World, h: State, b: State, pod: nat)
    requires AllOk(w, h.clock) && SameButClock(b, h) && b.clock >= h.clock
    requires Enumerates(h.links, Pod(pod), w(b.clock).order)
    ensures Exec(w, h, IpamDel) == Ran(h.(clock := h.clock + 1), Ok)
    ensures Exec(w, b, ListNs(Pod(pod))) ==
            Ran(h.(clock := b.clock + 1), Ifaces(Listing(h.links, w(b.clock).order)))
    ensures Exec(w, h.(clock := b.clock + 1), Query) ==
            Ran(h.(clock := b.clock + 2), Table(w(b.clock + 1).table))
  {
  }

  lemma NothingLeft(h: State, pod: nat, vlan: int, cid: string, t: State)
    requires Wired(h.links, h.vfLinks, h.vfCfg, h.totals)
    requires SameButClock(t, Reclaimed(h, ReclaimSet(h, pod, cid), vlan, cid))
    ensures ReclaimSet(t, pod, cid) == {}
  {
    hide IsEthName, Key, Dev;
    forall i | i in t.links ensures !Reclaimable(t, pod, cid, i) {
      if i !in ReclaimSet(h, pod, cid) {
        assert t.links[i] == h.links[i];
      }
    }
  }

  lemma {:induction false} LoopIdle(w: World, h: State, a: Args, pod: nat, ifaces: seq<Iface>, pfs: seq<PfInfo>)
    requires forall k | 0 <= k < |ifaces| :: IsEthName(ifaces[k].name) ==> Key(a.cid, ifaces[k].name) !in h.store
    ensures var r := DelLoop(w, h, a, pod, ifaces, pfs);
            r.exit == Done(true) && SameButClock(r.h, h)
    decreases |ifaces|
  {
    hide IsEthName, Key, ReleaseCustom;
    if ifaces != [] {
      NotReclaimable(w, h, a, pod, ifaces[0], pfs);
      LoopIdle(w, if IsEthName(ifaces[0].name) then ReleaseCustom(w, h, a, pod, ifaces[0], pfs).h else h,
               a, pod, ifaces[1..], pfs);
    }
  }

  lemma ListedIdle(w: World, h: State, a: Args, pod: nat, pfs: seq<PfInfo>, t: State, order: seq<nat>)
    requires ReclaimSet(h, pod, a.cid) == {} && Enumerates(h.links, Pod(pod), order) && SameButClock(t, h)
    ensures var r := DelLoop(w, t, a, pod, Listing(h.links, order), pfs);
            r.exit == Done(true) && SameButClock(r.h, h)
  {
    hide IsEthName, Key, DelLoop;
    assert forall i | i in h.links :: i !in ReclaimSet(h, pod, a.cid);
    assert forall k | 0 <= k < |order| :: !Reclaimable(h, pod, a.cid, order[k]);
    LoopIdle(w, t, a, pod, Listing(h.links, order), pfs);
  }

  /** Calls that only ask, and what two of them answer. */
  lemma AsksOnly(w: World, h: State, op: Op)
    requires op.PodInfo? || op.Query? || op.Place? || op.Probe? || op.IpamDel? || op.ListNs?
    ensures SameButClock(Exec(w, h, op).h, h)
    ensures op.Place? && Exec(w, h, op).r.Placed? ==> InBounds(Exec(w, h, op).r.placed, op.wanted, op.pfs)
    ensures op.ListNs? && Exec(w, h, op).r.Ifaces? ==>
              Enumerates(h.links, op.ns, w(h.clock).order)
                  && Exec(w, h, op).r.ifaces == Listing(h.links, w(h.clock).order)
  {
  }

  /** With nothing to reclaim DEL changes nothing and never panics, whichever of its calls work. */
  lemma DelIdle(w: World, h: State, a: Args)
    requires a.ns.Some? ==> ReclaimSet(h, a.ns.value, a.cid) == {}
    ensures SameButClock(Del(w, h, a).h, h) && !Del(w, h, a).exit.Crashed?
  {
    hide DelLoop, ReclaimSet, Exec, Enumerates;
    AsksOnly(w, h, IpamDel);
    var d := if a.ipam then Exec(w, h, IpamDel) else Ran(h, Ok);
    if d.r.Ok? && a.ns.Some? {
      var pod := a.ns.value;
      SameClaims(h, d.h, pod, a.cid);
      AsksOnly(w, d.h, ListNs(Pod(pod)));
      var l := Exec(w, d.h, ListNs(Pod(pod)));
      AsksOnly(w, l.h, Query);
      if l.r.Ifaces? {
        var q := Exec(w, l.h, Query);
        ListedIdle(w, d.h, a, pod, if q.r.Table? then q.r.table else [], q.h, w(d.h.clock).order);
      }
    }
  }

  lemma SameClaims(h: State, t: State, pod: nat, cid: string)
    requires SameButClock(t, h)
    ensures ReclaimSet(t, pod, cid) == ReclaimSet(h, pod, cid)
  {
    hide IsEthName, Key;
  }

  /** A second DEL changes neither links nor VFs nor records, even when its calls fail. */
  lemma DelTwice(w: World, w': World, h: State, a: Args, pod: nat)
    requires Inv(h) && a.ns == Some(pod) && DevOk(h.links, Pod(pod)) && Cooperates(w, h, a, pod)
    requires AllOwned(h, ReclaimSet(h, pod, a.cid))
    ensures SameButClock(Del(w', Del(w, h, a).h, a).h, Del(w, h, a).h)
  {
    hide Del, Cooperates;
    DelExact(w, h, a, pod);
    NothingLeft(h, pod, a.vlan, a.cid, Del(w, h, a).h);
    DelIdle(w', Del(w, h, a).h, a);
  }

  /** DEL after an ADD that ended in any way, failures of rollback included: name and record decide alone. */
  lemma DelAfterAnyAdd(w: World, w': World, h: State, a: Args, conf: bool, pod: nat)
    requires Inv(h) && a.ns == Some(pod) && DevOk(h.links, Pod(pod))
    requires var t := Add(w, h, a, conf).h;
             Cooperates(w', t, a, pod) && AllOwned(t, ReclaimSet(t, pod, a.cid))
    ensures var t := Add(w, h, a, conf).h;
            && Wired(t.links, t.vfLinks, t.vfCfg, t.totals)
            && SameButClock(Del(w', t, a).h, Reclaimed(t, ReclaimSet(t, pod, a.cid), a.vlan, a.cid))
  {
    hide Add, Del, Cooperates, AllOwned;
    AddKeepsInvariant(w, h, a, conf);
    DelExact(w', Add(w, h, a, conf).h, a, pod);
  }
}
