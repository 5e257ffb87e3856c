/** When DEL panics: a link to reclaim whose address the hardware table does not have. */
module Panic {
  import opened Text
  import opened Host
  import opened Lifecycle
  import opened HostInvariant
  import opened Reclaim

  // ----- what the two resets leave alone, whichever of their calls work -----

  ghost predicate OnlyCfg(h: State, t: State) {
    t == h.(clock := t.clock, vfCfg := t.vfCfg) && t.clock >= h.clock
  }

  lemma OtherCalls(w: World, h: State, op: Op)
    requires op.Probe? || op.NumVfs? || op.LinkByName? || op.StatLink? || op.SetVlan? || op.SetRates?
    ensures OnlyCfg(h, Exec(w, h, op).h)
  {
  }

  lemma {:induction false} LocateKeeps(w: World, h: State, pf: string, v: nat, total: int, name: string)
    ensures OnlyCfg(h, Locate(w, h, pf, v, total, name).h)
    decreases total - v
  {
    if v < total {
      OtherCalls(w, h, StatLink(VfId(pf, v), name));
      hide Exec;
      if Exec(w, h, StatLink(VfId(pf, v), name)).r.Absent? {
        LocateKeeps(w, Exec(w, h, StatLink(VfId(pf, v), name)).h, pf, v + 1, total, name);
      }
    }
  }

  lemma ResetsKeep(w: World, h: State, vlan: int, pf: string, name: string, id: VfId)
    ensures OnlyCfg(h, MaybeResetVlan(w, h, vlan, pf, name).h)
    ensures OnlyCfg(h, ResetRates(w, h, id).h)
  {
    hide Exec;
    OtherCalls(w, h, Probe);
    var e := Exec(w, h, Probe);
    OtherCalls(w, e.h, SetRates(id, Rates(0, 0)));
    if vlan != 0 && e.r.Ok? {
      OtherCalls(w, e.h, NumVfs(pf));
      var t := Exec(w, e.h, NumVfs(pf));
      if t.r.Num? {
        LocateKeeps(w, t.h, pf, 0, t.r.num, name);
        var v := Locate(w, t.h, pf, 0, t.r.num, name);
        OtherCalls(w, v.h, LinkByName(Init, pf));
        if v.r.Num? && v.r.num >= 0 {
          OtherCalls(w, Exec(w, v.h, LinkByName(Init, pf)).h, SetVlan(VfId(pf, v.r.num), 0));
        }
      }
    }
  }

  // ----- one release -----

  lemma FreeVfPanics(w: World, h: State, vlan: int, found: Option<VfId>, dev: string)
    requires AllOk(w, h.clock) && "" !in h.totals
    ensures var r := FreeVf(w, h, vlan, found, dev);
            && OnlyCfg(h, r.h) && (r.exit.Crashed? <==> vlan == 0 && found.None?)
            && (found.None? ==> r.h.vfCfg == h.vfCfg && (vlan != 0 ==> r.exit == Done(false)))
  {
    var pf := if found.Some? then found.value.pf else "";
    ResetsKeep(w, h, vlan, pf, dev, VfId("", 0));
    var v := MaybeResetVlan(w, h, vlan, pf, dev);
    if found.Some? {
      ResetsKeep(w, v.h, vlan, pf, dev, found.value);
    } else {
      OtherCalls(w, v.h, Probe);
      NoDevice(w, h, vlan, dev);
    }
  }

  /** No device has an empty name, so with a vlan the reset for an unknown one fails. */
  lemma NoDevice(w: World, h: State, vlan: int, dev: string)
    requires AllOk(w, h.clock) && "" !in h.totals
    ensures var v := MaybeResetVlan(w, h, vlan, "", dev);
            && (v.r.Ok? <==> vlan == 0) && v.h.vfCfg == h.vfCfg
            && (vlan == 0 ==> Exec(w, v.h, Probe).r.Ok? && Exec(w, v.h, Probe).h.vfCfg == h.vfCfg)
  {
  }

  ghost predicate Unlisted(h: State, pfs: seq<PfInfo>, i: nat) {
    i in h.links && FindMac(pfs, h.links[i].mac).None?
  }

  /**
   One release with calls that work, whatever the table: the link is back and the record gone; the process
   panics exactly if no vlan is configured and the link's address is not in the table. With such an address no
   VF is reset: with a vlan the reset looks for an unnamed device first and fails on it.
   */
  lemma UnknownAddress(w: World, h: State, a: Args, pod: nat, i: nat, pfs: seq<PfInfo>)
    requires Inv(h) && DevOk(h.links, Pod(pod)) && AllOk(w, h.clock) && "" !in h.totals
    requires i in h.links && Reclaimable(h, pod, a.cid, i)
    ensures var r := ReleaseCustom(w, h, a, pod, Iface(h.links[i].name, h.links[i].mac), pfs);
            && (r.exit.Crashed? <==> a.vlan == 0 && Unlisted(h, pfs, i)) && r.h.clock >= h.clock
            && r.h.links == h.links[i := Back(h.links[i], i)]
            && r.h.store == h.store - {Key(a.cid, h.links[i].name)} && r.h.totals == h.totals
            && (Unlisted(h, pfs, i) ==> r.h.vfCfg == h.vfCfg && (a.vlan != 0 ==> r.exit == Done(false)))
  {
    hide FreeVf, EnterAndReturn, Consume, Key, Dev, UniqueNames, DevOk, Wired, IsEthName;
    var name, key := h.links[i].name, Key(a.cid, h.links[i].name);
    TwoProbes(w, h);
    hide Exec;
    var o := h.(clock := h.clock + 1);
    ConsumeOk(w, o, key);
    var c := Consume(w, o, key).h;
    EnterAndReturnOk(w, c, pod, name, i);
    FreeVfPanics(w, EnterAndReturn(w, c, pod, name).h, a.vlan, FindMac(pfs, h.links[i].mac), Dev(i));
  }

  // ----- DEL -----

  ghost predicate SomeUnlisted(h: State, pfs: seq<PfInfo>, s: set<nat>) {
    exists i :: i in s && Unlisted(h, pfs, i)
  }

  ghost predicate Walks(w: World, h: State, pod: nat, order: seq<nat>) {
    && Inv(h) && DevOk(h.links, Pod(pod)) && AllOk(w, h.clock) && "" !in h.totals
    && (forall k | 0 <= k < |order| :: order[k] in h.links && h.links[order[k]].ns == Pod(pod))
    && (forall k, m | 0 <= k < m < |order| :: order[k] != order[m])
  }

  lemma {:induction false} LoopPanics(w: World, h: State, a: Args, pod: nat, order: seq<nat>, pfs: seq<PfInfo>)
    requires Walks(w, h, pod, order)
    ensures DelLoop(w, h, a, pod, Listing(h.links, order), pfs).exit.Crashed? <==>
            a.vlan == 0 && SomeUnlisted(h, pfs, ReclaimableIn(h, pod, a.cid, order))
    decreases |order|
  {
    hide DevOk, UniqueNames, Wired, Exec, ReleaseCustom, AllOk, IsEthName, Key, Back, FindMac;
    if order != [] {
      var ifc := Listing(h.links, order)[0];
      if !Reclaimable(h, pod, a.cid, order[0]) {
        NotReclaimable(w, h, a, pod, ifc, pfs);
        var t := if IsEthName(ifc.name) then ReleaseCustom(w, h, a, pod, ifc, pfs).h else h;
        SkippedRest(h, pod, a.cid, order, t);
        ListingTail(h.links, t.links, order);
        LaterOk(w, h, t);
        LoopPanics(w, t, a, pod, order[1..], pfs);
      } else {
        PanicStep(w, h, a, pod, order, pfs);
      }
    }
  }

  lemma PanicStep(w: World, h: State, a: Args, pod: nat, order: seq<nat>, pfs: seq<PfInfo>)
    requires Walks(w, h, pod, order) && order != [] && Reclaimable(h, pod, a.cid, order[0])
    ensures DelLoop(w, h, a, pod, Listing(h.links, order), pfs).exit.Crashed? <==>
            a.vlan == 0 && SomeUnlisted(h, pfs, ReclaimableIn(h, pod, a.cid, order))
    decreases |order|, 0
  {
    hide DevOk, UniqueNames, Wired, Exec, ReleaseCustom, AllOk, IsEthName, Key, FindMac, Dev;
    var i := order[0];
    var ifc := Listing(h.links, order)[0];
    assert i in ReclaimableIn(h, pod, a.cid, order);
    UnknownAddress(w, h, a, pod, i, pfs);
    ReleaseCustomKept(w, h, a, pod, ifc, pfs);
    var r := ReleaseCustom(w, h, a, pod, ifc, pfs);
    if !r.exit.Crashed? {
      ReclaimableRest(h, pod, a.cid, order, r.h);
      ListingTail(h.links, r.h.links, order);
      LaterOk(w, h, r.h);
      LoopPanics(w, r.h, a, pod, order[1..], pfs);
      forall j ensures Unlisted(r.h, pfs, j) <==> Unlisted(h, pfs, j) {
      }
    }
  }

  /** Every call works but perhaps the query for the addresses; the listing lists the pod. */
  ghost predicate AnswersBut(w: World, h: State, a: Args, pod: nat) {
    && (forall n: nat | n >= h.clock && n != ListTime(h, a) + 1 :: w(n).ok)
    && Enumerates(h.links, Pod(pod), w(ListTime(h, a)).order)
  }

  /** The table DEL works with: empty if the query fails. */
  function TableOf(w: World, h: State, a: Args): seq<PfInfo> {
    var f := w(ListTime(h, a) + 1);
    if f.ok then f.table else []
  }

  lemma AskedAnyway(w: World, h: State, a: Args, pod: nat)
    requires a.ns == Some(pod) && AnswersBut(w, h, a, pod)
    ensures var order := w(ListTime(h, a)).order;
            Del(w, h, a) ==
            DelLoop(w, h.(clock := ListTime(h, a) + 2), a, pod, Listing(h.links, order), TableOf(w, h, a))
  {
    hide DelLoop, Exec, Enumerates;
    ListingAnswer(w, h, h.(clock := ListTime(h, a)), pod);
    QueryAnswer(w, h.(clock := ListTime(h, a) + 1));
    if a.ipam {
      IpamAnswer(w, h);
    }
  }

  lemma IpamAnswer(w: World, h: State)
    requires w(h.clock).ok
    ensures Exec(w, h, IpamDel) == Ran(h.(clock := h.clock + 1), Ok)
  {
  }

  lemma ListingAnswer(w: World, h: State, b: State, pod: nat)
    requires w(b.clock).ok && SameButClock(b, h) && Enumerates(h.links, Pod(pod), w(b.clock).order)
    ensures Exec(w, b, ListNs(Pod(pod))) ==
            Ran(h.(clock := b.clock + 1), Ifaces(Listing(h.links, w(b.clock).order)))
  {
  }

  lemma QueryAnswer(w: World, h: State)
    ensures Exec(w, h, Query) == Ran(h.(clock := h.clock + 1), if w(h.clock).ok then Table(w(h.clock).table) else Fail)
  {
  }

  /**
   DEL with calls that work panics exactly if no vlan is configured and some link it reclaims has an address
   that the table does not have. If the query itself fails, that is every link it reclaims.
   */
  lemma DelPanics(w: World, h: State, a: Args, pod: nat)
    requires Inv(h) && a.ns == Some(pod) && DevOk(h.links, Pod(pod)) && "" !in h.totals && AnswersBut(w, h, a, pod)
    ensures Del(w, h, a).exit.Crashed? <==>
            a.vlan == 0 && SomeUnlisted(h, TableOf(w, h, a), ReclaimSet(h, pod, a.cid))
    ensures !w(ListTime(h, a) + 1).ok ==>
              (Del(w, h, a).exit.Crashed? <==> a.vlan == 0 && ReclaimSet(h, pod, a.cid) != {})
  {
    AskedAnyway(w, h, a, pod);
    hide Del, DelLoop, Inv, DevOk, IsEthName, Key, FindMac, Walks;
    var order := w(ListTime(h, a)).order;
    var t := h.(clock := ListTime(h, a) + 2);
    WalksAll(w, h, t, a, pod, order);
    ListedClaims(h, t, pod, a.cid, order);
    hide Reclaimable, ReclaimSet, ReclaimableIn, Enumerates, TableOf;
    LoopPanics(w, t, a, pod, order, TableOf(w, h, a));
    SameUnlisted(h, t, TableOf(w, h, a), ReclaimSet(h, pod, a.cid));
    if !w(ListTime(h, a) + 1).ok {
      NoTable(w, h, a);
      ClaimsAreLinks(h, pod, a.cid);
      NobodyListed(h, ReclaimSet(h, pod, a.cid));
    }
  }

  lemma NoTable(w: World, h: State, a: Args)
    requires !w(ListTime(h, a) + 1).ok
    ensures TableOf(w, h, a) == []
  {
  }

  lemma ClaimsAreLinks(h: State, pod: nat, cid: string)
    ensures forall i | i in ReclaimSet(h, pod, cid) :: i in h.links
  {
  }

  lemma SameUnlisted(h: State, t: State, pfs: seq<PfInfo>, s: set<nat>)
    requires t.links == h.links
    ensures SomeUnlisted(t, pfs, s) <==> SomeUnlisted(h, pfs, s)
  {
    assert forall i :: Unlisted(t, pfs, i) <==> Unlisted(h, pfs, i);
  }

  lemma ListedClaims(h: State, t: State, pod: nat, cid: string, order: seq<nat>)
    requires SameButClock(t, h) && Enumerates(h.links, Pod(pod), order)
    ensures ReclaimableIn(t, pod, cid, order) == ReclaimSet(h, pod, cid)
  {
    hide IsEthName, Key;
  }

  lemma WalksAll(w: World, h: State, t: State, a: Args, pod: nat, order: seq<nat>)
    requires Inv(h) && DevOk(h.links, Pod(pod)) && "" !in h.totals && AnswersBut(w, h, a, pod)
    requires order == w(ListTime(h, a)).order && t == h.(clock := ListTime(h, a) + 2)
    ensures Walks(w, t, pod, order)
  {
    hide UniqueNames, DevOk, Wired;
  }

  lemma NobodyListed(h: State, s: set<nat>)
    requires forall i | i in s :: i in h.links
    ensures SomeUnlisted(h, [], s) <==> s != {}
  {
    forall i | i in s ensures Unlisted(h, [], i) {
    }
    if s != {} {
      var i :| i in s;
    }
  }
}
