/** What is left of a failed ADD, on the whole host: when the promise of the rollback is kept. */
module Restore {
  import opened Text
  import opened Host
  import opened Lifecycle
  import opened HostInvariant
  import opened Reclaim
  import opened Placement
  import opened Progress
  import opened Partial
  import opened Rollback
  import opened AllBack

  // ----- the promise -----

  /** A link is as it was, or, if it was in the initial namespace, as a release leaves it. */
  predicate LinkBack(l: Link, l': Link, i: nat) {
    l' == l || (l.ns == Init && l' == Back(l, i))
  }

  /** The configuration of a VF is as it was, or as a release leaves it. */
  predicate CfgBack(c: VfCfg, c': VfCfg, vlan: int) {
    c' == c || c' == Reset(c, vlan)
  }

  /** No record is new or changed, and none has gone but of the first n interfaces. */
  ghost predicate RecordsBack(store: map<string, Record>, store': map<string, Record>, cid: string, n: nat) {
    && (forall key | key in store' :: key in store && store'[key] == store[key])
    && (forall key | key in store && key !in store' :: IsFirst(cid, n, key))
  }

  ghost predicate LinksBack(links: Links, links': Links) {
    links'.Keys == links.Keys && forall i | i in links :: LinkBack(links[i], links'[i], i)
  }

  ghost predicate CfgsBack(cfg: map<VfId, VfCfg>, cfg': map<VfId, VfCfg>, vlan: int) {
    cfg'.Keys == cfg.Keys && forall id | id in cfg :: CfgBack(cfg[id], cfg'[id], vlan)
  }

  /** All changes an ADD of n interfaces made between h and t are rolled back. */
  ghost predicate Restored(h: State, t: State, a: Args, n: nat) {
    && LinksBack(h.links, t.links) && CfgsBack(h.vfCfg, t.vfCfg, a.vlan)
    && RecordsBack(h.store, t.store, a.cid, n) && t.vfLinks == h.vfLinks && t.totals == h.totals
  }

  lemma RestoredIsHome(h: State, t: State, a: Args, n: nat)
    requires Restored(h, t, a, n)
    ensures Home(h, t.links)
  {
    hide Dev, Reset;
  }

  lemma RestoredClock(h: State, s: State, t: State, a: Args, n: nat)
    requires SameButClock(s, t)
    ensures Restored(h, s, a, n) <==> Restored(h, t, a, n)
  {
    hide LinksBack, CfgsBack, RecordsBack;
  }

  /** The rollback has dropped every lease that was registered, and released the first interface if it is there. */
  ghost predicate LeasesBack(t: State, pod: nat, leased: nat, actions: seq<Action>) {
    && actions == Drops(leased, 0) + (if Find(t.links, Pod(pod), Eth(0)).Some? then [Released(0)] else [])
    && forall j: nat | j < leased :: LeaseDropped(j) in actions
  }

  lemma {:induction false} DropsAll(m: nat)
    ensures forall j: nat | j < m :: LeaseDropped(j) in Drops(m, 0)
  {
    if m > 0 {
      DropsAll(m - 1);
    }
  }

  lemma LeasesByTurn(t: State, a: Args, pod: nat, k: nat, leased: nat, found: Option<nat>, links: Links,
                     actions: seq<Action>, moved: Option<nat>)
    requires Unwinds(t, a, pod, k, leased, found, links, actions) && BackByTurn(t, a, pod, k, moved)
    ensures LeasesBack(t, pod, leased, actions)
  {
    hide Eth, Key, Find, Drops, AfterRelease;
    DropsAll(leased);
    assert found.Some? ==> found.value == 0;
  }

  // ----- what decides it -----

  /** The request leaves no mark on this configuration: it asks for what is set, or for what a release sets. */
  predicate NoMark(c: VfCfg, vlan: int, vlanSet: bool, rates: Rates) {
    || (c.minRate == rates.min && c.maxRate == rates.max && (vlanSet ==> c.vlan == vlan))
    || (rates.min == 0 && rates.max == 0 && (vlan != 0 ==> c.vlan == 0 && !vlanSet))
  }

  lemma NoMarkExact(c: VfCfg, vlan: int, vlanSet: bool, rates: Rates)
    requires vlanSet ==> vlan != 0
    ensures CfgBack(c, SetTo(c, vlan, vlanSet, rates), vlan) <==> NoMark(c, vlan, vlanSet, rates)
  {
  }

  /** The failing turn picked no VF, or it left the VF's link alone and its request leaves no mark. */
  ghost predicate Spotless(h: State, t: State, pick: Option<Pick>, vlan: int, rates: Rates) {
    pick.Some? ==>
      var p := pick.value;
      && p.x in h.links && p.x in t.links && p.id in h.vfCfg
      && LinkBack(h.links[p.x], t.links[p.x], p.x) && NoMark(h.vfCfg[p.id], vlan, p.vlanSet, rates)
  }

  /** Before the ADD the pod has a link called eth0 with a record, which a rollback would take for its own. */
  ghost predicate ForeignEth0(h: State, a: Args, pod: nat) {
    Find(h.links, Pod(pod), Eth(0)).Some? && Key(a.cid, Eth(0)) in h.store
  }

  /**
   k turns are complete and one has failed on host t. Either it moved a link, was the first, and the link has its name
   and record. Or it moved none: then it has left no mark, and it was the first, without a foreign eth0 to be
   released, or the second, without a link called eth1.
   */
  ghost predicate Undoable(h: State, t: State, a: Args, pod: nat, k: nat, moved: Option<nat>, pick: Option<Pick>,
                           rates: Rates) {
    && BackByTurn(t, a, pod, k, moved)
    && (moved.None? ==> Spotless(h, t, pick, a.vlan, rates) && !(k == 0 && ForeignEth0(h, a, pod)))
  }

  /** What the rollback makes of the host p.h, when its calls work: one release at most, at a time at. */
  ghost predicate Rolled(w: World, p: Turn, r: State, a: Args, pod: nat, found: Option<nat>, at: State) {
    && Inv(p.h) && DevOk(p.h.links, Pod(pod)) && SameButClock(at, p.h) && AllOk(w, at.clock)
    && IsLast(p.h.links, pod, |p.answers| + 1, found) && |p.frames| > 0
    && p.frames[0].RollbackFrame? && (found.None? ==> r == at)
    && (found == Some(0) ==> r == Release(w, at, a, pod, Eth(0), p.frames[0].pf, p.frames[0].vf).h)
  }

  lemma RollbackHost(w: World, h: State, a: Args, pod: nat, pfs: seq<PfInfo>, reqs: seq<Rates>, placed: seq<nat>)
    returns (found: Option<nat>, at: State)
    requires Inv(h) && DevOk(h.links, Pod(pod)) && InBounds(placed, |reqs|, |pfs|)
    ensures var p := PlaceFrom(w, h, a, pod, pfs, reqs, placed, 0);
            FailedWithErr(w, p) ==>
              && Kept(h, p.h, pod, a.cid) && |p.answers| < |placed|
              && Rolled(w, p, AddBody(w, h, a, pod, pfs, reqs, placed).h, a, pod, found, at)
  {
    hide Search, AddBody, PlaceFrom, Release, UniqueNames, DevOk, Wired, Eth, Find, Key, Evolves, LastFound;
    var p := PlaceFrom(w, h, a, pod, pfs, reqs, placed, 0);
    found, at := RollbackExact(w, h, a, pod, pfs, reqs, placed);
    if FailedWithErr(w, p) {
      PlaceFromKept(w, h, a, pod, pfs, reqs, placed, 0);
      LastIsLast(w, p.h, pod, |p.answers| + 1, found, at.clock);
    }
  }

  // ----- the first turn fails without having moved a link -----

  lemma SameInPod(links: Links, links': Links, pod: nat, name: string)
    requires LeftBehind(links, links', pod, None)
    ensures forall i :: At(links', i, Pod(pod), name) <==> At(links, i, Pod(pod), name)
  {
  }

  /** Then the rollback changes nothing, unless it finds a foreign eth0 with a record, which it takes out of the pod. */
  lemma NothingMoved(w: World, h: State, t: State, at: State, r: State, a: Args, pod: nat, found: Option<nat>,
                     pf: string, vf: Option<nat>, n: nat)
    requires LeftBehind(h.links, t.links, pod, None) && t.store == h.store
    ensures Inv(t) && DevOk(t.links, Pod(pod)) && AllOk(w, at.clock) && SameButClock(at, t)
            && IsLast(t.links, pod, 1, found)
            && r == (if found.None? then at else Release(w, at, a, pod, Eth(0), pf, vf).h) ==>
              if ForeignEth0(h, a, pod) then !Restored(h, r, a, n) else SameButClock(r, t)
  {
    hide Release, Eth, Key, Dev, Inv, DevOk, LeftBehind, CfgsBack, RecordsBack;
    if !Inv(t) || !DevOk(t.links, Pod(pod)) || !AllOk(w, at.clock) || !SameButClock(at, t)
       || !IsLast(t.links, pod, 1, found)
       || r != (if found.None? then at else Release(w, at, a, pod, Eth(0), pf, vf).h) {
      return;
    }
    SameInPod(h.links, t.links, pod, Eth(0));
    FindIsAt(h.links, Pod(pod), Eth(0));
    FindIsAt(t.links, Pod(pod), Eth(0));
    if found.Some? {
      if Key(a.cid, Eth(0)) in h.store {
        var z := Find(t.links, Pod(pod), Eth(0)).value;
        InvClock(t, at, pod);
        ReleaseLinks(w, at, a, pod, Eth(0), pf, vf, z);
        assert r.links[z] == Back(t.links[z], z);
      } else {
        NoRecordNoRollback(w, at, a, pod, Eth(0), pf, vf);
      }
    }
  }

  /** What is left after such a turn is what it left on the VF it picked. */
  lemma SpotlessFirst(h: State, t: State, a: Args, rates: Rates, pick: Option<Pick>, n: nat)
    requires Touched(h, t, pick, a.vlan, rates) && t.store == h.store && t.vfLinks == h.vfLinks && t.totals == h.totals
    ensures Restored(h, t, a, n) <==> Spotless(h, t, pick, a.vlan, rates)
  {
    hide LinkBack, CfgBack, NoMark, SetTo;
    SelfBack();
    if pick.Some? {
      NoMarkExact(h.vfCfg[pick.value.id], a.vlan, pick.value.vlanSet, rates);
    }
  }

  lemma SelfBack()
    ensures forall l, i :: LinkBack(l, l, i)
    ensures forall c, vlan :: CfgBack(c, c, vlan)
  {
  }

  // ----- the first turn fails and its link has name and record -----

  lemma FirstUndone(h: State, t: State, a: Args, rates: Rates, p: Pick, n: nat)
    requires Touched(h, t, Some(p), a.vlan, rates) && (p.vlanSet <==> a.vlan != 0) && n > 0
    requires OnlyRecord(h.store, t.store, Key(a.cid, Eth(0))) && t.vfLinks == h.vfLinks && t.totals == h.totals
    ensures Restored(h, Freed(t, p.x, p.id, Key(a.cid, Eth(0)), a.vlan), a, n)
  {
    hide Key, Eth, Dev;
    assert IsFirst(a.cid, n, Key(a.cid, Eth(0)));
  }

  // ----- the second turn fails without having moved a link -----

  lemma SpotlessSecond(h: State, last: State, t: State, a: Args, pod: nat, given: set<nat>, rates: Rates,
                       pick: Option<Pick>, id: VfId, z: nat, n: nat)
    requires Inv(h) && Touched(last, t, pick, a.vlan, rates) && t.store == last.store && n > 0
    requires id in t.vfLinks && t.vfLinks[id] == [z] && id in t.vfCfg && z in given
    requires t.vfLinks == h.vfLinks && t.totals == h.totals && t.vfCfg.Keys == h.vfCfg.Keys
    ensures Gave(h, last, a, pod, given, 1) ==>
              (Restored(h, Freed(t, z, id, Key(a.cid, Eth(0)), a.vlan), a, n) <==> Spotless(h, t, pick, a.vlan, rates))
  {
    hide Key, Eth, LinkBack, CfgBack, NoMark, Named, UniqueNames, DevOk, Reset, Back;
    if !Gave(h, last, a, pod, given, 1) {
      return;
    }
    SelfBack();
    OnlyOne(given, z);
    var f := Freed(t, z, id, Key(a.cid, Eth(0)), a.vlan);
    SecondLinks(h.links, last.links, t.links, pod, given, z, pick);
    SecondCfgs(h, last, t, a.vlan, given, id, z, pick, rates);
    SecondRecords(h.store, last.store, a.cid, n);
  }

  lemma SecondLinks(links: Links, links': Links, links'': Links, pod: nat, given: set<nat>, z: nat, pick: Option<Pick>)
    requires LinksGiven(links, links', pod, given, 1) && given == {z}
    requires pick.None? ==> links'' == links'
    requires pick.Some? ==> OnlyLink(links', links'', pick.value.x) && links'[pick.value.x].ns == Init
    ensures pick.Some? ==> pick.value.x in links && pick.value.x in links''
    ensures z in links'' &&
            (LinksBack(links, links''[z := Back(links''[z], z)]) <==>
             pick.Some? ==> LinkBack(links[pick.value.x], links''[pick.value.x], pick.value.x))
  {
    hide Named, Dev;
  }

  lemma SecondCfgs(h: State, last: State, t: State, vlan: int, given: set<nat>, id: VfId, z: nat, pick: Option<Pick>,
                   rates: Rates)
    requires Wired(h.links, h.vfLinks, h.vfCfg, h.totals) && last.vfCfg.Keys == h.vfCfg.Keys
    requires CfgGiven(h, last, given, vlan) && given == {z} && id in h.vfLinks && h.vfLinks[id] == [z]
    requires last.vfLinks == h.vfLinks && Touched(last, t, pick, vlan, rates)
    requires pick.Some? ==> pick.value.x != z
    ensures id in t.vfCfg && (pick.Some? ==> pick.value.id in h.vfCfg)
    ensures CfgsBack(h.vfCfg, t.vfCfg[id := Reset(t.vfCfg[id], vlan)], vlan) <==>
            pick.Some? ==> NoMark(h.vfCfg[pick.value.id], vlan, pick.value.vlanSet, rates)
  {
    hide OnlyLink, Reset, SetTo, NoMark, CfgsBack;
    forall v | v in h.vfCfg && v != id ensures last.vfCfg[v] == h.vfCfg[v] {
      assert h.vfLinks[v] == [h.vfLinks[v][0]];
    }
    assert pick.Some? ==> pick.value.id != id;
    hide CfgGiven, Wired, Find;
    CfgsAfterTwo(h.vfCfg, last.vfCfg, t.vfCfg, vlan, id, pick, rates);
  }

  lemma CfgsAfterTwo(cfg: map<VfId, VfCfg>, last: map<VfId, VfCfg>, t: map<VfId, VfCfg>, vlan: int, id: VfId,
                     pick: Option<Pick>, rates: Rates)
    requires id in cfg && last.Keys == cfg.Keys && Reset(last[id], vlan) == Reset(cfg[id], vlan)
    requires forall v | v in cfg && v != id :: last[v] == cfg[v]
    requires match pick
             case None => t == last
             case Some(p) => p.id in cfg && p.id != id && (p.vlanSet ==> vlan != 0)
                             && t == last[p.id := SetTo(last[p.id], vlan, p.vlanSet, rates)]
    ensures CfgsBack(cfg, t[id := Reset(t[id], vlan)], vlan) <==>
            pick.Some? ==> NoMark(cfg[pick.value.id], vlan, pick.value.vlanSet, rates)
  {
    hide Reset, SetTo, NoMark, CfgBack;
    ResetIsBack(cfg[id], last[id], vlan);
    SelfBack();
    if pick.Some? {
      NoMarkExact(cfg[pick.value.id], vlan, pick.value.vlanSet, rates);
    }
  }

  lemma ResetIsBack(c: VfCfg, c': VfCfg, vlan: int)
    ensures Reset(c', vlan) == Reset(c, vlan) ==> CfgBack(c, Reset(c', vlan), vlan)
  {
  }

  lemma SecondRecords(store: map<string, Record>, store': map<string, Record>, cid: string, n: nat)
    requires StoreGiven(store, store', cid, 1) && n > 0
    ensures RecordsBack(store, store' - {Key(cid, Eth(0))}, cid, n)
  {
    hide Key, Eth;
    assert forall key :: IsFirst(cid, 1, key) ==> key == Key(cid, Eth(0));
    assert IsFirst(cid, n, Key(cid, Eth(0)));
  }

  // ----- the promise, measured -----

  /** The first turn fails without having moved a link. */
  lemma FirstUnmoved(w: World, h: State, last: State, p: Turn, r: State, a: Args, pod: nat, given: set<nat>, pf: string,
                     rates: Rates, pick: Option<Pick>, found: Option<nat>, at: State, n: nat)
    requires Inv(h) && |p.answers| == 0 && FailedAt(h, last, p.h, a, pod, 0, p.stop, given, None)
    requires TurnLeft(w, last, p, a, pod, pf, rates, None, pick) && Rolled(w, p, r, a, pod, found, at)
    requires p.h.vfLinks == h.vfLinks && p.h.totals == h.totals
    ensures Restored(h, r, a, n) <==> Spotless(h, p.h, pick, a.vlan, rates) && !ForeignEth0(h, a, pod)
    ensures ForeignEth0(h, a, pod) || SameButClock(r, p.h)
  {
    hide Inv, Gave, LeftBehind, Release, Restored, Spotless, ForeignEth0, Eth, Key, Find, PickedBy, DevOk;
    GaveNothingMeans(h, last, a, pod, given);
    NothingMoved(w, h, p.h, at, r, a, pod, found, p.frames[0].pf, p.frames[0].vf, n);
    SpotlessFirst(h, p.h, a, rates, pick, n);
    if !ForeignEth0(h, a, pod) {
      RestoredClock(h, r, p.h, a, n);
    }
  }

  /** The first turn fails and its link has name and record. */
  lemma FirstMoved(w: World, h: State, last: State, p: Turn, r: State, a: Args, pod: nat, given: set<nat>, pf: string,
                   rates: Rates, x: nat, pick: Option<Pick>, found: Option<nat>, at: State, n: nat)
    requires Inv(h) && PfsApart(h) && |p.answers| == 0 && FailedAt(h, last, p.h, a, pod, 0, p.stop, given, Some(x))
    requires TurnLeft(w, last, p, a, pod, pf, rates, Some(x), pick) && Rolled(w, p, r, a, pod, found, at)
    requires Kept(h, p.h, pod, a.cid) && n > 0
    requires At(p.h.links, x, Pod(pod), Eth(0)) && Key(a.cid, Eth(0)) in p.h.store
    ensures Restored(h, r, a, n)
  {
    hide Inv, Gave, LeftBehind, Release, Restored, Eth, Key, PickedBy, DevOk, PfsApart, Freed, Kept;
    GaveNothingMeans(h, last, a, pod, given);
    var k := pick.value;
    KeptInv(h, p.h, pod, a.cid);
    SameVfsKept(h, p.h, pod, a.cid);
    PfThere(h, p.h, pod, a.cid, k.id);
    FindIsAt(p.h.links, Pod(pod), Eth(0));
    FreedLater(w, p.h, at, a, pod, 0, k.id, x);
    FirstUndone(h, p.h, a, rates, k, n);
    RestoredClock(h, r, Freed(p.h, x, k.id, Key(a.cid, Eth(0)), a.vlan), a, n);
  }

  /** The second turn fails without having moved a link, and no link is called eth1. */
  lemma SecondUnmoved(w: World, h: State, a: Args, pod: nat, pfs: seq<PfInfo>, reqs: seq<Rates>, placed: seq<nat>,
                      last: State, given: set<nat>, pick: Option<Pick>)
    requires Inv(h) && DevOk(h.links, Pod(pod)) && TempSafe(h, pod) && PfsApart(h) && InBounds(placed, |reqs|, |pfs|)
    requires |placed| > 1
    ensures var p := PlaceFrom(w, h, a, pod, pfs, reqs, placed, 0);
            FailedWithErr(w, p) && |p.answers| == 1 && FailedAt(h, last, p.h, a, pod, 1, p.stop, given, None)
            && TurnLeft(w, last, p, a, pod, pfs[placed[1]].name, reqs[1], None, pick)
            && Find(p.h.links, Pod(pod), Eth(1)).None? ==>
              (Restored(h, AddBody(w, h, a, pod, pfs, reqs, placed).h, a, |placed|) <==>
               Spotless(h, p.h, pick, a.vlan, reqs[1]))
  {
    hide AddBody, PlaceFrom, Inv, DevOk, TempSafe, PfsApart, Gave, LeftBehind, Restored, Spotless, Eth, Find, PickedBy,
        Freed, Kept, ScanOf, Touched, FramesOwn;
    var p := PlaceFrom(w, h, a, pod, pfs, reqs, placed, 0);
    if !FailedWithErr(w, p) || |p.answers| != 1 || !FailedAt(h, last, p.h, a, pod, 1, p.stop, given, None)
       || !TurnLeft(w, last, p, a, pod, pfs[placed[1]].name, reqs[1], None, pick)
       || Find(p.h.links, Pod(pod), Eth(1)).Some? {
      return;
    }
    OutIs(h, last, p.h, a, pod, 1, p.stop, given, None);
    var id, z := TurnBeforeUndone(w, h, a, pod, pfs, reqs, placed);
    PlaceFromKept(w, h, a, pod, pfs, reqs, placed, 0);
    SameVfsKept(h, p.h, pod, a.cid);
    SecondDecided(h, last, p.h, AddBody(w, h, a, pod, pfs, reqs, placed).h, a, pod, given, reqs[1], pick, id, z,
                  |placed|);
  }

  lemma SecondDecided(h: State, last: State, t: State, r: State, a: Args, pod: nat, given: set<nat>, rates: Rates,
                      pick: Option<Pick>, id: VfId, z: nat, n: nat)
    requires Inv(h) && Inv(last) && Gave(h, last, a, pod, given, 1) && LeftBehind(last.links, t.links, pod, None)
    requires Touched(last, t, pick, a.vlan, rates) && t.store == last.store && n > 0
    requires id in t.vfLinks && t.vfLinks[id] == [z] && id in t.vfCfg && At(t.links, z, Pod(pod), Eth(0))
    requires t.vfLinks == h.vfLinks && t.totals == h.totals && t.vfCfg.Keys == h.vfCfg.Keys
    requires SameButClock(r, Freed(t, z, id, Key(a.cid, Eth(0)), a.vlan))
    ensures Restored(h, r, a, n) <==> Spotless(h, t, pick, a.vlan, rates)
  {
    hide Wired, DevOk, UniqueNames, Gave, LeftBehind, Restored, Spotless, Eth, Key, Freed, Touched;
    WearerIsGiven(h, last, t, a, pod, given, z);
    SpotlessSecond(h, last, t, a, pod, given, rates, pick, id, z, n);
    RestoredClock(h, r, Freed(t, z, id, Key(a.cid, Eth(0)), a.vlan), a, n);
  }

  lemma WearerIsGiven(h: State, last: State, t: State, a: Args, pod: nat, given: set<nat>, z: nat)
    requires Inv(h) && UniqueNames(last.links) && LeftBehind(last.links, t.links, pod, None)
    requires At(t.links, z, Pod(pod), Eth(0))
    ensures Gave(h, last, a, pod, given, 1) ==> z in given
  {
    hide UniqueNames, Wired, DevOk, CfgGiven, StoreGiven, Eth;
    if Gave(h, last, a, pod, given, 1) {
      var y := GivenWears(last.links, given, 1, 0);
      SameWearer(last.links, y, z, Pod(pod), Eth(0));
    }
  }

  /**
   The promise of sriov.go:1019 for every ADD that fails with err set and whose rollback's calls work: all changes are
   rolled back exactly if the links are back and, where the failing turn has moved none, it has left no mark on the VF
   it picked and there was no foreign eth0 with a record to be taken for the first interface. Then every registered
   lease is dropped as well.
   */
  lemma RestoredIff(w: World, h: State, a: Args, pod: nat, pfs: seq<PfInfo>, reqs: seq<Rates>, placed: seq<nat>)
    returns (last: State, given: set<nat>, moved: Option<nat>, pick: Option<Pick>)
    requires Inv(h) && DevOk(h.links, Pod(pod)) && TempSafe(h, pod) && PfsApart(h) && InBounds(placed, |reqs|, |pfs|)
    ensures var p := PlaceFrom(w, h, a, pod, pfs, reqs, placed, 0);
            var r := AddBody(w, h, a, pod, pfs, reqs, placed);
            var k := |p.answers|;
            FailedWithErr(w, p) ==>
              && FailedAt(h, last, p.h, a, pod, k, p.stop, given, moved)
              && k < |placed| && TurnLeft(w, last, p, a, pod, pfs[placed[k]].name, reqs[k], moved, pick)
              && (Restored(h, r.h, a, |placed|) <==> Undoable(h, p.h, a, pod, k, moved, pick, reqs[k]))
              && r.exit.Returned?
              && (Restored(h, r.h, a, |placed|) ==> LeasesBack(p.h, pod, Leased(p), r.exit.actions))
  {
    hide AddBody, PlaceFrom, Inv, DevOk, TempSafe, PfsApart, FailedAt, Restored, Spotless, ForeignEth0, TurnLeft, Home,
        FramesOwn, Kept, Eth, Key, Find, Rolled, Unwinds, LeasesBack, BackByTurn;
    last, given, moved, pick := HomeByTurn(w, h, a, pod, pfs, reqs, placed);
    var found, at := RollbackHost(w, h, a, pod, pfs, reqs, placed);
    var p := PlaceFrom(w, h, a, pod, pfs, reqs, placed, 0);
    if FailedWithErr(w, p) {
      var k := |p.answers|;
      var r := AddBody(w, h, a, pod, pfs, reqs, placed).h;
      var pf, rates := pfs[placed[k]].name, reqs[k];
      SameVfsKept(h, p.h, pod, a.cid);
      if !BackByTurn(p.h, a, pod, k, moved) {
        NotHome(h, r, a, |placed|);
      } else if k == 0 && moved.None? {
        FirstUnmoved(w, h, last, p, r, a, pod, given, pf, rates, pick, found, at, |placed|);
      } else if k == 0 {
        FirstTurn(p.h, a, pod, moved);
        FirstMoved(w, h, last, p, r, a, pod, given, pf, rates, moved.value, pick, found, at, |placed|);
      } else {
        SecondTurn(p.h, a, pod, k, moved);
        SecondUnmoved(w, h, a, pod, pfs, reqs, placed, last, given, pick);
      }
      var walked := RollbackLinks(w, h, a, pod, pfs, reqs, placed);
      if Restored(h, r, a, |placed|) {
        LeasesByTurn(p.h, a, pod, k, Leased(p), walked, r.links,
                     AddBody(w, h, a, pod, pfs, reqs, placed).exit.actions, moved);
      }
    }
  }

  lemma FirstTurn(t: State, a: Args, pod: nat, moved: Option<nat>)
    requires BackByTurn(t, a, pod, 0, moved) && moved.Some?
    ensures At(t.links, moved.value, Pod(pod), Eth(0)) && Key(a.cid, Eth(0)) in t.store
  {
  }

  lemma SecondTurn(t: State, a: Args, pod: nat, k: nat, moved: Option<nat>)
    requires BackByTurn(t, a, pod, k, moved) && k > 0
    ensures k == 1 && moved.None? && Find(t.links, Pod(pod), Eth(1)).None?
  {
  }

  lemma NotHome(h: State, r: State, a: Args, n: nat)
    requires !Home(h, r.links)
    ensures !Restored(h, r, a, n)
  {
    hide Home, Restored;
    if Restored(h, r, a, n) {
      RestoredIsHome(h, r, a, n);
    }
  }

  /**
   A first setup that fails without having moved its link, while the pod has no eth0: the rollback does nothing, the
   links are home, and the VF that was picked keeps the rates asked for, and the vlan if it was set.
   */
  lemma FirstSetupFails(w: World, h: State, a: Args, pod: nat, pfs: seq<PfInfo>, reqs: seq<Rates>, placed: seq<nat>)
    returns (last: State, pick: Option<Pick>)
    requires Inv(h) && DevOk(h.links, Pod(pod)) && TempSafe(h, pod) && PfsApart(h) && InBounds(placed, |reqs|, |pfs|)
    ensures var p := PlaceFrom(w, h, a, pod, pfs, reqs, placed, 0);
            var r := AddBody(w, h, a, pod, pfs, reqs, placed);
            FailedClean(w, h, pod, p) && |p.answers| == 0 ==>
              && |placed| > 0 && r.exit.Returned? && r.exit.actions == [] && Home(h, r.h.links)
              && SameButClock(last, h) && r.h.store == h.store
              && Touched(h, r.h, pick, a.vlan, reqs[0])
              && PickedBy(w, ScanOf(w, last, pfs[placed[0]].name, reqs[0]), pick, pfs[placed[0]].name, a.vlan)
  {
    hide AddBody, PlaceFrom, Inv, DevOk, TempSafe, PfsApart, Gave, LeftBehind, Home, Eth, Find, FramesOwn, Touched,
        PickedBy, ScanOf, FoundRoom, Key, Kept, AllOk;
    var given, moved;
    last, given, moved, pick := HomeByTurn(w, h, a, pod, pfs, reqs, placed);
    SetupFailedClean(w, h, a, pod, pfs, reqs, placed);
    var found, at := RollbackHost(w, h, a, pod, pfs, reqs, placed);
    var p := PlaceFrom(w, h, a, pod, pfs, reqs, placed, 0);
    if FailedClean(w, h, pod, p) && |p.answers| == 0 {
      GaveNothingMeans(h, last, a, pod, given);
      assert found.None?;
      TouchedClock(h, last, p.h, AddBody(w, h, a, pod, pfs, reqs, placed).h, pick, a.vlan, reqs[0]);
    }
  }

  lemma TouchedClock(h: State, last: State, t: State, r: State, pick: Option<Pick>, vlan: int, rates: Rates)
    requires SameButClock(last, h) && SameButClock(r, t) && Touched(last, t, pick, vlan, rates)
    ensures Touched(h, r, pick, vlan, rates)
  {
  }
}
