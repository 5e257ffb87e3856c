/** ADD and then DEL: what the pair leaves on the host. */
module RoundTrip {
  import opened Text
  import opened Host
  import opened Lifecycle
  import opened HostInvariant
  import opened Reclaim
  import opened Placement
  import opened Progress
  import opened Rollback

  /** The host as it was, but for the VFs of the links s being reset and renamed, and n records gone. */
  ghost predicate GaveBack(h: State, t: State, s: set<nat>, vlan: int, cid: string, n: nat)
    requires Wired(h.links, h.vfLinks, h.vfCfg, h.totals)
  {
    && t.vfLinks == h.vfLinks && t.totals == h.totals && t.links.Keys == h.links.Keys
    && (forall i | i in h.links :: t.links[i] == if i in s then Back(h.links[i], i) else h.links[i])
    && t.vfCfg == AllReset(h.vfCfg, h.vfLinks, s, vlan)
    && (forall key :: key in t.store <==> key in h.store && !IsFirst(cid, n, key))
    && (forall key | key in t.store :: t.store[key] == h.store[key])
  }

  predicate Succeeded(x: AddExit) {
    x.Returned? && x.ok
  }

  // ----- ADD -----

  lemma GaveClock(h: State, t: State, t': State, a: Args, pod: nat, s: set<nat>, n: nat)
    requires Inv(h) && Gave(h, t, a, pod, s, n) && SameButClock(t', t)
    ensures Gave(h, t', a, pod, s, n)
  {
  }

  lemma BodyDone(w: World, h: State, t: State, a: Args, pod: nat, pfs: seq<PfInfo>, reqs: seq<Rates>, placed: seq<nat>)
    returns (s: set<nat>)
    requires Inv(h) && TempSafe(h, pod) && SameButClock(t, h) && InBounds(placed, |reqs|, |pfs|)
    ensures var r := AddBody(w, t, a, pod, pfs, reqs, placed);
            r.exit.ok ==> r.exit.actions == [] && |r.exit.answers| == |placed| && Gave(h, r.h, a, pod, s, |placed|)
  {
    s := {};
    if !AddBody(w, t, a, pod, pfs, reqs, placed).exit.ok {
      return;
    }
    hide Gave, PlaceFrom, TempSafe, UniqueNames, Wired, DevOk, Unwind;
    var p := PlaceFrom(w, t, a, pod, pfs, reqs, placed, 0);
    GaveNothing(h, t, a, pod);
    var last;
    last, s := PlaceFromGave(w, h, t, a, pod, pfs, reqs, placed, 0, {});
    ProbeOnlyTicks(w, p.h);
    UnwindQuiet(w, Exec(w, p.h, Probe).h, a, pod, [UnlockFrame] + p.frames);
    GaveClock(h, last, Exec(w, p.h, Probe).h, a, pod, s, |placed|);
  }

  /** The host of an ADD that succeeded: one VF per interface given away, nothing undone. */
  lemma AddDone(w: World, h: State, a: Args, conf: bool, pod: nat) returns (s: set<nat>)
    requires Inv(h) && a.ns == Some(pod) && TempSafe(h, pod)
    ensures var r := Add(w, h, a, conf);
            Succeeded(r.exit) ==>
              r.exit.actions == [] && |r.exit.answers| <= MAX_INT && Gave(h, r.h, a, pod, s, |r.exit.answers|)
  {
    s := {};
    if !Succeeded(Add(w, h, a, conf).exit) {
      return;
    }
    hide Gave, AddBody, TempSafe, Inv, Exec;
    var p := Exec(w, h, PodInfo);
    AsksOnly(w, h, PodInfo);
    var q := Exec(w, p.h, Query);
    AsksOnly(w, p.h, Query);
    var k := Exec(w, q.h, Place(|p.r.requests|, |q.r.table|));
    AsksOnly(w, q.h, Place(|p.r.requests|, |q.r.table|));
    var o := Exec(w, k.h, Probe);
    AsksOnly(w, k.h, Probe);
    s := BodyDone(w, h, o.h, a, pod, q.r.table, p.r.requests, k.r.placed);
  }

  // ----- DEL of what ADD did -----

  lemma RecordsOfGiven(t: State, s: set<nat>, cid: string, n: nat, key: string)
    requires Named(t.links, s, n)
    ensures RecordOf(t, s, cid, key) <==> IsFirst(cid, n, key)
  {
    hide Eth, Key;
    if RecordOf(t, s, cid, key) {
      var i :| i in s && i in t.links && key == Key(cid, t.links[i].name);
      assert HasName(t.links, i, n);
    }
    if IsFirst(cid, n, key) {
      var j: nat :| j < n && key == Key(cid, Eth(j));
      assert IsWorn(t.links, s, j);
    }
  }

  /** What DEL finds after ADD is what ADD gave away, if there was nothing to find before. */
  lemma GivenIsReclaimable(h: State, t: State, a: Args, pod: nat, s: set<nat>, n: nat)
    requires Inv(h) && UniqueNames(t.links) && Gave(h, t, a, pod, s, n) && n <= MAX_INT
    requires ReclaimSet(h, pod, a.cid) == {}
    ensures ReclaimSet(t, pod, a.cid) == s
  {
    hide Eth, Key, IsEthName, UniqueNames, Wired, DevOk, CfgGiven;
    forall i | i in t.links ensures Reclaimable(t, pod, a.cid, i) <==> i in s {
      if i in s {
        GivenHasRecord(t, s, a.cid, n, h.store, i);
      } else if Reclaimable(t, pod, a.cid, i) {
        assert i !in ReclaimSet(h, pod, a.cid);
        assert IsFirst(a.cid, n, Key(a.cid, t.links[i].name));
        NotWornTwice(t, pod, s, a.cid, n, i);
      }
    }
  }

  lemma GivenHasRecord(t: State, s: set<nat>, cid: string, n: nat, store: map<string, Record>, i: nat)
    requires Named(t.links, s, n) && StoreGiven(store, t.store, cid, n) && n <= MAX_INT && i in s && i in t.links
    ensures IsEthName(t.links[i].name) && Key(cid, t.links[i].name) in t.store
  {
    hide Eth, Key, IsEthName;
    assert HasName(t.links, i, n);
    var j: nat :| j < n && Wears(t.links, i, j);
    EthIsEthName(j);
    assert IsFirst(cid, n, Key(cid, Eth(j)));
  }

  lemma NotWornTwice(t: State, pod: nat, s: set<nat>, cid: string, n: nat, i: nat)
    requires UniqueNames(t.links) && Named(t.links, s, n) && n <= MAX_INT
    requires forall j | j in s :: j in t.links && t.links[j].ns == Pod(pod)
    requires i in t.links && t.links[i].ns == Pod(pod) && IsEthName(t.links[i].name)
    requires IsFirst(cid, n, Key(cid, t.links[i].name))
    ensures i in s
  {
    hide Eth, Key, IsEthName;
    var j: nat :| j < n && Key(cid, t.links[i].name) == Key(cid, Eth(j));
    EthIsEthName(j);
    KeyInjective(cid, t.links[i].name, cid, Eth(j));
    assert IsWorn(t.links, s, j);
  }

  lemma GivenAreVfLinks(h: State, s: set<nat>)
    requires WereFree(h, s)
    ensures forall i | i in s :: IsVfLink(h.vfLinks, i)
  {
    forall i | i in s ensures IsVfLink(h.vfLinks, i) {
      var v :| WasFree(h, v, i);
      assert i in h.vfLinks[v];
    }
  }

  lemma GivenIsOwned(h: State, t: State, a: Args, pod: nat, s: set<nat>, n: nat)
    requires Inv(h) && PfsApart(h) && Gave(h, t, a, pod, s, n)
    ensures AllOwned(t, s)
  {
    hide Named, StoreGiven, CfgGiven, UniqueNames, Wired, DevOk;
    forall i | i in s ensures exists id :: Owns(t, id, i) {
      var id :| WasFree(h, id, i);
      var j :| At(h.links, j, Init, id.pf);
      assert Apart(h, id.pf);
      GivenAreVfLinks(h, s);
      assert At(t.links, j, Init, id.pf);
      assert Owns(t, id, i);
    }
  }

  lemma CfgBack(h: State, t: State, s: set<nat>, vlan: int)
    requires Wired(h.links, h.vfLinks, h.vfCfg, h.totals) && t.vfLinks == h.vfLinks && t.vfCfg.Keys == h.vfCfg.Keys
    requires CfgGiven(h, t, s, vlan)
    ensures AllReset(t.vfCfg, t.vfLinks, s, vlan) == AllReset(h.vfCfg, h.vfLinks, s, vlan)
  {
    hide Reset;
  }

  lemma ReclaimedIsGaveBack(h: State, t: State, d: State, a: Args, pod: nat, s: set<nat>, n: nat)
    requires Inv(h) && Inv(t) && Gave(h, t, a, pod, s, n) && SameButClock(d, Reclaimed(t, s, a.vlan, a.cid))
    ensures GaveBack(h, d, s, a.vlan, a.cid, n)
  {
    hide Key, Eth, Dev, Reset, AllReset, CfgGiven, Named, RecordOf, IsFirst, UniqueNames, DevOk, Back, StoreGiven,
        LinksGiven;
    CfgBack(h, t, s, a.vlan);
    LinksBack(h, t, pod, s, n, a.vlan, a.cid);
    StoreBack(h, t, s, a.vlan, a.cid, pod, n);
  }

  lemma LinksBack(h: State, t: State, pod: nat, s: set<nat>, n: nat, vlan: int, cid: string)
    requires Wired(t.links, t.vfLinks, t.vfCfg, t.totals) && LinksGiven(h.links, t.links, pod, s, n)
    ensures var d := Reclaimed(t, s, vlan, cid);
            && d.links.Keys == h.links.Keys && Named(t.links, s, n)
            && forall i | i in h.links :: d.links[i] == if i in s then Back(h.links[i], i) else h.links[i]
  {
    hide Dev, Named, AllReset, RecordOf;
  }

  lemma StoreBack(h: State, t: State, s: set<nat>, vlan: int, cid: string, pod: nat, n: nat)
    requires Wired(t.links, t.vfLinks, t.vfCfg, t.totals) && Named(t.links, s, n)
    requires StoreGiven(h.store, t.store, cid, n)
    ensures var d := Reclaimed(t, s, vlan, cid).store;
            && (forall key :: key in d <==> key in h.store && !IsFirst(cid, n, key))
            && forall key | key in d :: d[key] == h.store[key]
  {
    hide Back, Named, AllReset, RecordOf, IsFirst;
    forall key ensures RecordOf(t, s, cid, key) <==> IsFirst(cid, n, key) {
      RecordsOfGiven(t, s, cid, n, key);
    }
  }

  /**
   ADD, if it succeeds, followed by DEL, if its calls work: every link that came to the pod is back, down and
   called dev<index>, its VF has no rates and, where one was configured, no vlan, no record is left, and no
   other link, VF or record of any container differs from before the pair.
   */
  lemma AddThenDel(w: World, w': World, h: State, a: Args, conf: bool, pod: nat) returns (s: set<nat>)
    requires Inv(h) && a.ns == Some(pod) && DevOk(h.links, Pod(pod)) && TempSafe(h, pod) && PfsApart(h)
    requires ReclaimSet(h, pod, a.cid) == {}
    ensures var r := Add(w, h, a, conf);
            var d := Del(w', r.h, a);
            Succeeded(r.exit) && Cooperates(w', r.h, a, pod) ==>
            && |s| == |r.exit.answers| && WereFree(h, s)
            && (forall i | i in s :: i in r.h.links && r.h.links[i].ns == Pod(pod))
            && d.exit == Done(true) && GaveBack(h, d.h, s, a.vlan, a.cid, |s|)
  {
    hide Add, Del, Cooperates, Kept, UniqueNames, Wired, DevOk, TempSafe, PfsApart, AllOwned, ReclaimSet, Named,
        StoreGiven, CfgGiven, GaveBack;
    var r := Add(w, h, a, conf);
    s := AddDone(w, h, a, conf, pod);
    if !Succeeded(r.exit) || !Cooperates(w', r.h, a, pod) {
      return;
    }
    var n := |r.exit.answers|;
    AddKeepsInvariant(w, h, a, conf);
    KeptInv(h, r.h, pod, a.cid);
    GivenIsReclaimable(h, r.h, a, pod, s, n);
    GivenIsOwned(h, r.h, a, pod, s, n);
    DelExact(w', r.h, a, pod);
    ReclaimedIsGaveBack(h, r.h, Del(w', r.h, a).h, a, pod, s, n);
  }
}
