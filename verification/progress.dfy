/** The host after any number of successful placements, and what DEL makes of it. */
module Progress {
  import opened Text
  import opened Host
  import opened Lifecycle
  import opened HostInvariant
  import opened Reclaim
  import opened Placement

  /** No link of a VF is called like this physical function. */
  ghost predicate Apart(h: State, pf: string) {
    forall i | At(h.links, i, Init, pf) :: !IsVfLink(h.vfLinks, i)
  }

  ghost predicate PfsApart(h: State) {
    forall id | id in h.vfLinks :: Apart(h, id.pf)
  }

  /** The links s have come into the pod under the first n eth-names; no other link has changed. */
  ghost predicate LinksGiven(links: Links, links': Links, pod: nat, s: set<nat>, n: nat) {
    && links'.Keys == links.Keys && s <= links.Keys && |s| == n
    && (forall i | i in links && i !in s :: links'[i] == links[i])
    && (forall i | i in s :: links[i].ns == Init && links'[i].ns == Pod(pod) && links'[i].mac == links[i].mac)
    && Named(links', s, n)
  }

  predicate Wears(links: Links, i: nat, j: nat) {
    i in links && links[i].name == Eth(j)
  }

  ghost predicate HasName(links: Links, i: nat, n: nat) {
    exists j: nat :: j < n && Wears(links, i, j)
  }

  ghost predicate IsWorn(links: Links, s: set<nat>, j: nat) {
    exists i :: i in s && Wears(links, i, j)
  }

  ghost predicate EachNamed(links: Links, s: set<nat>, n: nat) {
    forall i | i in s :: HasName(links, i, n)
  }

  ghost predicate AllWorn(links: Links, s: set<nat>, n: nat) {
    forall j: nat | j < n :: IsWorn(links, s, j)
  }

  /** The links of s have the first n eth-names. */
  ghost predicate Named(links: Links, s: set<nat>, n: nat) {
    EachNamed(links, s, n) && AllWorn(links, s, n)
  }

  ghost predicate IsFirst(cid: string, n: nat, key: string) {
    exists j: nat :: j < n && key == Key(cid, Eth(j))
  }

  /** The first n interfaces have records; no other record has changed. */
  ghost predicate StoreGiven(store: map<string, Record>, store': map<string, Record>, cid: string, n: nat) {
    && (forall key | IsFirst(cid, n, key) :: key in store')
    && (forall key | !IsFirst(cid, n, key) ::
          (key in store' <==> key in store) && (key in store ==> store'[key] == store[key]))
  }

  /** Resetting the VFs of s makes up for all that was configured. */
  ghost predicate CfgGiven(h: State, t: State, s: set<nat>, vlan: int)
    requires Wired(h.links, h.vfLinks, h.vfCfg, h.totals) && t.vfCfg.Keys == h.vfCfg.Keys
  {
    forall id | id in h.vfCfg ::
      if h.vfLinks[id][0] in s then Reset(t.vfCfg[id], vlan) == Reset(h.vfCfg[id], vlan)
      else t.vfCfg[id] == h.vfCfg[id]
  }

  ghost predicate WereFree(h: State, s: set<nat>) {
    forall i | i in s :: exists id :: WasFree(h, id, i)
  }

  /** From h to t exactly n free VFs, those of the links s, went to the pod. */
  ghost predicate Gave(h: State, t: State, a: Args, pod: nat, s: set<nat>, n: nat)
    requires Inv(h)
  {
    && t.vfLinks == h.vfLinks && t.totals == h.totals && t.vfCfg.Keys == h.vfCfg.Keys
    && LinksGiven(h.links, t.links, pod, s, n) && StoreGiven(h.store, t.store, a.cid, n)
    && CfgGiven(h, t, s, a.vlan) && WereFree(h, s)
  }

  lemma GaveNothing(h: State, t: State, a: Args, pod: nat)
    requires Inv(h) && SameButClock(t, h)
    ensures Gave(h, t, a, pod, {}, 0)
  {
  }

  lemma GaveNothingMeans(h: State, t: State, a: Args, pod: nat, s: set<nat>)
    requires Inv(h) && Gave(h, t, a, pod, s, 0)
    ensures SameButClock(t, h)
  {
    hide UniqueNames, DevOk, Key, Eth, Named;
    assert s == {};
    assert forall key :: !IsFirst(a.cid, 0, key);
    assert t.links == h.links && t.store == h.store && t.vfCfg == h.vfCfg;
  }

  lemma LinksStep(links: Links, links': Links, pod: nat, s: set<nat>, n: nat, x: nat, up: bool)
    requires LinksGiven(links, links', pod, s, n) && x in links' && links'[x].ns == Init
    ensures x !in s && LinksGiven(links, links'[x := InPod(links'[x], pod, Eth(n), up)], pod, s + {x}, n + 1)
  {
    hide Eth, Named;
    NamedStep(links', s, n, x, InPod(links'[x], pod, Eth(n), up));
  }

  lemma NamedStep(links: Links, s: set<nat>, n: nat, x: nat, l: Link)
    requires Named(links, s, n) && x !in s && l.name == Eth(n)
    ensures Named(links[x := l], s + {x}, n + 1)
  {
    hide EachNamed, AllWorn;
    EachStep(links, s, n, x, l);
    AllStep(links, s, n, x, l);
  }

  lemma EachStep(links: Links, s: set<nat>, n: nat, x: nat, l: Link)
    requires EachNamed(links, s, n) && x !in s && l.name == Eth(n)
    ensures EachNamed(links[x := l], s + {x}, n + 1)
  {
    hide Eth;
    forall i | i in s + {x} ensures HasName(links[x := l], i, n + 1) {
      if i != x {
        assert HasName(links, i, n);
        var j: nat :| j < n && Wears(links, i, j);
        assert Wears(links[x := l], i, j);
      } else {
        assert Wears(links[x := l], i, n);
      }
    }
  }

  lemma AllStep(links: Links, s: set<nat>, n: nat, x: nat, l: Link)
    requires AllWorn(links, s, n) && x !in s && l.name == Eth(n)
    ensures AllWorn(links[x := l], s + {x}, n + 1)
  {
    hide Eth;
    var next, all := links[x := l], s + {x};
    forall j: nat | j < n + 1 ensures IsWorn(next, all, j) {
      if j < n {
        assert IsWorn(links, s, j);
        var i :| i in s && Wears(links, i, j);
        assert i in all && Wears(next, i, j);
      } else {
        assert x in all && Wears(next, x, n);
      }
    }
  }

  lemma StoreStep1(store: map<string, Record>, store': map<string, Record>, cid: string, n: nat, rec: Record)
    requires StoreGiven(store, store', cid, n)
    ensures StoreGiven(store, store'[Key(cid, Eth(n)) := rec], cid, n + 1)
  {
    hide Eth, Key;
    forall key ensures IsFirst(cid, n + 1, key) <==> IsFirst(cid, n, key) || key == Key(cid, Eth(n)) {
      if IsFirst(cid, n, key) {
        var j: nat :| j < n && key == Key(cid, Eth(j));
        assert j < n + 1;
      }
      if key == Key(cid, Eth(n)) {
        assert n < n + 1;
      }
    }
  }

  lemma CfgStep1(h: State, t: State, t': State, s: set<nat>, id: VfId, x: nat, vlan: int, rates: Rates)
    requires Wired(h.links, h.vfLinks, h.vfCfg, h.totals) && t.vfCfg.Keys == h.vfCfg.Keys
    requires CfgGiven(h, t, s, vlan) && id in h.vfLinks && h.vfLinks[id] == [x] && x !in s
    requires t'.vfCfg == t.vfCfg[id := Configured(t.vfCfg[id], vlan, rates)]
    ensures CfgGiven(h, t', s + {x}, vlan)
  {
    forall v | v in h.vfCfg && v != id ensures h.vfLinks[v][0] != x {
      assert h.vfLinks[v] == [h.vfLinks[v][0]];
    }
  }

  /** A VF that is free now was free at the start: its link and that of its physical function have not moved. */
  lemma FreeBefore(h: State, t: State, pod: nat, s: set<nat>, n: nat, id: VfId, x: nat)
    requires LinksGiven(h.links, t.links, pod, s, n) && t.vfLinks == h.vfLinks && t.vfCfg.Keys == h.vfCfg.Keys
    requires WasFree(t, id, x)
    ensures WasFree(h, id, x)
  {
    hide Eth;
    var i :| At(t.links, i, Init, id.pf);
    assert At(h.links, i, Init, id.pf);
  }

  lemma GaveStep(h: State, t: State, one: Turn, a: Args, pod: nat, s: set<nat>, n: nat, pf: string, rates: Rates,
                 x: nat, vf: nat, up: bool)
    requires Inv(h)
    ensures Gave(h, t, a, pod, s, n) && GaveOne(t, one, a, pod, n, pf, rates, x, vf, up) ==>
              Gave(h, one.h, a, pod, s + {x}, n + 1)
  {
    hide UniqueNames, Eth, Key, DevOk, LinksGiven, StoreGiven, CfgGiven;
    if !Gave(h, t, a, pod, s, n) || !GaveOne(t, one, a, pod, n, pf, rates, x, vf, up) {
      return;
    }
    var id := VfId(pf, vf);
    assert x !in s by { LinksStep(h.links, t.links, pod, s, n, x, up); }
    LinksStep(h.links, t.links, pod, s, n, x, up);
    StoreStep1(h.store, t.store, a.cid, n, Record(Eth(n), vf, a.vlan));
    CfgStep1(h, t, one.h, s, id, x, a.vlan, rates);
    FreeBefore(h, t, pod, s, n, id, x);
  }

  lemma StillNoSriov(links: Links, links': Links, pod: nat, s: set<nat>, n: nat)
    requires LinksGiven(links, links', pod, s, n) && NoSriov(links, pod)
    ensures NoSriov(links', pod)
  {
    hide Eth, Sriov;
    forall i, m: nat | i in links' && links'[i].ns == Pod(pod) && m < 9999 ensures links'[i].name != Sriov(m) {
      if i in s {
        assert HasName(links', i, n);
        var j: nat :| j < n && Wears(links', i, j);
        NameKindsDisjoint(j, "");
        NameKindsDisjoint(m, "");
      }
    }
  }

  /** How the loop ended, seen from the state before its last turn. */
  ghost predicate LoopEnded(w: World, p: Turn, last: State, a: Args, pod: nat, pfs: seq<PfInfo>, reqs: seq<Rates>,
                            placed: seq<nat>, i: nat)
    requires InBounds(placed, |reqs|, |pfs|)
  {
    var k := i + |p.answers|;
    if p.stop.Completed? then k == |placed| && last == p.h
    else
      && k < |placed|
      && var one := PlaceOne(w, last, a, pod, k, pfs[placed[k]].name, reqs[k]);
         one.h == p.h && one.stop == p.stop
         && |p.frames| >= 2 * |p.answers| && p.frames[2 * |p.answers|..] == one.frames
  }

  lemma LoopEndedAfter(w: World, one: Turn, p: Turn, last: State, a: Args, pod: nat, pfs: seq<PfInfo>, reqs: seq<Rates>,
                       placed: seq<nat>, i: nat)
    requires InBounds(placed, |reqs|, |pfs|) && LoopEnded(w, p, last, a, pod, pfs, reqs, placed, i + 1)
    requires |one.frames| == 2 && |one.answers| == 1
    ensures LoopEnded(w, After(one.frames, one.answers, p), last, a, pod, pfs, reqs, placed, i)
  {
    hide PlaceOne;
    if !p.stop.Completed? {
      var f := one.frames + p.frames;
      assert f[2 * (1 + |p.answers|)..] == p.frames[2 * |p.answers|..];
    }
  }

  /** What is in the pod stays there as it is. */
  ghost predicate PodStays(links: Links, links': Links, pod: nat) {
    forall y | y in links && links[y].ns == Pod(pod) :: y in links' && links'[y] == links[y]
  }

  /** The rollback registered for turn j names the VF whose link has the name of interface j in the pod. */
  ghost predicate FrameOwns(f: Frame, t: State, pod: nat, j: nat) {
    && f.RollbackFrame? && f.vf.Some?
    && var id := VfId(f.pf, f.vf.value);
       && id in t.vfLinks && |t.vfLinks[id]| == 1 && t.vfLinks[id][0] in t.links
       && At(t.links, t.vfLinks[id][0], Pod(pod), Eth(j)) && id in t.vfCfg
  }

  /** So do the rollbacks of the first n turns. */
  ghost predicate FramesOwn(frames: seq<Frame>, t: State, pod: nat, i: nat, n: nat) {
    2 * n <= |frames| && forall q: nat | q < n :: FrameOwns(frames[2 * q], t, pod, i + q)
  }

  lemma FirstFrameOwns(h: State, one: Turn, a: Args, pod: nat, i: nat, pf: string, rates: Rates, x: nat, vf: nat,
                       up: bool, last: State)
    requires GaveOne(h, one, a, pod, i, pf, rates, x, vf, up)
    requires PodStays(one.h.links, last.links, pod)
    requires last.vfLinks == one.h.vfLinks && last.vfCfg.Keys == one.h.vfCfg.Keys
    ensures FrameOwns(one.frames[0], last, pod, i)
    ensures PodStays(h.links, one.h.links, pod)
  {
    hide Eth, Key;
  }

  lemma FramesOwnMore(one: seq<Frame>, rest: seq<Frame>, t: State, pod: nat, i: nat, n: nat)
    requires |one| == 2 && FrameOwns(one[0], t, pod, i) && FramesOwn(rest, t, pod, i + 1, n)
    ensures FramesOwn(one + rest, t, pod, i, n + 1)
  {
    hide FrameOwns;
    var all := one + rest;
    forall q: nat | q < n + 1 ensures FrameOwns(all[2 * q], t, pod, i + q) {
      if q > 0 {
        assert all[2 * q] == rest[2 * (q - 1)] && i + q == i + 1 + (q - 1);
      }
    }
  }

  lemma SameVfsKept(h: State, t: State, pod: nat, cid: string)
    requires Kept(h, t, pod, cid)
    ensures t.vfLinks == h.vfLinks && t.vfCfg.Keys == h.vfCfg.Keys && t.totals == h.totals
  {
  }

  lemma {:induction false} PlaceFromGave(w: World, h: State, t: State, a: Args, pod: nat, pfs: seq<PfInfo>,
                                         reqs: seq<Rates>, placed: seq<nat>, i: nat, s: set<nat>)
    returns (last: State, given: set<nat>)
    requires Inv(h) && TempSafe(h, pod) && Inv(t) && Gave(h, t, a, pod, s, i)
    requires InBounds(placed, |reqs|, |pfs|) && i <= |placed|
    ensures var p := PlaceFrom(w, t, a, pod, pfs, reqs, placed, i);
            && Kept(t, last, pod, a.cid) && Gave(h, last, a, pod, given, i + |p.answers|)
            && LoopEnded(w, p, last, a, pod, pfs, reqs, placed, i)
            && PodStays(t.links, last.links, pod) && FramesOwn(p.frames, last, pod, i, |p.answers|)
    decreases |placed| - i
  {
    hide PlaceOne, Kept, Gave, TempSafe, Inv, GaveOne, PodStays, FramesOwn, FrameOwns;
    last, given := t, s;
    KeptRefl(t, pod, a.cid);
    NothingYet(t, pod, i, PlaceFrom(w, t, a, pod, pfs, reqs, placed, i).frames);
    if i < |placed| {
      var pf := pfs[placed[i]].name;
      var one := PlaceOne(w, t, a, pod, i, pf, reqs[i]);
      OneShape(w, t, a, pod, i, pf, reqs[i]);
      if one.stop.Completed? {
        TempSafeNow(h, t, a, pod, s, i);
        var x, vf, up := PlaceOneDone(w, t, a, pod, i, pf, reqs[i]);
        PlaceOneKept(w, t, a, pod, i, pf, reqs[i]);
        KeptInv(t, one.h, pod, a.cid);
        GaveStep(h, t, one, a, pod, s, i, pf, reqs[i], x, vf, up);
        last, given := PlaceFromGave(w, h, one.h, a, pod, pfs, reqs, placed, i + 1, s + {x});
        KeptTrans(t, one.h, last, pod, a.cid);
        SameVfsKept(one.h, last, pod, a.cid);
        FirstFrameOwns(t, one, a, pod, i, pf, reqs[i], x, vf, up, last);
        PodStaysTrans(t.links, one.h.links, last.links, pod);
        var rest := PlaceFrom(w, one.h, a, pod, pfs, reqs, placed, i + 1);
        FramesOwnMore(one.frames, rest.frames, last, pod, i, |rest.answers|);
        LoopEndedAfter(w, one, PlaceFrom(w, one.h, a, pod, pfs, reqs, placed, i + 1), last, a, pod, pfs, reqs,
            placed, i);
      }
    }
  }

  lemma NothingYet(t: State, pod: nat, i: nat, frames: seq<Frame>)
    ensures PodStays(t.links, t.links, pod) && FramesOwn(frames, t, pod, i, 0)
  {
  }

  lemma PodStaysTrans(a: Links, b: Links, c: Links, pod: nat)
    requires PodStays(a, b, pod) && PodStays(b, c, pod)
    ensures PodStays(a, c, pod)
  {
  }

  lemma OneShape(w: World, h: State, a: Args, pod: nat, i: nat, pf: string, rates: Rates)
    ensures var one := PlaceOne(w, h, a, pod, i, pf, rates);
            && (one.stop.Completed? ==> |one.frames| == 2 && |one.answers| == 1)
            && (!one.stop.Completed? ==> one.answers == [])
  {
    hide Setup, Configure, Exec;
  }

  /** The premise about temporary names is still met: the pod gets eth-names only, and no free link is renamed. */
  lemma TempSafeNow(h: State, t: State, a: Args, pod: nat, s: set<nat>, n: nat)
    requires Inv(h) && TempSafe(h, pod) && Gave(h, t, a, pod, s, n)
    ensures TempSafe(t, pod)
  {
    hide NoSriov, Named, StoreGiven, CfgGiven, UniqueNames, DevOk, Wired;
    if i :| IsVfLink(t.vfLinks, i) && At(t.links, i, Init, "eth0") {
      assert IsVfLink(h.vfLinks, i) && At(h.links, i, Init, "eth0");
      StillNoSriov(h.links, t.links, pod, s, n);
    }
  }
}
