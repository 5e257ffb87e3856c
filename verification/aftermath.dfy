/** An ADD that ended in any way, and a DEL after it: which links are home in the end. */
module Aftermath {
  import opened Text
  import opened Host
  import opened Lifecycle
  import opened HostInvariant
  import opened Reclaim
  import opened Placement
  import opened Progress
  import opened Partial
  import opened Rollback
  import opened RoundTrip
  import opened Rescue
  import opened AllBack

  /** Every link that is out could be taken back by a DEL. */
  ghost predicate AllClaimed(h: State, t: State, pod: nat, cid: string) {
    forall i | i in Out(h, t) :: Reclaimable(t, pod, cid, i)
  }

  lemma HomeIfClaimed(h: State, t: State, r: State, pod: nat, a: Args)
    requires Wired(t.links, t.vfLinks, t.vfCfg, t.totals) && t.links.Keys == h.links.Keys
    requires SameButClock(r, Reclaimed(t, ReclaimSet(t, pod, a.cid), a.vlan, a.cid))
    ensures Home(h, r.links) <==> AllClaimed(h, t, pod, a.cid)
  {
    hide IsEthName, Key, Dev;
    assert forall i | i in h.links && h.links[i].ns == Init ::
        r.links[i].ns == Init <==> t.links[i].ns == Init || Reclaimable(t, pod, a.cid, i);
  }

  /** An ADD in any world and then a DEL whose calls work: all links are home exactly if what is out is reclaimable. */
  lemma HomeAfterDel(w: World, w': World, h: State, a: Args, conf: bool, pod: nat)
    requires Inv(h) && a.ns == Some(pod) && DevOk(h.links, Pod(pod))
    requires var t := Add(w, h, a, conf).h;
             Cooperates(w', t, a, pod) && AllOwned(t, ReclaimSet(t, pod, a.cid))
    ensures var t := Add(w, h, a, conf).h;
            Home(h, Del(w', t, a).h.links) <==> AllClaimed(h, t, pod, a.cid)
  {
    hide Add, Del, Cooperates, AllOwned, ReclaimSet, Reclaimed, AllClaimed, Home, Inv, DevOk;
    var t := Add(w, h, a, conf).h;
    AddKeepsInvariant(w, h, a, conf);
    DelAfterAnyAdd(w, w', h, a, conf, pod);
    SameKeys(h, t, pod, a.cid);
    HomeIfClaimed(h, t, Del(w', t, a).h, pod, a);
  }

  /** An ADD in any world and then a DEL in any world: all links are home exactly if DEL brings home what is out. */
  lemma HomeAfterAnyDel(w: World, w': World, h: State, a: Args, conf: bool, pod: nat)
    requires Inv(h) && a.ns == Some(pod) && DevOk(h.links, Pod(pod))
    ensures var t := Add(w, h, a, conf).h;
            Home(h, Del(w', t, a).h.links) <==> forall i | i in Out(h, t) :: BroughtHome(w', t, a, pod, i)
  {
    hide Add, Del, Inv, DevOk, BroughtHome, Evolves;
    var t := Add(w, h, a, conf).h;
    AddKeepsInvariant(w, h, a, conf);
    SameKeys(h, t, pod, a.cid);
    HomeAfter(w', h, t, a, pod);
  }

  lemma HomeAfter(w: World, h: State, t: State, a: Args, pod: nat)
    requires Inv(t) && a.ns == Some(pod) && DevOk(t.links, Pod(pod)) && t.links.Keys == h.links.Keys
    ensures Home(h, Del(w, t, a).h.links) <==> forall i | i in Out(h, t) :: BroughtHome(w, t, a, pod, i)
  {
    hide Del, Inv, DevOk, BroughtHome;
    var links := Del(w, t, a).h.links;
    forall i | i in h.links
      ensures i in links && (links[i].ns == Init <==> t.links[i].ns == Init || BroughtHome(w, t, a, pod, i))
    {
      HomeOrNot(w, t, a, pod, i);
    }
  }

  // ----- turn by turn -----

  /** A release of one link decides what is claimed by what becomes of that link. */
  lemma ClaimsAfterFortune(h: State, t: State, r: State, pod: nat, cid: string, z: nat, f: Fortune)
    requires t.links.Keys == h.links.Keys && Reclaimable(t, pod, cid, z) && Became(t, r, pod, cid, z, f)
    requires forall i | i in t.links && i != z :: i in r.links && r.links[i] == t.links[i]
    requires forall i | i in t.links && i != z :: Reclaimable(r, pod, cid, i) <==> Reclaimable(t, pod, cid, i)
    ensures AllClaimed(h, r, pod, cid) <==> AllClaimed(h, t, pod, cid) && !(z in Out(h, t) && f.Lost?)
  {
    hide IsEthName, Key, Dev;
    forall i | i in h.links ensures i in Out(h, r) <==> i in Out(h, t) && !(i == z && f.AtHome?) {
    }
  }

  lemma SameClaimed(h: State, t: State, r: State, pod: nat, cid: string)
    requires r.links == t.links && r.store == t.store
    ensures AllClaimed(h, r, pod, cid) <==> AllClaimed(h, t, pod, cid)
  {
    hide IsEthName, Key;
    assert Out(h, r) == Out(h, t);
    assert forall i :: Reclaimable(r, pod, cid, i) <==> Reclaimable(t, pod, cid, i);
  }

  /** Of what is out at the failure only the link that the failing turn has moved may be unclaimed. */
  lemma OnlyMovedUnclaimed(h: State, last: State, t: State, a: Args, pod: nat, k: nat, stop: Stop, given: set<nat>,
                           moved: Option<nat>)
    requires Inv(h) && FailedAt(h, last, t, a, pod, k, stop, given, moved) && k <= MAX_INT
    requires OnlyRecord(last.store, t.store, Key(a.cid, Eth(k)))
    ensures AllClaimed(h, t, pod, a.cid) <==> (moved.Some? ==> Reclaimable(t, pod, a.cid, moved.value))
  {
    hide IsEthName, Key, Eth, UniqueNames, Wired, DevOk, CfgGiven;
    OutIs(h, last, t, a, pod, k, stop, given, moved);
    forall i | i in given ensures Reclaimable(t, pod, a.cid, i) {
      GivenHasRecord(last, given, a.cid, k, h.store, i);
      GivenKeyIsOther(last, given, a.cid, k, i);
    }
  }

  lemma GivenKeyIsOther(t: State, given: set<nat>, cid: string, k: nat, i: nat)
    requires Named(t.links, given, k) && k <= MAX_INT && i in given && i in t.links
    ensures Key(cid, t.links[i].name) != Key(cid, Eth(k))
  {
    hide Eth, Key, IsEthName;
    assert HasName(t.links, i, k);
    var j: nat :| j < k && Wears(t.links, i, j);
    EthIsEthName(j);
    EthIsEthName(k);
    if Key(cid, Eth(j)) == Key(cid, Eth(k)) {
      KeyInjective(cid, Eth(j), cid, Eth(k));
      EthInjective(j, k);
    }
  }

  /** The rollback finds a link that this ADD has taken, with a record, and its release loses it. */
  ghost predicate LosesOne(w: World, h: State, p: Turn, a: Args, pod: nat) {
    var s := Search(w, p.h, pod, p.frames);
    && s.found.Some? && Loses(w, h, p.h, s.at.clock, a.cid, pod, Eth(s.found.value))
  }

  ghost predicate Loses(w: World, h: State, t: State, c: nat, cid: string, pod: nat, name: string) {
    && Find(t.links, Pod(pod), name).Some? && Find(t.links, Pod(pod), name).value in Out(h, t)
    && Key(cid, name) in t.store && TakenBackAt(w, c).Lost?
  }

  /** In any world the rollback decides whether what is out is reclaimable by the link it loses, if it loses one. */
  lemma ClaimsAfterRollback(w: World, h: State, a: Args, pod: nat, pfs: seq<PfInfo>, reqs: seq<Rates>, placed: seq<nat>)
    requires Inv(h) && DevOk(h.links, Pod(pod)) && InBounds(placed, |reqs|, |pfs|)
    ensures var p := PlaceFrom(w, h, a, pod, pfs, reqs, placed, 0);
            AllClaimed(h, AddBody(w, h, a, pod, pfs, reqs, placed).h, pod, a.cid) <==>
            AllClaimed(h, p.h, pod, a.cid) && !(ErrSet(p.stop) && LosesOne(w, h, p, a, pod))
  {
    hide AddBody, PlaceFrom, Release, UniqueNames, DevOk, Wired, Eth, Find, Key, IsEthName, Evolves, AllClaimed, Search,
        Loses;
    var p := PlaceFrom(w, h, a, pod, pfs, reqs, placed, 0);
    var found, at := RollbackExact(w, h, a, pod, pfs, reqs, placed);
    var r := AddBody(w, h, a, pod, pfs, reqs, placed).h;
    PlaceFromKept(w, h, a, pod, pfs, reqs, placed, 0);
    SameKeys(h, p.h, pod, a.cid);
    if ErrSet(p.stop) && found.Some? {
      var f := p.frames[2 * found.value];
      OneReleased(w, h, p.h, at, a, pod, found.value, f.pf, f.vf);
    } else {
      SameClaimed(h, p.h, r, pod, a.cid);
    }
  }

  lemma OneReleased(w: World, h: State, t: State, at: State, a: Args, pod: nat, j: nat, pf: string, vf: Option<nat>)
    requires Inv(t) && DevOk(t.links, Pod(pod)) && SameButClock(at, t) && j <= MAX_INT
    requires t.links.Keys == h.links.Keys && Find(t.links, Pod(pod), Eth(j)).Some?
    ensures AllClaimed(h, Release(w, at, a, pod, Eth(j), pf, vf).h, pod, a.cid) <==>
            AllClaimed(h, t, pod, a.cid) && !Loses(w, h, t, at.clock, a.cid, pod, Eth(j))
  {
    hide Release, UniqueNames, Wired, DevOk, Eth, Find, Key, IsEthName, AllClaimed, Became, TakenBackAt;
    var name := Eth(j);
    var r := Release(w, at, a, pod, name, pf, vf).h;
    FindIsAt(t.links, Pod(pod), name);
    var z := Find(t.links, Pod(pod), name).value;
    EthIsEthName(j);
    if Key(a.cid, name) !in t.store {
      NoRecordNoRollback(w, at, a, pod, name, pf, vf);
      SameClaimed(h, t, r, pod, a.cid);
    } else {
      InvClock(t, at, pod);
      RollbackFortune(w, at, a, pod, z, pf, vf);
      forall i | i in at.links && i != z
        ensures i in r.links && r.links[i] == at.links[i]
        ensures Reclaimable(r, pod, a.cid, i) <==> Reclaimable(at, pod, a.cid, i)
      {
        OthersSpared(w, at, a, pod, name, pf, vf, z, i);
      }
      ClaimsAfterFortune(h, at, r, pod, a.cid, z, TakenBackAt(w, at.clock));
      SameClaimed(h, t, at, pod, a.cid);
    }
  }

  lemma OthersSpared(w: World, h: State, a: Args, pod: nat, name: string, pf: string, vf: Option<nat>, z: nat, i: nat)
    requires UniqueNames(h.links) && At(h.links, z, Pod(pod), name) && IsEthName(name) && i in h.links && i != z
    ensures var r := Release(w, h, a, pod, name, pf, vf).h;
            && i in r.links && r.links[i] == h.links[i]
            && (Reclaimable(r, pod, a.cid, i) <==> Reclaimable(h, pod, a.cid, i))
  {
    hide Release, Key, IsEthName, UniqueNames;
    WearsAlone(h.links, z, i, Pod(pod), name);
    RollbackSpares(w, h, a, pod, name, pf, vf, i);
    if Reclaimable(h, pod, a.cid, i) {
      OtherRecord(h, pod, a.cid, i, z);
    }
  }

  /** After a loop that placed everything, whether or not the result could be printed. */
  lemma AllPlacedClaimed(w: World, h: State, a: Args, pod: nat, pfs: seq<PfInfo>, reqs: seq<Rates>, placed: seq<nat>)
    requires Inv(h) && TempSafe(h, pod) && InBounds(placed, |reqs|, |pfs|)
    ensures var p := PlaceFrom(w, h, a, pod, pfs, reqs, placed, 0);
            p.stop.Completed? ==> AllClaimed(h, p.h, pod, a.cid)
  {
    hide PlaceFrom, UniqueNames, Wired, DevOk, Eth, Key, IsEthName, TempSafe, CfgGiven, FramesOwn, Evolves;
    GaveNothing(h, h, a, pod);
    var last, given := PlaceFromGave(w, h, h, a, pod, pfs, reqs, placed, 0, {});
    var p := PlaceFrom(w, h, a, pod, pfs, reqs, placed, 0);
    if p.stop.Completed? {
      forall i | i in Out(h, p.h) ensures Reclaimable(p.h, pod, a.cid, i) {
        GivenHasRecord(p.h, given, a.cid, |placed|, h.store, i);
      }
    }
  }

  /** No setup has failed whose moved link is not reclaimable, and the rollback loses no link. */
  ghost predicate NoneLost(w: World, h: State, p: Turn, a: Args, pod: nat, moved: Option<nat>) {
    && (p.stop.SetupFailed? && moved.Some? ==> Reclaimable(p.h, pod, a.cid, moved.value))
    && !(ErrSet(p.stop) && LosesOne(w, h, p, a, pod))
  }

  /**
   An ADD in any world, that ends at any turn and in any way, and then a DEL in any world. What is out after the ADD is
   reclaimable, unless a setup failed that had moved its link and left it without one of DEL's names or without a record
   under its name, or the rollback's release has lost its link. DEL decides the rest, and with calls that work there is
   no rest.
   */
  lemma AnyAddThenDel(w: World, w': World, h: State, a: Args, pod: nat, pfs: seq<PfInfo>, reqs: seq<Rates>,
                      placed: seq<nat>)
    returns (last: State, given: set<nat>, moved: Option<nat>)
    requires Inv(h) && DevOk(h.links, Pod(pod)) && TempSafe(h, pod) && InBounds(placed, |reqs|, |pfs|)
    requires a.ns == Some(pod)
    ensures var p := PlaceFrom(w, h, a, pod, pfs, reqs, placed, 0);
            var t := AddBody(w, h, a, pod, pfs, reqs, placed).h;
            && (!p.stop.Completed? ==> FailedAt(h, last, p.h, a, pod, |p.answers|, p.stop, given, moved))
            && (AllClaimed(h, t, pod, a.cid) <==> NoneLost(w, h, p, a, pod, moved))
            && (Home(h, Del(w', t, a).h.links) <==> forall i | i in Out(h, t) :: BroughtHome(w', t, a, pod, i))
            && (Cooperates(w', t, a, pod) && AllOwned(t, ReclaimSet(t, pod, a.cid)) ==>
                  (Home(h, Del(w', t, a).h.links) <==> NoneLost(w, h, p, a, pod, moved)))
  {
    hide AddBody, PlaceFrom, Del, UniqueNames, Wired, DevOk, Eth, Key, IsEthName, AllClaimed, Home, Cooperates,
        AllOwned, TempSafe, Gave, LeftBehind, Touched, FramesOwn, Reclaimed, PickedBy, FoundRoom, Evolves, LosesOne,
        BroughtHome;
    var pick;
    last, given, moved, pick := WhereItFailed(w, h, a, pod, pfs, reqs, placed);
    var p := PlaceFrom(w, h, a, pod, pfs, reqs, placed, 0);
    var t := AddBody(w, h, a, pod, pfs, reqs, placed).h;
    if p.stop.Completed? {
      AllPlacedClaimed(w, h, a, pod, pfs, reqs, placed);
    } else {
      EthIsEthName(|p.answers|);
      OnlyMovedUnclaimed(h, last, p.h, a, pod, |p.answers|, p.stop, given, moved);
    }
    ClaimsAfterRollback(w, h, a, pod, pfs, reqs, placed);
    AddBodyKept(w, h, a, pod, pfs, reqs, placed);
    SameKeys(h, t, pod, a.cid);
    HomeAfter(w', h, t, a, pod);
    if Cooperates(w', t, a, pod) && AllOwned(t, ReclaimSet(t, pod, a.cid)) {
      DelExact(w', t, a, pod);
      HomeIfClaimed(h, t, Del(w', t, a).h, pod, a);
    }
  }
}
