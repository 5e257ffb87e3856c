/** Which links are back after a failed ADD, whatever the step that failed: the promise of the rollback, measured. */
module AllBack {
  import opened Text
  import opened Host
  import opened Lifecycle
  import opened HostInvariant
  import opened Reclaim
  import opened Placement
  import opened Progress
  import opened Partial
  import opened Rollback
  import opened Panic

  // ----- the effect of a rollback on the links -----

  /** The links after a release: the one released is back if it has a record, and no other has changed. */
  ghost function AfterRelease(h: State, z: nat, key: string): Links {
    if z in h.links && key in h.store then h.links[z := Back(h.links[z], z)] else h.links
  }

  lemma ReleaseLinks(w: World, h: State, a: Args, pod: nat, name: string, pf: string, vf: Option<nat>, z: nat)
    requires Inv(h) && DevOk(h.links, Pod(pod)) && AllOk(w, h.clock) && At(h.links, z, Pod(pod), name)
    ensures Release(w, h, a, pod, name, pf, vf).h.links == AfterRelease(h, z, Key(a.cid, name))
  {
    hide MaybeResetVlan, ResetRates, EnterAndReturn, Consume, Exec, Key, Dev, UniqueNames, DevOk, Wired;
    var key := Key(a.cid, name);
    if key !in h.store {
      NoRecordNoRollback(w, h, a, pod, name, pf, vf);
    } else {
      ConsumeOk(w, h, key);
      var c := Consume(w, h, key).h;
      EnterAndReturnOk(w, c, pod, name, z);
      var b := EnterAndReturn(w, c, pod, name).h;
      var id := VfId(pf, if vf.Some? then vf.value else 0);
      ResetsKeep(w, b, a.vlan, pf, Dev(z), id);
      ResetsKeep(w, MaybeResetVlan(w, b, a.vlan, pf, Dev(z)).h, a.vlan, pf, Dev(z), id);
    }
  }

  /** The last of the first n interfaces that is in the pod. */
  ghost predicate IsLast(links: Links, pod: nat, n: nat, found: Option<nat>) {
    && (found.Some? ==> found.value < n && Find(links, Pod(pod), Eth(found.value)).Some?)
    && forall j: nat | j < n && (found.Some? ==> found.value < j) :: Find(links, Pod(pod), Eth(j)).None?
  }

  /** What the rollback does that starts on host t after k complete turns and one that failed. */
  ghost predicate Unwinds(t: State, a: Args, pod: nat, k: nat, leased: nat, found: Option<nat>, links: Links,
                          actions: seq<Action>) {
    && IsLast(t.links, pod, k + 1, found)
    && match found
       case None => links == t.links && actions == Drops(leased, 0)
       case Some(i) =>
         && links == AfterRelease(t, Find(t.links, Pod(pod), Eth(i)).value, Key(a.cid, Eth(i)))
         && actions == Drops(leased, i) + [Released(i)]
  }

  /** The loop ended with err set, and from then on calls work. */
  ghost predicate FailedWithErr(w: World, p: Turn) {
    ErrSet(p.stop) && AllOk(w, p.h.clock)
  }

  function Leased(p: Turn): nat {
    |p.answers| + if p.stop.ConfigFailed? then 1 else 0
  }

  /** Every ADD that fails with err set, when the calls of its rollback work: its effect on the links. */
  lemma RollbackLinks(w: World, h: State, a: Args, pod: nat, pfs: seq<PfInfo>, reqs: seq<Rates>, placed: seq<nat>)
    returns (found: Option<nat>)
    requires Inv(h) && DevOk(h.links, Pod(pod)) && InBounds(placed, |reqs|, |pfs|)
    ensures var p := PlaceFrom(w, h, a, pod, pfs, reqs, placed, 0);
            var r := AddBody(w, h, a, pod, pfs, reqs, placed);
            FailedWithErr(w, p) ==>
              && |p.answers| < |placed| && Inv(p.h) && DevOk(p.h.links, Pod(pod)) && p.h.links.Keys == h.links.Keys
              && r.exit.Returned? && Unwinds(p.h, a, pod, |p.answers|, Leased(p), found, r.h.links, r.exit.actions)
  {
    hide Search, AddBody, PlaceFrom, Release, UniqueNames, DevOk, Wired, Eth, Find, Key, Evolves;
    var p := PlaceFrom(w, h, a, pod, pfs, reqs, placed, 0);
    var at;
    found, at := RollbackExact(w, h, a, pod, pfs, reqs, placed);
    if FailedWithErr(w, p) {
      PlaceFromKept(w, h, a, pod, pfs, reqs, placed, 0);
      SameKeys(h, p.h, pod, a.cid);
      LastIsLast(w, p.h, pod, |p.answers| + 1, found, at.clock);
      if found.Some? {
        var name := Eth(found.value);
        FindIsAt(p.h.links, Pod(pod), name);
        var z := Find(p.h.links, Pod(pod), name).value;
        var f := p.frames[2 * found.value];
        ReleaseLinks(w, at, a, pod, name, f.pf, f.vf, z);
      }
    }
  }

  lemma SameKeys(h: State, t: State, pod: nat, cid: string)
    requires Kept(h, t, pod, cid)
    ensures t.links.Keys == h.links.Keys
  {
  }

  lemma LastIsLast(w: World, h: State, pod: nat, n: nat, found: Option<nat>, to: nat)
    requires LastFound(w, h, pod, n, found, to) && AllOk(w, h.clock)
    ensures IsLast(h.links, pod, n, found)
  {
    hide Find, Eth;
    assert !SomeFailed(w, h.clock, to);
  }

  // ----- when all links are back -----

  ghost predicate Home(h: State, links: Links) {
    forall i | i in h.links && h.links[i].ns == Init :: i in links && links[i].ns == Init
  }

  /** The links that an ADD has taken from the initial namespace. */
  ghost function Out(h: State, t: State): set<nat> {
    set i | i in h.links && h.links[i].ns == Init && i in t.links && t.links[i].ns != Init
  }

  /** Nothing is out, or a single link that the rollback will find and that has a record. */
  ghost predicate Rescuable(h: State, t: State, a: Args, pod: nat, found: Option<nat>) {
    || Out(h, t) == {}
    || exists z :: && Out(h, t) == {z} && found.Some? && At(t.links, z, Pod(pod), Eth(found.value))
                   && Key(a.cid, Eth(found.value)) in t.store
  }

  /** After a rollback that starts on host t all links are home exactly if what is out is rescuable. */
  lemma HomeIffRescuable(h: State, t: State, a: Args, pod: nat, k: nat, leased: nat, found: Option<nat>, links: Links,
                         actions: seq<Action>)
    requires UniqueNames(t.links) && t.links.Keys == h.links.Keys
    ensures Unwinds(t, a, pod, k, leased, found, links, actions) ==>
              (Home(h, links) <==> Rescuable(h, t, a, pod, found))
  {
    hide Key, Eth, Dev, Find;
    if Unwinds(t, a, pod, k, leased, found, links, actions) {
      if found.Some? {
        FindIsAt(t.links, Pod(pod), Eth(found.value));
        var z := Find(t.links, Pod(pod), Eth(found.value)).value;
        HomeAfter(h, t, z, Key(a.cid, Eth(found.value)));
        forall y | At(t.links, y, Pod(pod), Eth(found.value)) ensures y == z {
        }
      } else {
        HomeAfter(h, t, 0, "");
      }
    }
  }

  lemma HomeAfter(h: State, t: State, z: nat, key: string)
    requires t.links.Keys == h.links.Keys
    ensures Home(h, t.links) <==> Out(h, t) == {}
    ensures z in t.links && t.links[z].ns != Init ==>
              (Home(h, AfterRelease(t, z, key)) <==> Out(h, t) == {} || (Out(h, t) == {z} && key in t.store))
  {
    hide Dev;
    forall i | i in h.links && h.links[i].ns == Init ensures i in Out(h, t) <==> t.links[i].ns != Init {
    }
    if z in t.links && t.links[z].ns != Init && key in t.store {
      var links := AfterRelease(t, z, key);
      assert forall i | i in h.links :: links[i].ns == Init <==> t.links[i].ns == Init || i == z;
      if Home(h, links) {
        assert forall i | i in Out(h, t) :: i == z;
      }
    }
  }

  /**
   The promise of the rollback, for every ADD that fails with err set: all links are back exactly if none was
   out, or one alone that has the name the rollback finds last and a record under it.
   */
  lemma AllBackIff(w: World, h: State, a: Args, pod: nat, pfs: seq<PfInfo>, reqs: seq<Rates>, placed: seq<nat>)
    returns (found: Option<nat>)
    requires Inv(h) && DevOk(h.links, Pod(pod)) && InBounds(placed, |reqs|, |pfs|)
    ensures var p := PlaceFrom(w, h, a, pod, pfs, reqs, placed, 0);
            var r := AddBody(w, h, a, pod, pfs, reqs, placed);
            FailedWithErr(w, p) ==>
              && IsLast(p.h.links, pod, |p.answers| + 1, found)
              && (Home(h, r.h.links) <==> Rescuable(h, p.h, a, pod, found))
  {
    hide AddBody, PlaceFrom, Home, Rescuable, IsLast, AfterRelease, Drops;
    found := RollbackLinks(w, h, a, pod, pfs, reqs, placed);
    var p := PlaceFrom(w, h, a, pod, pfs, reqs, placed, 0);
    var r := AddBody(w, h, a, pod, pfs, reqs, placed);
    if FailedWithErr(w, p) {
      HomeIffRescuable(h, p.h, a, pod, |p.answers|, Leased(p), found, r.h.links, r.exit.actions);
    }
  }

  // ----- turn by turn -----

  function Only(moved: Option<nat>): set<nat> {
    if moved.Some? then {moved.value} else {}
  }

  /** The host at the failure: last is the host before the turn that failed, moved the link this turn has moved. */
  ghost predicate FailedAt(h: State, last: State, t: State, a: Args, pod: nat, k: nat, stop: Stop, given: set<nat>,
                           moved: Option<nat>)
    requires Inv(h)
  {
    && Gave(h, last, a, pod, given, k) && Inv(last) && LeftBehind(last.links, t.links, pod, moved)
    && (if stop.SetupFailed? then t.store == last.store
        else moved.Some? && At(t.links, moved.value, Pod(pod), Eth(k)) && Key(a.cid, Eth(k)) in t.store)
  }

  ghost predicate OnlyRecord(store: map<string, Record>, store': map<string, Record>, key: string) {
    forall k | k != key :: (k in store' <==> k in store) && (k in store ==> store'[k] == store[k])
  }

  /** What the turn that failed has done to its VF and its record, and the rollback it has registered. */
  ghost predicate TurnLeft(w: World, last: State, p: Turn, a: Args, pod: nat, pf: string, rates: Rates,
                           moved: Option<nat>, pick: Option<Pick>) {
    var k := |p.answers|;
    && Touched(last, p.h, pick, a.vlan, rates) && OnlyRecord(last.store, p.h.store, Key(a.cid, Eth(k)))
    && (moved.Some? ==> pick.Some? && pick.value.x == moved.value && (pick.value.vlanSet <==> a.vlan != 0))
    && (pick.Some? ==> pick.value.id.pf == pf && 2 * k < |p.frames| && p.frames[2 * k].RollbackFrame?
                       && p.frames[2 * k].pf == pf && p.frames[2 * k].vf == Some(pick.value.id.num))
    && (if p.stop.SetupFailed?
        then PickedBy(w, ScanOf(w, last, pf, rates), pick, pf, a.vlan) && FoundRoom(last.links, pod, moved)
        else moved.Some?)
  }

  lemma WhereItFailed(w: World, h: State, a: Args, pod: nat, pfs: seq<PfInfo>, reqs: seq<Rates>, placed: seq<nat>)
    returns (last: State, given: set<nat>, moved: Option<nat>, pick: Option<Pick>)
    requires Inv(h) && TempSafe(h, pod) && InBounds(placed, |reqs|, |pfs|)
    ensures var p := PlaceFrom(w, h, a, pod, pfs, reqs, placed, 0);
            var k := |p.answers|;
            !p.stop.Completed? ==>
              && FailedAt(h, last, p.h, a, pod, k, p.stop, given, moved) && FramesOwn(p.frames, last, pod, 0, k)
              && k < |placed| && TurnLeft(w, last, p, a, pod, pfs[placed[k]].name, reqs[k], moved, pick)
  {
    hide PlaceFrom, Setup, Key, Eth, UniqueNames, Wired, DevOk, TempSafe, Gave, LeftBehind, Configure, Exec, Evolves,
        FramesOwn, Touched, ScanOf, FoundRoom;
    var p := PlaceFrom(w, h, a, pod, pfs, reqs, placed, 0);
    GaveNothing(h, h, a, pod);
    last, given := PlaceFromGave(w, h, h, a, pod, pfs, reqs, placed, 0, {});
    moved, pick := None, None;
    if !p.stop.Completed? {
      var k := |p.answers|;
      var pf, rates := pfs[placed[k]].name, reqs[k];
      TempSafeNow(h, last, a, pod, given, k);
      var one := PlaceOne(w, last, a, pod, k, pf, rates);
      assert p.frames[2 * k..] == one.frames;
      if p.stop.SetupFailed? {
        SetupStop(w, last, a, pod, k, pf, rates);
        moved, pick := SetupLeaves(w, last, a, pod, pf, Eth(k), rates);
        assert p.frames[2 * k] == one.frames[0];
      } else {
        hide PlaceOne;
        var x, vf, up := PlaceOneDone(w, last, a, pod, k, pf, rates);
        moved, pick := Some(x), Some(Pick(VfId(pf, vf), x, a.vlan != 0));
        GivenIsMoved(last, p.h, VfId(pf, vf), x, a, pod, Eth(k), rates, up);
        assert p.frames[2 * k] == one.frames[0];
      }
    }
  }

  lemma SetupStop(w: World, h: State, a: Args, pod: nat, i: nat, pf: string, rates: Rates)
    requires PlaceOne(w, h, a, pod, i, pf, rates).stop.SetupFailed?
    ensures var s := Setup(w, h, a, pod, pf, Eth(i), rates);
            var one := PlaceOne(w, h, a, pod, i, pf, rates);
            !s.ok && one.h == s.h && one.frames == [RollbackFrame(i, pf, s.vf)]
  {
    hide Setup, Configure, Exec, Eth;
  }

  lemma GivenIsMoved(h: State, t: State, id: VfId, x: nat, a: Args, pod: nat, podIf: string, rates: Rates, up: bool)
    requires WasFree(h, id, x) && SameButClock(t, Given(h, id, x, a, pod, podIf, rates, up))
    ensures LeftBehind(h.links, t.links, pod, Some(x))
    ensures At(t.links, x, Pod(pod), podIf) && Key(a.cid, podIf) in t.store
    ensures OnlyRecord(h.store, t.store, Key(a.cid, podIf))
    ensures Touched(h, t, Some(Pick(id, x, a.vlan != 0)), a.vlan, rates)
  {
    hide Key;
  }

  lemma OutIs(h: State, last: State, t: State, a: Args, pod: nat, k: nat, stop: Stop, given: set<nat>,
              moved: Option<nat>)
    requires Inv(h) && FailedAt(h, last, t, a, pod, k, stop, given, moved)
    ensures Out(h, t) == given + Only(moved) && |Out(h, t)| == k + |Only(moved)| && t.links.Keys == h.links.Keys
  {
    hide Inv, Named, StoreGiven, CfgGiven, Key, Eth;
    OutOfTwo(h, t, last.links, pod, k, given, moved);
  }

  lemma OutOfTwo(h: State, t: State, links: Links, pod: nat, k: nat, given: set<nat>, moved: Option<nat>)
    requires LinksGiven(h.links, links, pod, given, k) && LeftBehind(links, t.links, pod, moved)
    ensures Out(h, t) == given + Only(moved) && |Out(h, t)| == k + |Only(moved)| && t.links.Keys == h.links.Keys
  {
    hide Named;
    assert moved.Some? ==> moved.value !in given;
    forall i ensures i in Out(h, t) <==> i in given + Only(moved) {
    }
    Disjoint(given, moved);
  }

  lemma Disjoint(given: set<nat>, moved: Option<nat>)
    requires moved.Some? ==> moved.value !in given
    ensures |given + Only(moved)| == |given| + |Only(moved)|
  {
    if moved.None? {
      assert given + Only(moved) == given;
    }
  }

  /** When all links are back, turn by turn. */
  ghost predicate BackByTurn(t: State, a: Args, pod: nat, k: nat, moved: Option<nat>) {
    || (k == 0 && moved.None?)
    || (k == 0 && moved.Some? && At(t.links, moved.value, Pod(pod), Eth(0)) && Key(a.cid, Eth(0)) in t.store)
    || (k == 1 && moved.None? && Find(t.links, Pod(pod), Eth(1)).None?)
  }

  lemma RescuableByTurn(h: State, last: State, t: State, a: Args, pod: nat, k: nat, stop: Stop, given: set<nat>,
                        moved: Option<nat>, found: Option<nat>)
    requires Inv(h) && FailedAt(h, last, t, a, pod, k, stop, given, moved) && IsLast(t.links, pod, k + 1, found)
    ensures Rescuable(h, t, a, pod, found) <==> BackByTurn(t, a, pod, k, moved)
  {
    hide Inv, Gave, LeftBehind, Key, Eth, Find;
    OutIs(h, last, t, a, pod, k, stop, given, moved);
    if k == 0 {
      NoneGiven(h, t, a, pod, given, moved, found);
    } else if k == 1 && moved.None? {
      OneGiven(h, last, t, a, pod, stop, given, found);
    } else {
      NotSingle(Out(h, t));
    }
  }

  lemma NotSingle(s: set<nat>)
    requires |s| >= 2
    ensures forall z :: s != {z}
  {
    forall z ensures s != {z} {
      assert |{z}| == 1;
    }
  }

  lemma NoneGiven(h: State, t: State, a: Args, pod: nat, given: set<nat>, moved: Option<nat>, found: Option<nat>)
    requires Out(h, t) == given + Only(moved) && |Out(h, t)| == |Only(moved)| && IsLast(t.links, pod, 1, found)
    ensures Rescuable(h, t, a, pod, found) <==> BackByTurn(t, a, pod, 0, moved)
  {
    hide Key, Eth, Find;
    if moved.Some? {
      OnlyOne(Out(h, t), moved.value);
      FindIsAt(t.links, Pod(pod), Eth(0));
    }
  }

  lemma OneGiven(h: State, last: State, t: State, a: Args, pod: nat, stop: Stop, given: set<nat>, found: Option<nat>)
    requires Inv(h) && Out(h, t) == given
    ensures FailedAt(h, last, t, a, pod, 1, stop, given, None) && IsLast(t.links, pod, 2, found) ==>
              (Rescuable(h, t, a, pod, found) <==> Find(t.links, Pod(pod), Eth(1)).None?)
  {
    hide UniqueNames, Wired, DevOk, CfgGiven, Key, Eth, Find;
    if !FailedAt(h, last, t, a, pod, 1, stop, given, None) || !IsLast(t.links, pod, 2, found) {
      return;
    }
    var z := GivenWears(last.links, given, 1, 0);
    OnlyOne(given, z);
    assert At(t.links, z, Pod(pod), Eth(0));
    FindIsAt(t.links, Pod(pod), Eth(0));
    FindIsAt(t.links, Pod(pod), Eth(1));
    assert IsFirst(a.cid, 1, Key(a.cid, Eth(0)));
    if Eth(0) == Eth(1) {
      EthInjective(0, 1);
    }
  }

  lemma OnlyOne(s: set<nat>, z: nat)
    requires |s| == 1 && z in s
    ensures s == {z}
  {
    assert |s - {z}| == 0;
  }

  /**
   Turn by turn, for every ADD that fails with err set and whose rollback's calls work. k turns are complete:
   with k == 0 all links are back unless the failing setup has moved its link and left it without name or record;
   with k == 1 they are back exactly if the failing setup has moved no link and no eth1 is in the pod; later, never.
   */
  lemma HomeByTurn(w: World, h: State, a: Args, pod: nat, pfs: seq<PfInfo>, reqs: seq<Rates>, placed: seq<nat>)
    returns (last: State, given: set<nat>, moved: Option<nat>, pick: Option<Pick>)
    requires Inv(h) && DevOk(h.links, Pod(pod)) && TempSafe(h, pod) && InBounds(placed, |reqs|, |pfs|)
    ensures var p := PlaceFrom(w, h, a, pod, pfs, reqs, placed, 0);
            var r := AddBody(w, h, a, pod, pfs, reqs, placed);
            var k := |p.answers|;
            FailedWithErr(w, p) ==>
              && FailedAt(h, last, p.h, a, pod, k, p.stop, given, moved) && FramesOwn(p.frames, last, pod, 0, k)
              && k < |placed| && TurnLeft(w, last, p, a, pod, pfs[placed[k]].name, reqs[k], moved, pick)
              && (Home(h, r.h.links) <==> BackByTurn(p.h, a, pod, |p.answers|, moved))
  {
    hide AddBody, PlaceFrom, Home, Rescuable, IsLast, BackByTurn, Inv, DevOk, TempSafe, FailedAt, TurnLeft, FramesOwn;
    var found := AllBackIff(w, h, a, pod, pfs, reqs, placed);
    last, given, moved, pick := WhereItFailed(w, h, a, pod, pfs, reqs, placed);
    var p := PlaceFrom(w, h, a, pod, pfs, reqs, placed, 0);
    if FailedWithErr(w, p) {
      RescuableByTurn(h, last, p.h, a, pod, |p.answers|, p.stop, given, moved, found);
    }
  }

  // ----- a setup that fails -----

  /**
   A setup that fails at turn k without having moved a link, while eth<k> is free in the pod: the turn before
   is undone, lease and interface; the first turn has none before it.
   */
  lemma SetupFailedClean(w: World, h: State, a: Args, pod: nat, pfs: seq<PfInfo>, reqs: seq<Rates>, placed: seq<nat>)
    requires Inv(h) && DevOk(h.links, Pod(pod)) && TempSafe(h, pod) && InBounds(placed, |reqs|, |pfs|)
    ensures var p := PlaceFrom(w, h, a, pod, pfs, reqs, placed, 0);
            var r := AddBody(w, h, a, pod, pfs, reqs, placed);
            var k := |p.answers|;
            FailedClean(w, h, pod, p) ==>
              && r.exit.Returned?
              && r.exit.actions == (if k == 0 then [] else [LeaseDropped(k - 1), Released(k - 1)])
              && (Home(h, r.h.links) <==> k <= 1)
  {
    hide AddBody, PlaceFrom, Home, Inv, DevOk, TempSafe, Eth, Find, Key, Gave, LeftBehind;
    var p := PlaceFrom(w, h, a, pod, pfs, reqs, placed, 0);
    var k := |p.answers|;
    var found := RollbackLinks(w, h, a, pod, pfs, reqs, placed);
    var last, given, moved, pick := HomeByTurn(w, h, a, pod, pfs, reqs, placed);
    if FailedClean(w, h, pod, p) {
      OutIs(h, last, p.h, a, pod, k, p.stop, given, moved);
      assert moved.None?;
      if k > 0 {
        LastGiven(h, last, p.h, a, pod, k, given);
        OneDrop(k, k - 1);
        assert found == Some(k - 1);
      }
    }
  }

  lemma LastGiven(h: State, last: State, t: State, a: Args, pod: nat, k: nat, given: set<nat>)
    requires Inv(h) && k > 0 && LeftBehind(last.links, t.links, pod, None)
    ensures Gave(h, last, a, pod, given, k) ==> Find(t.links, Pod(pod), Eth(k - 1)).Some?
  {
    hide UniqueNames, Wired, DevOk, CfgGiven, StoreGiven, Eth, Find;
    if !Gave(h, last, a, pod, given, k) {
      return;
    }
    var z := GivenWears(last.links, given, k, k - 1);
    assert At(t.links, z, Pod(pod), Eth(k - 1));
    FindIsAt(t.links, Pod(pod), Eth(k - 1));
  }

  /** A setup has failed at turn k, moved no link, and left eth<k> free in the pod. */
  ghost predicate FailedClean(w: World, h: State, pod: nat, p: Turn) {
    && FailedWithErr(w, p) && p.stop.SetupFailed? && |Out(h, p.h)| == |p.answers|
    && Find(p.h.links, Pod(pod), Eth(|p.answers|)).None?
  }

  /** The whole effect of that rollback: the VF of the turn before is freed, and nothing else on the host changes. */
  lemma TurnBeforeUndone(w: World, h: State, a: Args, pod: nat, pfs: seq<PfInfo>, reqs: seq<Rates>, placed: seq<nat>)
    returns (id: VfId, z: nat)
    requires Inv(h) && DevOk(h.links, Pod(pod)) && TempSafe(h, pod) && PfsApart(h) && InBounds(placed, |reqs|, |pfs|)
    ensures var p := PlaceFrom(w, h, a, pod, pfs, reqs, placed, 0);
            var r := AddBody(w, h, a, pod, pfs, reqs, placed);
            var k := |p.answers|;
            FailedClean(w, h, pod, p) && k > 0 ==>
              && id in p.h.vfLinks && p.h.vfLinks[id] == [z] && id in p.h.vfCfg
              && At(p.h.links, z, Pod(pod), Eth(k - 1))
              && SameButClock(r.h, Freed(p.h, z, id, Key(a.cid, Eth(k - 1)), a.vlan))
  {
    hide Search, AddBody, PlaceFrom, Release, Freed, Inv, DevOk, TempSafe, PfsApart, Eth, Find, Key, Gave, LeftBehind,
        Kept, LastFound, FramesOwn, TurnLeft, IsLast, Ladder, Drops, Evolves;
    var p := PlaceFrom(w, h, a, pod, pfs, reqs, placed, 0);
    var k := |p.answers|;
    id, z := VfId("", 0), 0;
    if FailedClean(w, h, pod, p) && k > 0 {
      var last, given, moved, pick := WhereItFailed(w, h, a, pod, pfs, reqs, placed);
      OutIs(h, last, p.h, a, pod, k, p.stop, given, moved);
      assert moved.None?;
      PlaceFromKept(w, h, a, pod, pfs, reqs, placed, 0);
      KeptInv(h, p.h, pod, a.cid);
      SameVfsKept(h, p.h, pod, a.cid);
      id, z := NamedByFrame(p.frames, last, pod, k);
      OwnerOfGiven(h, last, a, pod, k, given, id, z);
      StillThere(last.links, p.h.links, pod, z, Eth(k - 1));
      PfThere(h, p.h, pod, a.cid, id);
      LastGiven(h, last, p.h, a, pod, k, given);
      PlaceFromCount(w, h, a, pod, pfs, reqs, placed);
      LadderAt(w, h, a, pod, pfs, reqs, placed, k - 1);
      assert Releasable(p.h, p.frames, a, pod, k - 1, id, z);
      BeforeReleased(w, h, a, pod, pfs, reqs, placed, id, z);
    }
  }

  /** On host t the VF id, of link z, is the one that the rollback of turn j names, and a release can find it. */
  ghost predicate Releasable(t: State, frames: seq<Frame>, a: Args, pod: nat, j: nat, id: VfId, z: nat) {
    && j <= MAX_INT && Inv(t) && DevOk(t.links, Pod(pod)) && 2 * j < |frames|
    && frames[2 * j] == RollbackFrame(j, id.pf, Some(id.num))
    && id in t.vfLinks && t.vfLinks[id] == [z] && id in t.vfCfg
    && At(t.links, z, Pod(pod), Eth(j)) && Key(a.cid, Eth(j)) in t.store && Find(t.links, Init, id.pf).Some?
  }

  /** The rollback of such an ADD is the release of that VF. */
  lemma BeforeReleased(w: World, h: State, a: Args, pod: nat, pfs: seq<PfInfo>, reqs: seq<Rates>, placed: seq<nat>,
                       id: VfId, z: nat)
    requires InBounds(placed, |reqs|, |pfs|)
    ensures var p := PlaceFrom(w, h, a, pod, pfs, reqs, placed, 0);
            var j := |p.answers| - 1;
            FailedClean(w, h, pod, p) && j >= 0 && Releasable(p.h, p.frames, a, pod, j, id, z) ==>
              SameButClock(AddBody(w, h, a, pod, pfs, reqs, placed).h, Freed(p.h, z, id, Key(a.cid, Eth(j)), a.vlan))
  {
    hide Search, AddBody, PlaceFrom, Release, Freed, Inv, DevOk, Eth, Find, Key, LastFound, IsLast, Ladder, Drops;
    var p := PlaceFrom(w, h, a, pod, pfs, reqs, placed, 0);
    var j := |p.answers| - 1;
    var found, at := RollbackExact(w, h, a, pod, pfs, reqs, placed);
    if FailedClean(w, h, pod, p) && j >= 0 && Releasable(p.h, p.frames, a, pod, j, id, z) {
      FindIsAt(p.h.links, Pod(pod), Eth(j));
      LastIsLast(w, p.h, pod, j + 2, found, at.clock);
      TheOneBefore(p.h.links, pod, j + 1, found);
      FreedLater(w, p.h, at, a, pod, j, id, z);
    }
  }

  lemma TheOneBefore(links: Links, pod: nat, k: nat, found: Option<nat>)
    requires IsLast(links, pod, k + 1, found) && k > 0
    requires Find(links, Pod(pod), Eth(k)).None? && Find(links, Pod(pod), Eth(k - 1)).Some?
    ensures found == Some(k - 1)
  {
    hide Find, Eth;
  }

  lemma FreedLater(w: World, t: State, at: State, a: Args, pod: nat, j: nat, id: VfId, z: nat)
    requires Inv(t) && DevOk(t.links, Pod(pod)) && AllOk(w, at.clock) && SameButClock(at, t) && j <= MAX_INT
    requires id in t.vfLinks && t.vfLinks[id] == [z] && id in t.vfCfg && At(t.links, z, Pod(pod), Eth(j))
    requires Key(a.cid, Eth(j)) in t.store && Find(t.links, Init, id.pf).Some?
    ensures SameButClock(Release(w, at, a, pod, Eth(j), id.pf, Some(id.num)).h,
                         Freed(t, z, id, Key(a.cid, Eth(j)), a.vlan))
  {
    hide Release, Freed, Inv, DevOk, Eth, Find, Key;
    InvClock(t, at, pod);
    EthIsEthName(j);
    ReleaseOk(w, at, a, pod, Eth(j), id, z);
    FreedClock(at, t, z, id, Key(a.cid, Eth(j)), a.vlan);
  }

  lemma FreedClock(at: State, t: State, z: nat, id: VfId, key: string, vlan: int)
    requires SameButClock(at, t) && z in t.links && id in t.vfCfg
    ensures SameButClock(Freed(at, z, id, key, vlan), Freed(t, z, id, key, vlan))
  {
  }

  lemma InvClock(h: State, t: State, pod: nat)
    requires SameButClock(t, h) && Inv(h) && DevOk(h.links, Pod(pod))
    ensures Inv(t) && DevOk(t.links, Pod(pod))
  {
    hide UniqueNames, Wired, DevOk;
  }

  lemma PlaceFromCount(w: World, h: State, a: Args, pod: nat, pfs: seq<PfInfo>, reqs: seq<Rates>, placed: seq<nat>)
    requires InBounds(placed, |reqs|, |pfs|)
    ensures |PlaceFrom(w, h, a, pod, pfs, reqs, placed, 0).answers| <= MAX_INT
  {
    hide PlaceFrom, Ladder;
    PlaceFromLadder(w, h, a, pod, pfs, reqs, placed, 0);
  }

  lemma LadderAt(w: World, h: State, a: Args, pod: nat, pfs: seq<PfInfo>, reqs: seq<Rates>, placed: seq<nat>, j: nat)
    requires InBounds(placed, |reqs|, |pfs|)
    ensures var frames := PlaceFrom(w, h, a, pod, pfs, reqs, placed, 0).frames;
            2 * j < |frames| ==> frames[2 * j].RollbackFrame? && frames[2 * j].i == j
  {
    hide PlaceFrom;
    PlaceFromLadder(w, h, a, pod, pfs, reqs, placed, 0);
    assert (2 * j) % 2 == 0;
  }

  /** The VF of the last complete turn, as its rollback names it. */
  lemma NamedByFrame(frames: seq<Frame>, t: State, pod: nat, k: nat) returns (id: VfId, z: nat)
    requires FramesOwn(frames, t, pod, 0, k) && k > 0
    ensures id in t.vfLinks && t.vfLinks[id] == [z] && id in t.vfCfg && At(t.links, z, Pod(pod), Eth(k - 1))
    ensures 2 * (k - 1) < |frames| && frames[2 * (k - 1)] == RollbackFrame(frames[2 * (k - 1)].i, id.pf, Some(id.num))
  {
    hide Eth;
    assert FrameOwns(frames[2 * (k - 1)], t, pod, 0 + (k - 1));
    var f := frames[2 * (k - 1)];
    id := VfId(f.pf, f.vf.value);
    z := t.vfLinks[id][0];
    assert t.vfLinks[id] == [z];
  }

  lemma OwnerOfGiven(h: State, last: State, a: Args, pod: nat, k: nat, given: set<nat>, id: VfId, z: nat)
    requires Inv(h) && Inv(last) && k > 0
    requires id in last.vfLinks && last.vfLinks[id] == [z] && At(last.links, z, Pod(pod), Eth(k - 1))
    ensures Gave(h, last, a, pod, given, k) ==>
              && Key(a.cid, Eth(k - 1)) in last.store && Find(h.links, Init, id.pf).Some?
              && last.vfLinks == h.vfLinks && last.vfCfg.Keys == h.vfCfg.Keys
  {
    hide Eth, Key, Find, UniqueNames, Wired, DevOk, CfgGiven;
    if !Gave(h, last, a, pod, given, k) {
      return;
    }
    var y := GivenWears(last.links, given, k, k - 1);
    SameWearer(last.links, y, z, Pod(pod), Eth(k - 1));
    assert IsFirst(a.cid, k, Key(a.cid, Eth(k - 1)));
    var id' :| WasFree(h, id', z);
    SameOwner(h, id, id', z);
  }

  lemma StillThere(links: Links, links': Links, pod: nat, z: nat, name: string)
    requires LeftBehind(links, links', pod, None) && At(links, z, Pod(pod), name)
    ensures At(links', z, Pod(pod), name)
  {
  }

  lemma SameWearer(links: Links, y: nat, z: nat, ns: Ns, name: string)
    requires UniqueNames(links) && At(links, y, ns, name) && At(links, z, ns, name)
    ensures y == z
  {
  }

  lemma SameOwner(h: State, a: VfId, b: VfId, z: nat)
    requires Wired(h.links, h.vfLinks, h.vfCfg, h.totals) && a in h.vfLinks && b in h.vfLinks
    requires h.vfLinks[a] == [z] && h.vfLinks[b] == [z]
    ensures a == b
  {
  }

  lemma PfThere(h: State, t: State, pod: nat, cid: string, id: VfId)
    requires PfsApart(h) && id in h.vfLinks && Find(h.links, Init, id.pf).Some?
    ensures Kept(h, t, pod, cid) ==> Find(t.links, Init, id.pf).Some?
  {
    hide UniqueNames, Wired, DevOk;
    if !Kept(h, t, pod, cid) {
      return;
    }
    FindIsAt(h.links, Init, id.pf);
    var j := Find(h.links, Init, id.pf).value;
    assert Apart(h, id.pf);
    assert !Mine(h.links, h.vfLinks, j, pod);
    assert At(t.links, j, Init, id.pf);
  }

  /** A name that is taken in the pod ends the loop at its turn at the latest. */
  lemma StopsAtTaken(w: World, h: State, a: Args, pod: nat, pfs: seq<PfInfo>, reqs: seq<Rates>, placed: seq<nat>,
                     k: nat, y: nat)
    requires Inv(h) && TempSafe(h, pod) && InBounds(placed, |reqs|, |pfs|) && At(h.links, y, Pod(pod), Eth(k))
    ensures |PlaceFrom(w, h, a, pod, pfs, reqs, placed, 0).answers| <= k
  {
    hide PlaceFrom, Gave, TempSafe, UniqueNames, Wired, DevOk, Eth, Evolves;
    GaveNothing(h, h, a, pod);
    var last, given := PlaceFromGave(w, h, h, a, pod, pfs, reqs, placed, 0, {});
    var n := |PlaceFrom(w, h, a, pod, pfs, reqs, placed, 0).answers|;
    if n > k {
      TakenIsNotGiven(h, last, a, pod, given, n, k, y);
    }
  }

  lemma TakenIsNotGiven(h: State, t: State, a: Args, pod: nat, given: set<nat>, n: nat, k: nat, y: nat)
    requires Inv(h) && UniqueNames(t.links) && Gave(h, t, a, pod, given, n) && At(h.links, y, Pod(pod), Eth(k))
    ensures n <= k
  {
    hide Wired, DevOk, CfgGiven, StoreGiven, Eth;
    if n > k {
      var z := GivenWears(t.links, given, n, k);
    }
  }

  lemma GivenWears(links: Links, given: set<nat>, n: nat, k: nat) returns (z: nat)
    requires AllWorn(links, given, n) && k < n
    ensures z in given && Wears(links, z, k)
  {
    hide Eth;
    assert IsWorn(links, given, k);
    z :| z in given && Wears(links, z, k);
  }

  /**
   The interface's name is taken in the pod at the turn that failed: the rollback takes the foreign link for
   the interface, clears err and stops there. The links of the turns before stay in the pod, and so does a link
   that this turn has moved, under another name.
   */
  lemma EthTaken(w: World, h: State, a: Args, pod: nat, pfs: seq<PfInfo>, reqs: seq<Rates>, placed: seq<nat>, y: nat)
    returns (last: State, given: set<nat>, moved: Option<nat>)
    requires Inv(h) && DevOk(h.links, Pod(pod)) && TempSafe(h, pod) && InBounds(placed, |reqs|, |pfs|)
    ensures var p := PlaceFrom(w, h, a, pod, pfs, reqs, placed, 0);
            var r := AddBody(w, h, a, pod, pfs, reqs, placed);
            var k := |p.answers|;
            FailedWithErr(w, p) && At(h.links, y, Pod(pod), Eth(k)) ==>
              && p.stop.SetupFailed? && FailedAt(h, last, p.h, a, pod, k, p.stop, given, moved)
              && r.exit.Returned? && r.exit.actions == [Released(k)]
              && r.h.links == AfterRelease(p.h, y, Key(a.cid, Eth(k)))
              && (forall i | i in given + Only(moved) :: i in r.h.links && r.h.links[i].ns == Pod(pod))
              && (moved.Some? ==> moved.value in r.h.links && r.h.links[moved.value].name != Eth(k))
              && (Home(h, r.h.links) <==> k == 0 && moved.None?)
  {
    hide AddBody, PlaceFrom, Home, UniqueNames, Wired, DevOk, TempSafe, Eth, Find, Key, FailedAt, AfterRelease,
        BackByTurn;
    var p := PlaceFrom(w, h, a, pod, pfs, reqs, placed, 0);
    var k := |p.answers|;
    var found := RollbackLinks(w, h, a, pod, pfs, reqs, placed);
    var pick;
    last, given, moved, pick := HomeByTurn(w, h, a, pod, pfs, reqs, placed);
    if FailedWithErr(w, p) && At(h.links, y, Pod(pod), Eth(k)) {
      ForeignIsFound(h, last, p.h, a, pod, k, p.stop, given, moved, y);
      assert found == Some(k);
      assert Drops(k, k) + [Released(k)] == [Released(k)];
    }
  }

  lemma ForeignIsFound(h: State, last: State, t: State, a: Args, pod: nat, k: nat, stop: Stop, given: set<nat>,
                       moved: Option<nat>, y: nat)
    requires Inv(h) && UniqueNames(t.links) && FailedAt(h, last, t, a, pod, k, stop, given, moved)
    requires At(h.links, y, Pod(pod), Eth(k))
    ensures stop.SetupFailed? && Find(t.links, Pod(pod), Eth(k)) == Some(y)
    ensures BackByTurn(t, a, pod, k, moved) <==> k == 0 && moved.None?
    ensures var links := AfterRelease(t, y, Key(a.cid, Eth(k)));
            && (forall i | i in given + Only(moved) :: i in links && links[i].ns == Pod(pod))
            && (moved.Some? ==> moved.value in links && links[moved.value].name != Eth(k))
  {
    hide UniqueNames, Wired, DevOk, Eth, Key, Named, CfgGiven, Find, AfterRelease;
    ForeignStays(h, last, t, a, pod, k, stop, given, moved, y);
    FindUnique(t.links, y, Pod(pod), Eth(k));
    FindIsAt(t.links, Pod(pod), Eth(1));
    OthersAfterRelease(t, y, Key(a.cid, Eth(k)));
    if moved.Some? {
      WearsAlone(t.links, y, moved.value, Pod(pod), Eth(k));
    }
  }

  lemma WearsAlone(links: Links, y: nat, z: nat, ns: Ns, name: string)
    requires UniqueNames(links) && At(links, y, ns, name) && z != y
    ensures !At(links, z, ns, name)
  {
  }

  lemma OthersAfterRelease(t: State, y: nat, key: string)
    ensures var links := AfterRelease(t, y, key);
            forall i | i in t.links && i != y :: i in links && links[i] == t.links[i]
  {
  }

  lemma ForeignStays(h: State, last: State, t: State, a: Args, pod: nat, k: nat, stop: Stop, given: set<nat>,
                     moved: Option<nat>, y: nat)
    requires Inv(h) && FailedAt(h, last, t, a, pod, k, stop, given, moved) && At(h.links, y, Pod(pod), Eth(k))
    ensures At(t.links, y, Pod(pod), Eth(k)) && y !in given && moved != Some(y)
    ensures forall i | i in given + Only(moved) :: i in t.links && t.links[i].ns == Pod(pod)
  {
    hide UniqueNames, Wired, DevOk, Eth, Key, Named, CfgGiven, StoreGiven;
  }
}
