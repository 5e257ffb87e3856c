/** A host and a world that meet the premises of the theorems about whole commands, so that these say something. */
module Witness {
  import opened Text
  import opened Host
  import opened Lifecycle
  import opened HostInvariant
  import opened Reclaim
  import opened Placement
  import opened Progress
  import opened RoundTrip
  import opened SetupLaw
  import opened Partial
  import opened AllBack
  import opened Restore
  import opened Rescue
  import opened Rollback
  import opened Aftermath
  import Types020
  import CniTypes

  const POD: nat := 7

  const PFS := [PfInfo("pf", [VfInfo(0, 101)])]

  /** One physical function with one VF, whose link lies in the initial namespace. */
  function SmallHost(): State {
    var id := VfId("pf", 0);
    State(map[0 := Link(Init, "pf", true, 100), 1 := Link(Init, "vf", false, 101)],
          map["pf" := 1], map[id := [1]], map[id := VfCfg(0, 0, 0)], map[], 0)
  }

  /** Every call works; one interface is asked for, placed and given an address. */
  function SmallWorld(): World {
    (n: nat) => Fate(true, 0, Some(Types020.IPConfig(CniTypes.IPNet([10], [255]), [10], [])), [Rates(1, 2)], PFS, [0],
                     [1])
  }

  function SmallArgs(): Args {
    Args("c", Some(POD), 5, true)
  }

  lemma NotSmallName(k: nat)
    ensures Dev(k) != "pf" && Dev(k) != "vf"
  {
    assert Dev(k)[0] == 'd';
  }

  lemma SmallInv(t: State)
    requires SameButClock(t, SmallHost())
    ensures Inv(t) && DevOk(t.links, Pod(POD)) && TempSafe(t, POD)
  {
    hide Dev, Sriov;
    forall k: nat ensures Dev(k) != "pf" && Dev(k) != "vf" {
      NotSmallName(k);
    }
    assert t.vfLinks == map[VfId("pf", 0) := [1]];
    SingleNetDir(t, VfId("pf", 0));
  }

  lemma SmallReclaim()
    ensures PfsApart(SmallHost()) && ReclaimSet(SmallHost(), POD, "c") == {}
  {
    hide IsEthName, Key;
    var h := SmallHost();
    forall i ensures !At(h.links, i, Init, "pf") || !IsVfLink(h.vfLinks, i) {
    }
  }

  lemma SmallOffer(t: State)
    requires SameButClock(t, SmallHost())
    ensures CanSetUp(SmallWorld(), t, 5, "pf", POD, Eth(0))
  {
    hide Eth, NetDir, TempName;
    SingleNetDir(t, VfId("pf", 0));
    assert At(t.links, 0, Init, "pf");
    assert Visible(t, "pf", 0);
    assert First(t, "pf", 0, 1, 0);
    assert Offered(t, "pf", 0, 1);
    assert HandsOver(t.links, POD, 1, TempName(SmallWorld(), t, 5, "pf", 0), Eth(0));
  }

  /** The pair of commands that AddThenDel is about happens. */
  lemma PairHappens()
    ensures var w, h, a := SmallWorld(), SmallHost(), SmallArgs();
            var r := Add(w, h, a, true);
            && Inv(h) && DevOk(h.links, Pod(POD)) && TempSafe(h, POD) && PfsApart(h)
                && ReclaimSet(h, POD, "c") == {}
            && Succeeded(r.exit) && |r.exit.answers| == 1 && Cooperates(w, r.h, a, POD)
  {
    hide Add, Inv, DevOk, TempSafe, PfsApart, Cooperates, Gave;
    var w, h, a := SmallWorld(), SmallHost(), SmallArgs();
    SmallInv(h);
    SmallReclaim();
    SmallAdd();
    var r := Add(w, h, a, true);
    var s := AddDone(w, h, a, true, POD);
    SmallListing(r.h, s);
  }

  lemma SmallAdd()
    ensures var r := Add(SmallWorld(), SmallHost(), SmallArgs(), true);
            Succeeded(r.exit) && |r.exit.answers| == 1
  {
    hide Exec, AddBody, InBounds;
    SmallCalls(SmallHost(), SmallWorld());
    SmallBody(SmallHost().(clock := 4));
  }

  lemma SmallCalls(h: State, w: World)
    requires h.clock == 0 && forall n: nat | n < 4 :: w(n) == SmallWorld()(n)
    ensures Exec(w, h, PodInfo) == Ran(h.(clock := 1), Requests([Rates(1, 2)]))
            && Exec(w, h.(clock := 1), Query) == Ran(h.(clock := 2), Table(PFS))
            && InBounds([0], 1, 1) && Exec(w, h.(clock := 2), Place(1, 1)) == Ran(h.(clock := 3), Placed([0]))
            && Exec(w, h.(clock := 3), Probe) == Ran(h.(clock := 4), Ok)
  {
    hide Find, Taken, NetDir, Listing, Enumerates;
  }

  lemma SmallBody(t: State)
    requires SameButClock(t, SmallHost())
    ensures var r := AddBody(SmallWorld(), t, SmallArgs(), POD, PFS, [Rates(1, 2)], [0]);
            Succeeded(r.exit) && |r.exit.answers| == 1
  {
    hide PlaceOne, Unwind, Exec;
    var w, a := SmallWorld(), SmallArgs();
    SmallTurn(t);
    var one := PlaceOne(w, t, a, POD, 0, "pf", Rates(1, 2));
    OneShape(w, t, a, POD, 0, "pf", Rates(1, 2));
    assert PlaceFrom(w, one.h, a, POD, PFS, [Rates(1, 2)], [0], 1) == Turn(one.h,
        Completed, [], []);
    ProbeWorks(w, one.h);
  }

  lemma ProbeWorks(w: World, h: State)
    requires w(h.clock).ok
    ensures Exec(w, h, Probe).r.Ok?
  {
  }

  lemma SmallTurn(t: State)
    requires SameButClock(t, SmallHost())
    ensures PlaceOne(SmallWorld(), t, SmallArgs(), POD, 0, "pf", Rates(1, 2)).stop.Completed?
  {
    SmallInv(t);
    SmallOffer(t);
    hide PlaceOne, Setup, CanSetUp, CanMistake, Inv;
    PlaceOneExact(SmallWorld(), t, SmallArgs(), POD, 0, "pf", Rates(1, 2));
  }

  lemma SmallListing(t: State, s: set<nat>)
    requires Inv(SmallHost()) && Gave(SmallHost(), t, SmallArgs(), POD, s, 1)
    ensures Cooperates(SmallWorld(), t, SmallArgs(), POD)
  {
    hide Inv, Named, StoreGiven, CfgGiven, Find;
    forall i | i in s ensures i == 1 {
      var id :| WasFree(SmallHost(), id, i);
    }
    assert s == {1} by {
      assert s != {};
      var i :| i in s;
    }
    SmallTable(t);
  }

  lemma SmallTable(t: State)
    requires t.links.Keys == {0, 1} && t.links[1].ns == Pod(POD) && t.links[0].ns == Init && t.links[1].mac == 101
    requires t.vfLinks == SmallHost().vfLinks
    ensures Cooperates(SmallWorld(), t, SmallArgs(), POD)
  {
    assert Entry(PFS, VfId("pf", 0), 101) by {
      assert PFS[0].vfs[0] == VfInfo(0, 101);
    }
  }

  // ----- an ADD that fails and is not rolled back -----

  /** The same with a link in the pod that has the name of the VF's link. */
  function CrowdedHost(): State {
    SmallHost().(links := SmallHost().links[2 := Link(Pod(POD), "vf", false, 102)])
  }

  lemma CrowdedInv(t: State)
    requires SameButClock(t, CrowdedHost())
    ensures Inv(t) && DevOk(t.links, Pod(POD)) && TempSafe(t, POD) && PfsApart(t)
    ensures Offered(t, "pf", 0, 1)
  {
    hide Dev, Sriov;
    forall k: nat ensures Dev(k) != "pf" && Dev(k) != "vf" {
      NotSmallName(k);
    }
    assert t.vfLinks == map[VfId("pf", 0) := [1]];
    SingleNetDir(t, VfId("pf", 0));
    assert At(t.links, 0, Init, "pf");
    assert Visible(t, "pf", 0);
    assert First(t, "pf", 0, 1, 0);
  }

  /** The move is refused, so the setup fails. */
  lemma CrowdedTurn(t: State)
    requires SameButClock(t, CrowdedHost())
    ensures PlaceOne(SmallWorld(), t, SmallArgs(), POD, 0, "pf", Rates(1, 2)).stop.SetupFailed?
  {
    CrowdedInv(t);
    assert t.links[1].name == "vf" && At(t.links, 2, Pod(POD), "vf");
    assert !FreeIn(t.links, POD, "vf");
    hide PlaceOne, Setup, Inv, Offered, TempName, FreeIn;
    OnlyOffer(SmallWorld(), t, 5, "pf", POD, Eth(0), 0, 1);
    PlaceOneExact(SmallWorld(), t, SmallArgs(), POD, 0, "pf", Rates(1, 2));
  }

  lemma CrowdedLoop(t: State)
    requires SameButClock(t, CrowdedHost())
    ensures var p := PlaceFrom(SmallWorld(), t, SmallArgs(), POD, PFS, [Rates(1, 2)], [0], 0);
            p.stop.SetupFailed? && |p.answers| == 0
  {
    hide PlaceOne;
    CrowdedTurn(t);
    OneShape(SmallWorld(), t, SmallArgs(), POD, 0, "pf", Rates(1, 2));
  }

  /** In this world the setup's scan picks the VF. */
  lemma CrowdedScan(t: State)
    requires SameButClock(t, CrowdedHost())
    ensures var s := ScanOf(SmallWorld(), t, "pf", Rates(1, 2)); s.Some? && s.value.ok
  {
    CrowdedInv(t);
    hide Exec, Scan, Inv, Offered, First, NetDir, Looks;
    assert Find(t.links, Init, "pf").Some? by { assert At(t.links, 0, Init, "pf"); }
    Looked(SmallWorld(), t, "pf");
    ScanOffers(SmallWorld(), t, "pf", Rates(1, 2));
  }

  lemma CrowdedMark(h: State, r: State, last: State, pick: Option<Pick>)
    requires SameButClock(h, CrowdedHost()) && SameButClock(last, h)
    requires Touched(h, r, pick, 5, Rates(1, 2))
    requires PickedBy(SmallWorld(), ScanOf(SmallWorld(), last, "pf", Rates(1, 2)), pick, "pf", 5)
    ensures r.vfCfg == map[VfId("pf", 0) := VfCfg(5, 1, 2)]
  {
    hide ScanOf, Find;
    CrowdedScan(last);
  }

  lemma CrowdedOut(h: State)
    requires SameButClock(h, CrowdedHost())
    ensures FailedClean(SmallWorld(), h, POD, PlaceFrom(SmallWorld(), h, SmallArgs(), POD, PFS, [Rates(1, 2)], [0], 0))
  {
    hide PlaceFrom, Inv, DevOk, TempSafe, PfsApart, ScanOf, Gave, FramesOwn, Home, BackByTurn, Find, Touched;
    var w, a := SmallWorld(), SmallArgs();
    CrowdedInv(h);
    CrowdedLoop(h);
    var last, given, moved, pick := HomeByTurn(w, h, a, POD, PFS, [Rates(1, 2)], [0]);
    var p := PlaceFrom(w, h, a, POD, PFS, [Rates(1, 2)], [0], 0);
    GaveNothingMeans(h, last, a, POD, given);
    CrowdedRoom(last, pick, moved, p.h);
    OutIs(h, last, p.h, a, POD, 0, p.stop, given, moved);
  }

  lemma CrowdedRoom(last: State, pick: Option<Pick>, moved: Option<nat>, t: State)
    requires SameButClock(last, CrowdedHost()) && FoundRoom(last.links, POD, moved)
    requires LeftBehind(last.links, t.links, POD, moved)
    requires moved.Some? ==> pick.Some? && pick.value.x == moved.value && Touched(last, t, pick, 5, Rates(1, 2))
    ensures moved.None? && Find(t.links, Pod(POD), Eth(0)).None?
  {
    assert At(last.links, 2, Pod(POD), "vf");
    hide Eth, Find;
    EthIsNotVf();
    FindIsAt(t.links, Pod(POD), Eth(0));
  }

  lemma EthIsNotVf()
    ensures Eth(0) != "vf"
  {
    assert Eth(0)[0] == 'e';
  }

  lemma CrowdedBody(h: State)
    requires SameButClock(h, CrowdedHost())
    ensures var r := AddBody(SmallWorld(), h, SmallArgs(), POD, PFS, [Rates(1, 2)], [0]);
            && r.exit.Returned? && r.exit.stop.SetupFailed? && Home(h, r.h.links)
            && r.h.vfCfg == map[VfId("pf", 0) := VfCfg(5, 1, 2)]
  {
    hide AddBody, PlaceFrom, Inv, DevOk, TempSafe, PfsApart, Home, FailedClean, Touched, PickedBy;
    CrowdedInv(h);
    CrowdedLoop(h);
    CrowdedOut(h);
    var last, pick := FirstSetupFails(SmallWorld(), h, SmallArgs(), POD, PFS, [Rates(1, 2)], [0]);
    CrowdedMark(h, AddBody(SmallWorld(), h, SmallArgs(), POD, PFS, [Rates(1, 2)], [0]).h, last, pick);
    SameStop(SmallWorld(), h, SmallArgs(), POD, PFS, [Rates(1, 2)], [0]);
  }

  lemma SameStop(w: World, h: State, a: Args, pod: nat, pfs: seq<PfInfo>, reqs: seq<Rates>, placed: seq<nat>)
    requires InBounds(placed, |reqs|, |pfs|)
    ensures AddBody(w, h, a, pod, pfs, reqs, placed).exit.Returned?
    ensures AddBody(w, h, a, pod, pfs, reqs, placed).exit.stop == PlaceFrom(w, h, a, pod, pfs, reqs, placed, 0).stop
  {
    hide PlaceFrom, Unwind;
  }

  lemma MarkIsLeft(h: State, r: State)
    requires h.vfCfg == map[VfId("pf", 0) := VfCfg(0, 0, 0)] && r.vfCfg == map[VfId("pf", 0) := VfCfg(5, 1, 2)]
    ensures !Restored(h, r, SmallArgs(), 1)
  {
    assert VfId("pf", 0) in h.vfCfg;
  }

  lemma SameHome(h: State, t: State, links: Links)
    requires SameButClock(t, h)
    ensures Home(t, links) <==> Home(h, links)
  {
  }

  /** An ADD whose calls all work fails, finds its links at home, and leaves rates and vlan on the VF it had picked. */
  lemma FailureLeavesMark()
    ensures var w, h, a := SmallWorld(), CrowdedHost(), SmallArgs();
            var r := Add(w, h, a, true);
            && Inv(h) && DevOk(h.links, Pod(POD)) && TempSafe(h, POD) && PfsApart(h) && AllOk(w, 0)
            && r.exit.Returned? && r.exit.stop.SetupFailed? && Home(h, r.h.links)
            && r.h.vfCfg == map[VfId("pf", 0) := VfCfg(5, 1, 2)] && !Restored(h, r.h, a, 1)
  {
    hide Exec, AddBody, InBounds, Inv, DevOk, TempSafe, PfsApart, Restored, Home;
    var h := CrowdedHost();
    CrowdedInv(h);
    SmallCalls(h, SmallWorld());
    CrowdedBody(h.(clock := 4));
    var r := AddBody(SmallWorld(), h.(clock := 4), SmallArgs(), POD, PFS, [Rates(1, 2)], [0]);
    assert Add(SmallWorld(), h, SmallArgs(), true) == r;
    SameHome(h, h.(clock := 4), r.h.links);
    MarkIsLeft(h, r.h);
  }

  // ----- a rollback that loses a link -----

  /** Two calls fail: raising the interface when it is configured, and lowering it in the rollback. */
  function LossyWorld(): World {
    (n: nat) => SmallWorld()(n).(ok := n != 21 && n != 30)
  }

  const VF := VfId("pf", 0)

  /** The small host at some time, with the VF's link as given and its configuration and records. */
  function SmallAt(clock: nat, l: Link, cfg: VfCfg, store: map<string, Record>): State {
    SmallHost().(clock := clock, links := SmallHost().links[1 := l], vfCfg := map[VF := cfg], store := store)
  }

  const FREE := Link(Init, "vf", false, 101)

  function GivenLink(): Link {
    Link(Pod(POD), Eth(0), false, 101)
  }

  function GivenRecords(): map<string, Record> {
    map[Key("c", Eth(0)) := Record(Eth(0), 0, 5)]
  }

  lemma LossyScan()
    ensures Scan(LossyWorld(), SmallAt(6, FREE, VfCfg(0, 0, 0), map[]), "pf", 0, 1, Rates(1, 2)) ==
            Scanned(SmallAt(10, FREE, VfCfg(0, 1, 2), map[]), Some(0), ["vf"], true)
  {
    hide Find, Taken, Listing, Enumerates;
    var w, h := LossyWorld(), SmallAt(6, FREE, VfCfg(0, 0, 0), map[]);
    SingleNetDir(h.(clock := 7), VF);
    hide NetDir;
    assert Exec(w, h, Lstat(VF)) == Ran(h.(clock := 7), Ok);
    assert Exec(w, h.(clock := 7), ReadDir(VF)) == Ran(h.(clock := 8), Names(["vf"]));
    assert Exec(w, h.(clock := 8), PciAddr(VF)) == Ran(h.(clock := 9), Ok);
    assert Exec(w, h.(clock := 9), SetRates(VF, Rates(1, 2))) == Ran(SmallAt(10, FREE, VfCfg(0, 1, 2), map[]), Ok);
  }

  lemma LossyLooks(t: State, i: nat, ns: Ns, name: string)
    requires t.clock != 21 && t.clock != 30 && At(t.links, i, ns, name)
    requires forall j | j != i :: !At(t.links, j, ns, name)
    ensures Exec(LossyWorld(), t, LinkByName(ns, name)) == Ran(t.(clock := t.clock + 1), Index(i))
  {
    FoundAlone(t.links, i, ns, name);
  }

  lemma LossyHandRest()
    ensures HandRest(LossyWorld(), SmallAt(12, FREE, VfCfg(5, 1, 2), map[]), SmallArgs(), POD, 1, "vf", Eth(0), 0) ==
            Ran(SmallAt(18, GivenLink(), VfCfg(5, 1, 2), GivenRecords()), Ok)
  {
    hide Eth, Key, Exec, Rename;
    var w, h := LossyWorld(), SmallAt(12, FREE, VfCfg(5, 1, 2), map[]);
    IntoThePod(w, h, 1, POD);
    var en := SmallAt(15, Link(Pod(POD), "vf", false, 101), VfCfg(5, 1, 2), map[]);
    assert h.(clock := 15, links := h.links[1 := Link(Pod(POD), "vf", false, 101)]) == en;
    RenameAlone(w, en, Pod(POD), "vf", Eth(0), 1);
    assert en.(clock := 17, links := en.links[1 := en.links[1].(name := Eth(0))]) ==
        SmallAt(17, GivenLink(), VfCfg(5, 1, 2), map[]);
    LossyWrite();
  }

  lemma LossyWrite()
    ensures Exec(LossyWorld(), SmallAt(17, GivenLink(), VfCfg(5, 1, 2), map[]),
                 WriteFile(Key("c", Eth(0)), Record(Eth(0), 0, 5))) ==
            Ran(SmallAt(18, GivenLink(), VfCfg(5, 1, 2), GivenRecords()), Ok)
  {
    hide Key, Eth;
  }

  lemma LossySetup()
    ensures Setup(LossyWorld(), SmallAt(4, FREE, VfCfg(0, 0, 0), map[]), SmallArgs(), POD, "pf", Eth(0), Rates(1, 2)) ==
            SetupOut(SmallAt(18, GivenLink(), VfCfg(5, 1, 2), GivenRecords()), Some(0), true)
  {
    var w, h := LossyWorld(), SmallAt(4, FREE, VfCfg(0, 0, 0), map[]);
    LossyLooks(h, 0, Init, "pf");
    LossyScan();
    LossyHandRest();
    LossyLooks(SmallAt(11, FREE, VfCfg(5, 1, 2), map[]), 1, Init, "vf");
    LossyCounts();
    hide Exec, Scan, HandRest, Eth, Key;
  }

  lemma LossyCounts()
    ensures Exec(LossyWorld(), SmallAt(5, FREE, VfCfg(0, 0, 0), map[]), NumVfs("pf")) ==
            Ran(SmallAt(6, FREE, VfCfg(0, 0, 0), map[]), Num(1))
    ensures Exec(LossyWorld(), SmallAt(10, FREE, VfCfg(0, 1, 2), map[]), SetVlan(VF, 5)) ==
            Ran(SmallAt(11, FREE, VfCfg(5, 1, 2), map[]), Ok)
  {
    hide Find, Taken, Listing, Enumerates, NetDir;
  }

  /** The state at the failure. */
  function LossyFailure(): State {
    SmallAt(22, GivenLink(), VfCfg(5, 1, 2), GivenRecords())
  }

  lemma LossyLinks(t: State)
    requires t.links == LossyFailure().links
    ensures At(t.links, 1, Pod(POD), Eth(0)) && Find(t.links, Pod(POD), Eth(0)) == Some(1)
    ensures forall j | j != 1 :: !At(t.links, j, Pod(POD), Eth(0))
  {
    hide Eth;
    FoundAlone(t.links, 1, Pod(POD), Eth(0));
  }

  /** A namespace call that works and a lookup that works find the interface. */
  lemma LossyLookup(t: State)
    requires t.links == LossyFailure().links && t.clock !in {20, 21, 29, 30}
    ensures Lookup(LossyWorld(), t, POD, Eth(0)) == Ran(t.(clock := t.clock + 2), Index(1))
  {
    hide Eth, Find;
    LossyLinks(t);
    LossyProbe(t);
    LossyLooks(t.(clock := t.clock + 1), 1, Pod(POD), Eth(0));
    hide Exec;
  }

  lemma LossyProbe(t: State)
    requires t.clock != 21 && t.clock != 30
    ensures Exec(LossyWorld(), t, Probe) == Ran(t.(clock := t.clock + 1), Ok)
  {
  }

  lemma LossyTurn()
    ensures var one := PlaceOne(LossyWorld(), SmallAt(4, FREE, VfCfg(0, 0, 0), map[]), SmallArgs(), POD, 0, "pf",
                Rates(1, 2));
            && one.h == LossyFailure() && one.stop == ConfigFailed
            && one.frames == [RollbackFrame(0, "pf", Some(0)), IpamFrame(0)]
  {
    var s := SmallAt(18, GivenLink(), VfCfg(5, 1, 2), GivenRecords());
    LossySetup();
    LossyLookup(s.(clock := 19));
    LossyCalls(s);
    hide Setup, Lookup, Exec, Eth, Key;
  }

  lemma LossyCalls(s: State)
    requires s.clock == 18
    ensures var r := Exec(LossyWorld(), s, IpamAdd);
            r.h == s.(clock := 19) && r.r.Answer? && r.r.ip4.Some?
    ensures Exec(LossyWorld(), s.(clock := 21), SetUp(1)) == Ran(s.(clock := 22), Fail)
    ensures Exec(LossyWorld(), s.(clock := 22), IpamDel).h == s.(clock := 23)
  {
    assert LossyWorld()(18).answer == SmallWorld()(18).answer && SmallWorld()(18).answer.Some?;
  }

  lemma LossySearch()
    ensures Search(LossyWorld(), LossyFailure(), POD, [RollbackFrame(0, "pf", Some(0)), IpamFrame(0)]) ==
            Searched(Some(0), LossyFailure().(clock := 25))
  {
    var frames := [RollbackFrame(0, "pf", Some(0)), IpamFrame(0)];
    var t := LossyFailure();
    LossyCalls(t.(clock := 18));
    LossyLookup(t.(clock := 23));
    hide Lookup, Exec, Eth, Key;
    assert frames[..1] == [RollbackFrame(0, "pf", Some(0))];
  }

  lemma LossyFortune()
    ensures TakenBackAt(LossyWorld(), 25) == Lost
  {
    assert !LossyWorld()(30).ok;
  }

  lemma LossyLoop(h: State)
    requires h == SmallAt(4, FREE, VfCfg(0, 0, 0), map[])
    ensures var p := PlaceFrom(LossyWorld(), h, SmallArgs(), POD, PFS, [Rates(1, 2)], [0], 0);
            p.stop.ConfigFailed? && LosesOne(LossyWorld(), h, p, SmallArgs(), POD)
  {
    hide PlaceOne, Search, TakenBackAt, Eth, Key, Find;
    LossyTurn();
    LossySearch();
    LossyFortune();
    LossyLinks(LossyFailure());
  }

  /**
   An ADD fails in its configuration, and one call of its rollback fails: the link stays in the pod without a record,
   and no DEL in any world brings it home.
   */
  lemma RollbackLosesLink(w': World)
    ensures var h, a := SmallHost(), SmallArgs();
            var r := Add(LossyWorld(), h, a, true);
            && Inv(h) && DevOk(h.links, Pod(POD)) && TempSafe(h, POD)
            && r.exit.Returned? && r.exit.stop.ConfigFailed? && !Home(h, Del(w', r.h, a).h.links)
  {
    hide Exec, AddBody, InBounds, Inv, DevOk, TempSafe, Home, Del;
    var h := SmallHost();
    SmallInv(h);
    SmallCalls(h, LossyWorld());
    LossyBody(w', h.(clock := 4));
    SameHome(h, h.(clock := 4), Del(w', Add(LossyWorld(), h, SmallArgs(), true).h, SmallArgs()).h.links);
  }

  lemma LossyBody(w': World, t: State)
    requires t == SmallHost().(clock := 4)
    ensures var r := AddBody(LossyWorld(), t, SmallArgs(), POD, PFS, [Rates(1, 2)], [0]);
            && r.exit.Returned? && r.exit.stop.ConfigFailed? && !Home(t, Del(w', r.h, SmallArgs()).h.links)
  {
    hide AddBody, Inv, DevOk, TempSafe, Home, PlaceFrom, Del, LosesOne, AllClaimed, BroughtHome, Cooperates, AllOwned,
        FailedAt;
    SmallInv(t);
    assert t == SmallAt(4, FREE, VfCfg(0, 0, 0), map[]);
    LossyLoop(t);
    SameStop(LossyWorld(), t, SmallArgs(), POD, PFS, [Rates(1, 2)], [0]);
    var last, given, moved := AnyAddThenDel(LossyWorld(), w', t, SmallArgs(), POD, PFS, [Rates(1, 2)], [0]);
    Unclaimed(w', t, AddBody(LossyWorld(), t, SmallArgs(), POD, PFS, [Rates(1, 2)], [0]).h, SmallArgs(), POD);
  }

  lemma Unclaimed(w: World, h: State, t: State, a: Args, pod: nat)
    ensures !AllClaimed(h, t, pod, a.cid) ==> exists i :: i in Out(h, t) && !BroughtHome(w, t, a, pod, i)
  {
    hide Reclaimable, ReleaseMoment;
  }

  // ----- a setup that names the wrong link -----

  /** The VF's link is called eth0, and both namespaces have a link with the temporary name that will be drawn. */
  function MistakenHost(): State {
    var id := VfId("pf", 0);
    State(map[0 := Link(Init, "pf", true, 100), 1 := Link(Init, "eth0", false, 101),
              2 := Link(Init, Sriov(3), false, 102), 3 := Link(Pod(POD), Sriov(3), false, 103)],
          map["pf" := 1], map[id := [1]], map[id := VfCfg(0, 0, 0)], map[], 0)
  }

  function MistakenWorld(): World {
    (n: nat) => Fate(true, 3, None, [], [], [], [])
  }

  /** On this host the second interface of an ADD is a link that the setup did not choose. */
  lemma MistakeHappens(a: Args, rates: Rates)
    ensures var h := MistakenHost();
            var s := Setup(MistakenWorld(), h, a, POD, "pf", Eth(1), rates);
            && Inv(h) && AllOk(MistakenWorld(), 0)
            && s.ok && !At(s.h.links, 1, Pod(POD), Eth(1)) && exists y :: y != 1 && At(s.h.links, y, Pod(POD), Eth(1))
  {
    hide Setup;
    MistakenInv();
    MistakenOffer(a.vlan);
    SetupMistake(MistakenWorld(), MistakenHost(), a, POD, "pf", Eth(1), rates, 0, 1);
  }

  lemma MistakenInv()
    ensures Inv(MistakenHost()) && AllOk(MistakenWorld(), 0)
  {
    SriovNames();
    hide Sriov, Dev;
    forall k: nat ensures Dev(k) != "pf" && Dev(k) != "eth0" && Dev(k) != Sriov(3) {
      NotMistakenName(k);
    }
    var h := MistakenHost();
    assert UniqueNames(h.links);
    assert DevOk(h.links, Init);
    assert Wired(h.links, h.vfLinks, h.vfCfg, h.totals);
  }

  lemma SriovNames()
    ensures Sriov(3) != "pf" && Sriov(3) != "eth0" && Sriov(3) != Eth(1) && Eth(1) != "eth0"
  {
    assert Sriov(3)[0] == 's';
    assert Eth(1)[3] == '1' && Eth(1)[0] == 'e';
  }

  lemma NotMistakenName(k: nat)
    ensures Dev(k) != "pf" && Dev(k) != "eth0" && Dev(k) != Sriov(3)
  {
    assert Dev(k)[0] == 'd' && Sriov(3)[0] == 's';
  }

  lemma MistakenOffer(vlan: int)
    ensures Offered(MistakenHost(), "pf", 0, 1)
    ensures CanMistake(MistakenWorld(), MistakenHost(), vlan, "pf", POD, Eth(1))
  {
    var w, h := MistakenWorld(), MistakenHost();
    SriovNames();
    assert TempName(w, h, vlan, "pf", 0) == Sriov(3);
    hide Sriov, Eth, NetDir, TempName;
    SingleNetDir(h, VfId("pf", 0));
    assert At(h.links, 0, Init, "pf");
    assert Visible(h, "pf", 0) && First(h, "pf", 0, 1, 0);
    assert Offered(h, "pf", 0, 1);
    assert At(h.links, 2, Init, Sriov(3)) && At(h.links, 3, Pod(POD), Sriov(3));
    assert HandsOverAnother(h.links, POD, 1, Sriov(3), Eth(1));
  }
}
