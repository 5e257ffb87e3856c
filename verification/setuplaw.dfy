/** Exactly when a setup whose calls work reports success, and which link it has then given to the pod. */
module SetupLaw {
  import opened Text
  import opened Host
  import opened Lifecycle
  import opened HostInvariant
  import opened Reclaim
  import opened Placement

  // ----- exactly when a hand-over works -----

  lemma IntoThePod(w: World, h: State, x: nat, pod: nat)
    requires x in h.links && forall j :: !At(h.links, j, Pod(pod), h.links[x].name)
    requires forall c: nat | h.clock <= c < h.clock + 3 :: w(c).ok
    ensures var up := Exec(w, h, SetUp(x));
            var mv := Exec(w, up.h, SetNs(x, Pod(pod)));
            var en := Exec(w, mv.h, Probe);
            && up.r == Ok && mv.r == Ok
            && en == Ran(h.(clock := h.clock + 3,
                            links := h.links[x := Link(Pod(pod), h.links[x].name, false, h.links[x].mac)]), Ok)
  {
    var l := h.links[x];
    var up := h.links[x := l.(up := true)];
    assert forall j | j != x :: At(up, j, Pod(pod), l.name) == At(h.links, j, Pod(pod), l.name);
    assert up[x := Link(Pod(pod), l.name, false, l.mac)] == h.links[x := Link(Pod(pod), l.name, false, l.mac)];
  }

  lemma RenameAlone(w: World, h: State, ns: Ns, cur: string, name: string, x: nat)
    requires At(h.links, x, ns, cur) && (forall j | j != x :: !At(h.links, j, ns, cur) && !At(h.links, j, ns, name))
    requires w(h.clock).ok && w(h.clock + 1).ok && !h.links[x].up
    ensures Rename(w, h, ns, cur, name) ==
            Ran(h.(clock := h.clock + 2, links := h.links[x := h.links[x].(name := name)]), Ok)
  {
    FoundAlone(h.links, x, ns, cur);
  }

  lemma FoundAlone(links: Links, x: nat, ns: Ns, name: string)
    requires At(links, x, ns, name) && forall j | j != x :: !At(links, j, ns, name)
    ensures Find(links, ns, name) == Some(x)
  {
  }

  ghost predicate FreeIn(links: Links, pod: nat, name: string) {
    forall j :: !At(links, j, Pod(pod), name)
  }

  lemma HandRestWorks(w: World, h: State, a: Args, pod: nat, x: nat, name: string, podIf: string, vf: nat)
    requires At(h.links, x, Init, name) && AllOk(w, h.clock)
    requires FreeIn(h.links, pod, name) && FreeIn(h.links, pod, podIf)
    ensures HandRest(w, h, a, pod, x, name, podIf, vf).r.Ok?
  {
    hide Key, Exec, Rename;
    IntoThePod(w, h, x, pod);
    var mv := h.links[x := Link(Pod(pod), name, false, h.links[x].mac)];
    var en := h.(clock := h.clock + 3, links := mv);
    assert forall j | j != x :: At(mv, j, Pod(pod), name) == At(h.links, j, Pod(pod), name);
    assert forall j | j != x :: At(mv, j, Pod(pod), podIf) == At(h.links, j, Pod(pod), podIf);
    RenameAlone(w, en, Pod(pod), name, podIf, x);
    WriteWorks(w, Rename(w, en, Pod(pod), name, podIf).h, Key(a.cid, podIf), Record(podIf, vf, a.vlan));
  }

  /** In any world, a hand-over that succeeds found both names free in the pod. */
  lemma HandRestNeeds(w: World, h: State, a: Args, pod: nat, x: nat, name: string, podIf: string, vf: nat)
    requires UniqueNames(h.links) && At(h.links, x, Init, name)
    ensures HandRest(w, h, a, pod, x, name, podIf, vf).r.Ok? ==>
              FreeIn(h.links, pod, name) && FreeIn(h.links, pod, podIf)
  {
    hide Key, Rename, Exec;
    if HandRest(w, h, a, pod, x, name, podIf, vf).r.Ok? {
      Moved(w, h, x, pod);
      var mv := Exec(w, Exec(w, h, SetUp(x)).h, SetNs(x, Pod(pod)));
      ProbeOnlyTicks(w, mv.h);
      NamesWereFree(w, h, Exec(w, mv.h, Probe).h, pod, x, name, podIf);
    }
  }

  lemma NamesWereFree(w: World, h: State, en: State, pod: nat, x: nat, name: string, podIf: string)
    requires At(h.links, x, Init, name) && UniqueNames(en.links)
    requires en.links == h.links[x := h.links[x].(ns := Pod(pod), up := false)]
    requires Rename(w, en, Pod(pod), name, podIf).r.Ok?
    ensures FreeIn(h.links, pod, name) && FreeIn(h.links, pod, podIf)
  {
    FindUnique(en.links, x, Pod(pod), name);
    assert forall j | j != x :: At(en.links, j, Pod(pod), name) == At(h.links, j, Pod(pod), name);
    assert forall j | j != x :: At(en.links, j, Pod(pod), podIf) == At(h.links, j, Pod(pod), podIf);
  }

  /** The chosen link can be given to the pod: sp is the temporary name drawn for a link called eth0. */
  ghost predicate HandsOver(links: Links, pod: nat, x: nat, sp: string, podIf: string)
    requires x in links
  {
    && FreeIn(links, pod, podIf)
    && if links[x].name == "eth0" then !Taken(links, x, Init, sp) && FreeIn(links, pod, sp)
       else FreeIn(links, pod, links[x].name)
  }

  /** The hand-over of a link called eth0 hits another: the temporary name is taken here, and worn in the pod. */
  ghost predicate HandsOverAnother(links: Links, pod: nat, x: nat, sp: string, podIf: string)
    requires x in links
  {
    && links[x].name == "eth0" && podIf != "eth0" && Taken(links, x, Init, sp) && FreeIn(links, pod, "eth0")
    && exists y :: At(links, y, Pod(pod), sp) && !links[y].up && !Taken(links, y, Pod(pod), podIf)
  }

  /** Which link has ended up with the interface's name. */
  ghost predicate Outcome(t: Links, pod: nat, x: nat, podIf: string, right: bool) {
    && (At(t, x, Pod(pod), podIf) <==> right)
    && exists y :: At(t, y, Pod(pod), podIf)
  }

  lemma SpareWorks(w: World, h: State, x: nat)
    requires UniqueNames(h.links) && At(h.links, x, Init, "eth0") && AllOk(w, h.clock)
    ensures var n := w(h.clock + 1).random % 9999;
            var l := h.links[x].(up := false);
            Spare(w, h, x) ==
            Ran(h.(clock := h.clock + 4,
                   links := h.links[x := if Taken(h.links, x, Init, Sriov(n)) then l else l.(name := Sriov(n))]),
                Index(n))
  {
    hide Sriov;
    var n := w(h.clock + 1).random % 9999;
    var down := h.(clock := h.clock + 2, links := h.links[x := h.links[x].(up := false)]);
    LoweredNow(w, h, x);
    hide Exec;
    assert forall j | j != x :: At(down.links, j, Init, Sriov(n)) == At(h.links, j, Init, Sriov(n));
    RenameTried(w, down, x, Sriov(n));
  }

  lemma LoweredNow(w: World, h: State, x: nat)
    requires UniqueNames(h.links) && x in h.links && AllOk(w, h.clock)
    ensures var down := h.(clock := h.clock + 2, links := h.links[x := h.links[x].(up := false)]);
            && Exec(w, Exec(w, h, SetDown(x)).h, Random) == Ran(down, Index(w(h.clock + 1).random % 9999))
            && UniqueNames(down.links)
  {
  }

  lemma RenameTried(w: World, h: State, x: nat, name: string)
    requires UniqueNames(h.links) && At(h.links, x, Init, "eth0") && !h.links[x].up && AllOk(w, h.clock)
    ensures Rename(w, h, Init, "eth0", name).h ==
            h.(clock := h.clock + 2,
               links := if Taken(h.links, x, Init, name) then h.links else h.links[x := h.links[x].(name := name)])
  {
    FindUnique(h.links, x, Init, "eth0");
  }

  /** The rest of the hand-over when the temporary name could not be set, with calls that work. */
  lemma MistakeExact(w: World, h: State, a: Args, pod: nat, x: nat, sp: string, podIf: string, vf: nat)
    requires UniqueNames(h.links) && At(h.links, x, Init, "eth0") && AllOk(w, h.clock) && sp != "eth0"
    requires Taken(h.links, x, Init, sp)
    ensures var r := HandRest(w, h, a, pod, x, sp, podIf, vf);
            && (r.r.Ok? <==> HandsOverAnother(h.links, pod, x, sp, podIf))
            && (r.r.Ok? ==> Outcome(r.h.links, pod, x, podIf, false))
  {
    hide Key, Exec, Rename, Taken;
    if HandsOverAnother(h.links, pod, x, sp, podIf) {
      MistakeMade(w, h, a, pod, x, sp, podIf, vf);
    }
    if HandRest(w, h, a, pod, x, sp, podIf, vf).r.Ok? {
      MistakeNeeds(w, h, a, pod, x, sp, podIf, vf);
    }
  }

  lemma MistakeMade(w: World, h: State, a: Args, pod: nat, x: nat, sp: string, podIf: string, vf: nat)
    requires UniqueNames(h.links) && At(h.links, x, Init, "eth0") && AllOk(w, h.clock) && sp != "eth0"
    requires HandsOverAnother(h.links, pod, x, sp, podIf)
    ensures var r := HandRest(w, h, a, pod, x, sp, podIf, vf);
            r.r.Ok? && Outcome(r.h.links, pod, x, podIf, false)
  {
    hide Key, Exec, Rename;
    var y :| At(h.links, y, Pod(pod), sp) && !h.links[y].up && !Taken(h.links, y, Pod(pod), podIf);
    IntoThePod(w, h, x, pod);
    var mv := h.links[x := Link(Pod(pod), "eth0", false, h.links[x].mac)];
    var en := h.(clock := h.clock + 3, links := mv);
    UniqueAfterMove(h.links, x, pod);
    assert forall j | j != x :: At(mv, j, Pod(pod), podIf) == At(h.links, j, Pod(pod), podIf);
    RenameOk(w, en, Pod(pod), sp, podIf, y);
    var fin := Rename(w, en, Pod(pod), sp, podIf).h;
    WriteWorks(w, fin, Key(a.cid, podIf), Record(podIf, vf, a.vlan));
    assert At(fin.links, y, Pod(pod), podIf);
  }

  lemma UniqueAfterMove(links: Links, x: nat, pod: nat)
    requires UniqueNames(links) && x in links && FreeIn(links, pod, links[x].name)
    ensures UniqueNames(links[x := Link(Pod(pod), links[x].name, false, links[x].mac)])
  {
    var mv := links[x := Link(Pod(pod), links[x].name, false, links[x].mac)];
    forall i, j | i in mv && j in mv && mv[i].ns == mv[j].ns && mv[i].name == mv[j].name ensures i == j {
      assert !At(links, i, Pod(pod), links[x].name) && !At(links, j, Pod(pod), links[x].name);
    }
  }

  lemma MistakeNeeds(w: World, h: State, a: Args, pod: nat, x: nat, sp: string, podIf: string, vf: nat)
    requires UniqueNames(h.links) && At(h.links, x, Init, "eth0") && sp != "eth0" && Taken(h.links, x, Init, sp)
    requires HandRest(w, h, a, pod, x, sp, podIf, vf).r.Ok?
    ensures HandsOverAnother(h.links, pod, x, sp, podIf)
  {
    hide Key, Exec, Rename;
    Moved(w, h, x, pod);
    var mv := Exec(w, Exec(w, h, SetUp(x)).h, SetNs(x, Pod(pod)));
    var en := Exec(w, mv.h, Probe).h;
    ProbeOnlyTicks(w, mv.h);
    var y := RenameFound(w, en, Pod(pod), sp, podIf);
    RenamedOther(w, en, pod, x, y, sp, podIf);
    assert forall j | j != x :: At(en.links, j, Pod(pod), podIf) == At(h.links, j, Pod(pod), podIf);
    assert forall j | j != x :: At(en.links, j, Pod(pod), "eth0") == At(h.links, j, Pod(pod), "eth0");
    assert At(en.links, x, Pod(pod), "eth0");
    assert At(h.links, y, Pod(pod), sp) && !Taken(h.links, y, Pod(pod), podIf);
  }

  lemma RenameFound(w: World, h: State, ns: Ns, cur: string, name: string) returns (y: nat)
    requires Rename(w, h, ns, cur, name).r.Ok?
    ensures At(h.links, y, ns, cur)
  {
    FindIsAt(h.links, ns, cur);
    y := Find(h.links, ns, cur).value;
  }

  /** With calls that work, what becomes of a hand-over is decided by the names in the two namespaces. */
  lemma HandExact(w: World, h: State, a: Args, pod: nat, x: nat, podIf: string, vf: nat)
    requires UniqueNames(h.links) && AllOk(w, h.clock) && x in h.links && h.links[x].ns == Init
    ensures var r := Hand(w, h, a, pod, h.links[x].name, podIf, vf);
            var sp := Sriov(w(h.clock + 2).random % 9999);
            && (r.r.Ok? <==> HandsOver(h.links, pod, x, sp, podIf) || HandsOverAnother(h.links, pod, x, sp, podIf))
            && (r.r.Ok? ==> Outcome(r.h.links, pod, x, podIf, HandsOver(h.links, pod, x, sp, podIf)))
  {
    hide HandRest, Key, Exec, Taken, FreeIn, Sriov;
    var name := h.links[x].name;
    LinkByNameOk(w, h, Init, name, x);
    var l := h.(clock := h.clock + 1);
    if name != "eth0" {
      StraightExact(w, l, a, pod, x, name, podIf, vf);
    } else {
      var sp := Sriov(w(h.clock + 2).random % 9999);
      SpareDone(w, l, x);
      SpareWorks(w, l, x);
      NotEth0(w(h.clock + 2).random % 9999);
      var t := Spare(w, l, x).h;
      SameNamesInPod(h.links, t.links, x, pod);
      if Taken(h.links, x, Init, sp) {
        SameTaken(h.links, t.links, x, sp, pod);
        MistakeExact(w, t, a, pod, x, sp, podIf, vf);
      } else {
        StraightExact(w, t, a, pod, x, sp, podIf, vf);
      }
    }
  }

  lemma NotEth0(n: nat)
    ensures Sriov(n) != "eth0"
  {
    assert Sriov(n)[0] == 's';
  }

  lemma SameNamesInPod(links: Links, links': Links, x: nat, pod: nat)
    requires x in links && links'.Keys == links.Keys && links[x].ns == Init && links'[x].ns == Init
    requires forall j | j in links && j != x :: links'[j] == links[j]
    ensures forall n :: FreeIn(links', pod, n) <==> FreeIn(links, pod, n)
  {
    forall n, j ensures At(links', j, Pod(pod), n) <==> At(links, j, Pod(pod), n) {
    }
  }

  lemma SameTaken(links: Links, links': Links, x: nat, sp: string, pod: nat)
    requires x in links && links'.Keys == links.Keys && links[x].ns == Init && links'[x].ns == Init
    requires forall j | j in links && j != x :: links'[j] == links[j]
    ensures Taken(links', x, Init, sp) <==> Taken(links, x, Init, sp)
    ensures links'[x].name == links[x].name ==>
              forall podIf ::
                HandsOverAnother(links', pod, x, sp, podIf) <==> HandsOverAnother(links, pod, x, sp, podIf)
  {
    assert forall j | j != x :: At(links', j, Init, sp) == At(links, j, Init, sp);
    forall n, j ensures At(links', j, Pod(pod), n) <==> At(links, j, Pod(pod), n) {
    }
    forall y, n ensures Taken(links', y, Pod(pod), n) <==> Taken(links, y, Pod(pod), n) {
    }
  }

  lemma StraightExact(w: World, h: State, a: Args, pod: nat, x: nat, name: string, podIf: string, vf: nat)
    requires UniqueNames(h.links) && At(h.links, x, Init, name) && AllOk(w, h.clock)
    ensures var r := HandRest(w, h, a, pod, x, name, podIf, vf);
            && (r.r.Ok? <==> FreeIn(h.links, pod, name) && FreeIn(h.links, pod, podIf))
            && (r.r.Ok? ==> Outcome(r.h.links, pod, x, podIf, true))
  {
    hide HandRest, Key;
    HandRestNeeds(w, h, a, pod, x, name, podIf, vf);
    if FreeIn(h.links, pod, name) && FreeIn(h.links, pod, podIf) {
      HandRestWorks(w, h, a, pod, x, name, podIf, vf);
      RightLink(w, h, a, pod, x, name, podIf, vf);
    }
  }

  // ----- exactly when a setup works -----

  /** The link of the least visible VF. */
  ghost predicate Offered(h: State, pf: string, v: nat, x: nat) {
    && Find(h.links, Init, pf).Some? && pf in h.totals && First(h, pf, 0, h.totals[pf], v)
    && h.vfLinks[VfId(pf, v)] == [x] && x in h.links
  }

  /** How many calls the scan makes from number u until it is through with number v, where it stops. */
  function Looks(h: State, pf: string, u: nat, v: nat): nat
    decreases v - u
  {
    if u >= v then 4 else (if VfId(pf, u) in h.vfLinks then 2 else 1) + Looks(h, pf, u + 1, v)
  }

  /** The temporary name that a setup draws if it needs one: that of the call after the scan, the vlan and two more. */
  ghost function TempName(w: World, h: State, vlan: int, pf: string, v: nat): string {
    Sriov(w(h.clock + 4 + Looks(h, pf, 0, v) + if vlan != 0 then 1 else 0).random % 9999)
  }

  ghost predicate CanSetUp(w: World, h: State, vlan: int, pf: string, pod: nat, podIf: string) {
    exists v: nat, x :: Offered(h, pf, v, x) && HandsOver(h.links, pod, x, TempName(w, h, vlan, pf, v), podIf)
  }

  /** A setup that will report success after giving the interface's name to another link. */
  ghost predicate CanMistake(w: World, h: State, vlan: int, pf: string, pod: nat, podIf: string) {
    exists v: nat, x :: Offered(h, pf, v, x) && HandsOverAnother(h.links, pod, x, TempName(w, h, vlan, pf, v), podIf)
  }

  /** Where no link of the pod can have the name drawn, no mistake is made. */
  lemma NoMistake(w: World, h: State, vlan: int, pf: string, pod: nat, podIf: string)
    requires TempSafe(h, pod)
    ensures !CanMistake(w, h, vlan, pf, pod, podIf)
  {
    hide First, NetDir, Find, Sriov, Looks;
    forall v: nat, x | Offered(h, pf, v, x)
      ensures !HandsOverAnother(h.links, pod, x, TempName(w, h, vlan, pf, v), podIf)
    {
      if h.links[x].name == "eth0" {
        OfferedIsFree(h, pf, v, x);
        SafeFor(h, pod, VfId(pf, v), x);
      }
    }
  }

  lemma OfferedIsFree(h: State, pf: string, v: nat, x: nat)
    requires Offered(h, pf, v, x)
    ensures h.links[x].ns == Init && VfId(pf, v) in h.vfLinks
  {
    SingleNetDir(h, VfId(pf, v));
  }

  lemma OfferedOnce(h: State, pf: string, v: nat, x: nat, v': nat, x': nat)
    requires Offered(h, pf, v, x) && Offered(h, pf, v', x')
    ensures v == v' && x == x'
  {
    hide Find, Visible;
    assert [x] == [x'] || v != v';
  }

  /**
   With calls that work a setup reports success exactly if the physical function is there, some VF is visible,
   and the names allow the hand-over of the first one's link, or, by mistake, of another; the link chosen has
   the interface's name afterwards exactly if the names allowed its hand-over.
   */
  lemma SetupExact(w: World, h: State, a: Args, pod: nat, pf: string, podIf: string, rates: Rates)
    requires Inv(h) && AllOk(w, h.clock)
    ensures var s := Setup(w, h, a, pod, pf, podIf, rates);
            && (s.ok <==> CanSetUp(w, h, a.vlan, pf, pod, podIf) || CanMistake(w, h, a.vlan, pf, pod, podIf))
            && (s.ok ==> && s.vf.Some? && VfId(pf, s.vf.value) in h.vfLinks && |h.vfLinks[VfId(pf, s.vf.value)]| == 1
                         && Outcome(s.h.links, pod, h.vfLinks[VfId(pf, s.vf.value)][0], podIf,
                                    CanSetUp(w, h, a.vlan, pf, pod, podIf)))
  {
    hide Exec, Scan, AfterScan, First, NetDir, UniqueNames, DevOk, Wired, ScanFound, Find, TempName, HandsOver,
        HandsOverAnother, Outcome;
    Looked(w, h, pf);
    var t := h.(clock := h.clock + 2);
    if Find(h.links, Init, pf).Some? && pf in h.totals {
      var s := Scan(w, t, pf, 0, h.totals[pf], rates);
      PassedCheck(w, s, a, pod, pf, podIf);
      ScanOffers(w, h, pf, rates);
      if s.ok {
        var x := h.vfLinks[VfId(pf, s.vf.value)][0];
        AfterScanExact(w, s, a, pod, pf, podIf, x);
        TempNameDrawn(w, h, t, s, a.vlan, pf);
        OnlyOffer(w, h, a.vlan, pf, pod, podIf, s.vf.value, x);
      }
    }
  }

  /**
   Where no link of the pod can have the name drawn, the names alone decide: a setup whose calls work reports success
   exactly if the first visible VF's link can be handed over, and then that link has the interface's name.
   */
  lemma SafeSetupExact(w: World, h: State, a: Args, pod: nat, pf: string, podIf: string, rates: Rates)
    requires Inv(h) && AllOk(w, h.clock) && TempSafe(h, pod)
    ensures var s := Setup(w, h, a, pod, pf, podIf, rates);
            && (s.ok <==> CanSetUp(w, h, a.vlan, pf, pod, podIf))
            && (s.ok ==> && s.vf.Some? && VfId(pf, s.vf.value) in h.vfLinks && |h.vfLinks[VfId(pf, s.vf.value)]| == 1
                         && At(s.h.links, h.vfLinks[VfId(pf, s.vf.value)][0], Pod(pod), podIf))
  {
    hide Setup, CanSetUp, CanMistake, Inv, TempSafe, AllOk, HandsOver, HandsOverAnother, Exec, Find;
    SetupExact(w, h, a, pod, pf, podIf, rates);
    NoMistake(w, h, a.vlan, pf, pod, podIf);
  }

  /** In a world in which every call works a turn of ADD completes exactly if its setup can, given an address. */
  lemma PlaceOneExact(w: World, h: State, a: Args, pod: nat, i: nat, pf: string, rates: Rates)
    requires Inv(h) && AllOk(w, 0) && i <= MAX_INT
    ensures var one := PlaceOne(w, h, a, pod, i, pf, rates);
            var can := CanSetUp(w, h, a.vlan, pf, pod, Eth(i)) || CanMistake(w, h, a.vlan, pf, pod, Eth(i));
            && (one.stop.SetupFailed? <==> !can)
            && (one.stop.Completed? <==> can && w(Setup(w, h, a, pod, pf, Eth(i), rates).h.clock).answer.Some?)
  {
    hide Setup, Key, Configure, Eth, UniqueNames, Wired, DevOk, IsEthName, CanSetUp, CanMistake;
    SetupExact(w, h, a, pod, pf, Eth(i), rates);
    var s := Setup(w, h, a, pod, pf, Eth(i), rates);
    if s.ok {
      var y :| At(s.h.links, y, Pod(pod), Eth(i));
      EthIsEthName(i);
      SetupKept(w, h, a, pod, pf, Eth(i), rates);
      IpamLeavesHost(w, s.h);
      ConfigureWorks(w, Exec(w, s.h, IpamAdd).h, pod, Eth(i), y);
    }
  }

  lemma ConfigureWorks(w: World, h: State, pod: nat, name: string, x: nat)
    requires UniqueNames(h.links) && At(h.links, x, Pod(pod), name) && AllOk(w, 0)
    ensures Configure(w, h, pod, name).r.Ok?
  {
    FindUnique(h.links, x, Pod(pod), name);
  }

  /**
   The mistake is made, and only then: the setup reports success, the chosen link lies in the pod without the
   interface's name, and another link there has that name.
   */
  lemma SetupMistake(w: World, h: State, a: Args, pod: nat, pf: string, podIf: string, rates: Rates, v: nat, x: nat)
    requires Inv(h) && AllOk(w, h.clock) && Offered(h, pf, v, x)
    ensures var s := Setup(w, h, a, pod, pf, podIf, rates);
            CanMistake(w, h, a.vlan, pf, pod, podIf) <==>
            s.ok && !At(s.h.links, x, Pod(pod), podIf) && exists y :: y != x && At(s.h.links, y, Pod(pod), podIf)
  {
    hide Setup, Offered, TempName, FreeIn;
    SetupExact(w, h, a, pod, pf, podIf, rates);
    OnlyOffer(w, h, a.vlan, pf, pod, podIf, v, x);
    ChosenIsOffered(w, h, a, pod, pf, podIf, rates, v, x);
  }

  lemma ChosenIsOffered(w: World, h: State, a: Args, pod: nat, pf: string, podIf: string, rates: Rates, v: nat, x: nat)
    requires Inv(h) && AllOk(w, h.clock) && Offered(h, pf, v, x)
    ensures var s := Setup(w, h, a, pod, pf, podIf, rates);
            s.ok ==> s.vf == Some(v) && h.vfLinks[VfId(pf, v)] == [x]
  {
    hide Exec, Scan, AfterScan, First, NetDir, UniqueNames, DevOk, Wired, Find, ScanFound;
    Looked(w, h, pf);
    var s := Scan(w, h.(clock := h.clock + 2), pf, 0, h.totals[pf], rates);
    PassedCheck(w, s, a, pod, pf, podIf);
    ScanOffers(w, h, pf, rates);
    if s.ok {
      OfferedOnce(h, pf, v, x, s.vf.value, h.vfLinks[VfId(pf, s.vf.value)][0]);
    }
  }

  lemma Looked(w: World, h: State, pf: string)
    requires AllOk(w, h.clock)
    ensures var m := Exec(w, h, LinkByName(Init, pf));
            && m.h == h.(clock := h.clock + 1) && (m.r.Index? <==> Find(h.links, Init, pf).Some?)
            && Exec(w, m.h, NumVfs(pf)) ==
               Ran(h.(clock := h.clock + 2), if pf in h.totals then Num(h.totals[pf]) else Fail)
  {
  }

  lemma OnlyOffer(w: World, h: State, vlan: int, pf: string, pod: nat, podIf: string, v: nat, x: nat)
    requires Offered(h, pf, v, x)
    ensures CanSetUp(w, h, vlan, pf, pod, podIf) <==> HandsOver(h.links, pod, x, TempName(w, h, vlan, pf, v), podIf)
    ensures CanMistake(w, h, vlan, pf, pod, podIf) <==>
            HandsOverAnother(h.links, pod, x, TempName(w, h, vlan, pf, v), podIf)
  {
    forall v': nat, x' | Offered(h, pf, v', x') ensures v' == v && x' == x {
      OfferedOnce(h, pf, v, x, v', x');
    }
    hide Offered, HandsOver, HandsOverAnother, TempName;
  }

  lemma TempNameDrawn(w: World, h: State, t: State, s: Scanned, vlan: int, pf: string)
    requires s.vf.Some? && t.clock == h.clock + 2 && SameButClock(t, h)
    requires s.h.clock == t.clock + Looks(t, pf, 0, s.vf.value)
    ensures TempName(w, h, vlan, pf, s.vf.value) ==
            Sriov(w(s.h.clock + (if vlan != 0 then 1 else 0) + 2).random % 9999)
  {
    SameLooks(h, t, pf, 0, s.vf.value);
  }

  lemma {:induction false} SameLooks(h: State, t: State, pf: string, u: nat, v: nat)
    requires t.vfLinks == h.vfLinks
    ensures Looks(t, pf, u, v) == Looks(h, pf, u, v)
    decreases v - u
  {
    if u < v {
      SameLooks(h, t, pf, u + 1, v);
    }
  }

  lemma {:induction false} ScanTime(w: World, h: State, pf: string, u: nat, total: int, rates: Rates)
    requires AllOk(w, h.clock)
    ensures var s := Scan(w, h, pf, u, total, rates);
            s.ok ==> s.vf.Some? && s.vf.value >= u && s.h.clock == h.clock + Looks(h, pf, u, s.vf.value)
    decreases total - u
  {
    if u < total {
      var id := VfId(pf, u);
      ScanCalls(w, h, id, rates);
      ScanTicks(w, h, id, rates);
      hide Exec, NetDir;
      var s := Exec(w, h, Lstat(id));
      var d := Exec(w, s.h, ReadDir(id));
      if !s.r.Ok? {
        ScanTime(w, s.h, pf, u + 1, total, rates);
        var r := Scan(w, s.h, pf, u + 1, total, rates);
        SameLooks(h, s.h, pf, u + 1, if r.vf.Some? then r.vf.value else 0);
      } else if d.r.names == [] {
        ScanTime(w, d.h, pf, u + 1, total, rates);
        var r := Scan(w, d.h, pf, u + 1, total, rates);
        SameLooks(h, d.h, pf, u + 1, if r.vf.Some? then r.vf.value else 0);
      }
    }
  }

  lemma ScanTicks(w: World, h: State, id: VfId, rates: Rates)
    ensures var d := Exec(w, Exec(w, h, Lstat(id)).h, ReadDir(id)).h;
            Exec(w, Exec(w, d, PciAddr(id)).h, SetRates(id, rates)).h.clock == h.clock + 4
  {
  }

  /** The scan of a setup, when its calls work, finds the offer there is, or there is none. */
  lemma ScanOffers(w: World, h: State, pf: string, rates: Rates)
    requires Inv(h) && AllOk(w, h.clock) && Find(h.links, Init, pf).Some? && pf in h.totals
    ensures var t := h.(clock := h.clock + 2);
            var s := Scan(w, t, pf, 0, h.totals[pf], rates);
            && (s.ok <==> exists v: nat, x :: Offered(h, pf, v, x))
            && (s.ok ==>
                  && s.vf.Some? && |s.names| == 1 && s.h.clock == t.clock + Looks(t, pf, 0, s.vf.value)
                  && var id := VfId(pf, s.vf.value);
                     && id in h.vfLinks && |h.vfLinks[id]| == 1 && Offered(h, pf, s.vf.value, h.vfLinks[id][0])
                     && s.h.links == h.links && id in s.h.vfCfg && At(h.links, h.vfLinks[id][0], Init, s.names[0]))
  {
    var total := h.totals[pf];
    var t := h.(clock := h.clock + 2);
    var s := Scan(w, t, pf, 0, total, rates);
    ScanFirst(w, t, pf, 0, total, rates);
    ScanFinds(w, t, pf, 0, total, rates);
    ScanTime(w, t, pf, 0, total, rates);
    hide Scan, Looks, UniqueNames, DevOk, Wired, Find, NetDir, First, Offered;
    SameFirst(h, t, pf, total);
    if s.ok {
      OneLink(t, VfId(pf, s.vf.value));
      IsOffered(h, t, pf, s.vf.value);
    } else {
      forall v: nat, x ensures !Offered(h, pf, v, x) {
        NotOffered(h, t, pf, v, x);
      }
    }
  }

  lemma IsOffered(h: State, t: State, pf: string, v: nat)
    requires SameButClock(t, h) && Find(h.links, Init, pf).Some? && pf in h.totals
    requires First(h, pf, 0, h.totals[pf], v) && |h.vfLinks[VfId(pf, v)]| == 1 && h.vfLinks[VfId(pf, v)][0] in h.links
    ensures Offered(h, pf, v, h.vfLinks[VfId(pf, v)][0])
  {
    hide Find, NetDir;
    var ls := h.vfLinks[VfId(pf, v)];
    assert ls == [ls[0]];
  }

  lemma NotOffered(h: State, t: State, pf: string, v: nat, x: nat)
    requires SameButClock(t, h) && pf in h.totals
    requires First(t, pf, 0, h.totals[pf], v) ==> |NetDir(t, VfId(pf, v))| > 2
    requires First(h, pf, 0, h.totals[pf], v) ==> First(t, pf, 0, h.totals[pf], v)
    ensures !Offered(h, pf, v, x)
  {
    if Offered(h, pf, v, x) {
      SingleNetDir(t, VfId(pf, v));
    }
  }

  lemma OneLink(t: State, id: VfId)
    requires Wired(t.links, t.vfLinks, t.vfCfg, t.totals) && id in t.vfLinks && NetDir(t, id) != []
    ensures && |t.vfLinks[id]| == 1 && t.vfLinks[id][0] in t.links && id in t.vfCfg && |NetDir(t, id)| == 1
            && t.vfLinks[id] == [t.vfLinks[id][0]] && At(t.links, t.vfLinks[id][0], Init, NetDir(t, id)[0])
  {
    SingleNetDir(t, id);
  }

  lemma SameFirst(h: State, t: State, pf: string, total: int)
    requires SameButClock(t, h)
    ensures forall v: nat :: First(h, pf, 0, total, v) <==> First(t, pf, 0, total, v)
  {
    SameNetDirs(h, t);
    forall v: nat ensures First(h, pf, 0, total, v) <==> First(t, pf, 0, total, v) {
      assert forall k :: Visible(t, pf, k) <==> Visible(h, pf, k);
    }
  }

  lemma AfterScanExact(w: World, s: Scanned, a: Args, pod: nat, pf: string, podIf: string, x: nat)
    requires UniqueNames(s.h.links) && AllOk(w, s.h.clock)
    requires s.ok && s.vf.Some? && |s.names| == 1 && VfId(pf, s.vf.value) in s.h.vfCfg
    requires At(s.h.links, x, Init, s.names[0])
    ensures var o := AfterScan(w, s, a, pod, pf, podIf);
            var sp := Sriov(w(s.h.clock + (if a.vlan != 0 then 1 else 0) + 2).random % 9999);
            var links := s.h.links;
            && (o.ok <==> HandsOver(links, pod, x, sp, podIf) || HandsOverAnother(links, pod, x, sp, podIf))
            && (o.ok ==> Outcome(o.h.links, pod, x, podIf, HandsOver(links, pod, x, sp, podIf)))
  {
    hide Hand, HandsOver, HandsOverAnother, Outcome, Key, Sriov;
    var c := if a.vlan != 0 then Exec(w, s.h, SetVlan(VfId(pf, s.vf.value), a.vlan)) else Ran(s.h, Ok);
    HandExact(w, c.h, a, pod, x, podIf, s.vf.value);
  }
}
