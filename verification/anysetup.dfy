/** What a setup and a turn of ADD answer, exactly, whichever of their calls work. */
module AnySetup {
  import opened Text
  import opened Host
  import opened Lifecycle
  import opened HostInvariant
  import opened Reclaim
  import opened Placement
  import opened SetupLaw
  import opened Partial
  import opened Rescue
  import Types020

  // ----- the scan -----

  /** At moment c number v shows nothing: its directory cannot be looked at, or is there and read and empty. */
  ghost predicate PassedOver(w: World, h: State, pf: string, c: nat, v: nat) {
    var id := VfId(pf, v);
    !w(c).ok || id !in h.vfLinks || (w(c + 1).ok && NetDir(h, id) == [])
  }

  /** The moment at which a scan that looks at number u at moment c looks at number v, if it gets that far. */
  ghost function LookAt(w: World, h: State, pf: string, c: nat, u: nat, v: nat): nat
    decreases v - u
  {
    if u >= v then c
    else LookAt(w, h, pf, if w(c).ok && VfId(pf, u) in h.vfLinks then c + 2 else c + 1, u + 1, v)
  }

  /** The scan that looks at number u at moment c stops at number v. */
  ghost predicate StopsAt(w: World, h: State, pf: string, c: nat, u: nat, total: int, v: nat) {
    && u <= v < total && !PassedOver(w, h, pf, LookAt(w, h, pf, c, u, v), v)
    && forall k: nat | u <= k < v :: PassedOver(w, h, pf, LookAt(w, h, pf, c, u, k), k)
  }

  /** What a scan answers that stops at number v at moment c: it needs the directory, the address and the rates. */
  ghost predicate StoppedWith(w: World, h: State, pf: string, c: nat, v: nat, s: Scanned) {
    var dir := NetDir(h, VfId(pf, v));
    && s.vf == (if w(c + 1).ok && |dir| <= 2 && w(c + 2).ok then Some(v) else None)
    && (s.ok <==> s.vf.Some? && w(c + 3).ok)
    && (s.ok ==> s.names == dir && s.h.clock == c + 4)
  }

  ghost predicate AllPassed(w: World, h: State, pf: string, c: nat, u: nat, total: int) {
    forall k: nat | u <= k < total :: PassedOver(w, h, pf, LookAt(w, h, pf, c, u, k), k)
  }

  /** The moment at which a scan that passes number u over at moment c looks at the next one. */
  ghost function NextLook(w: World, h: State, pf: string, c: nat, u: nat): nat {
    if w(c).ok && VfId(pf, u) in h.vfLinks then c + 2 else c + 1
  }

  lemma LaterLooks(w: World, h: State, t: State, pf: string, c: nat, u: nat)
    requires SameButClock(t, h)
    ensures forall k: nat | k > u :: LookAt(w, h, pf, c, u, k) == LookAt(w, t, pf, NextLook(w, h, pf, c, u), u + 1, k)
    ensures forall d, k :: PassedOver(w, t, pf, d, k) <==> PassedOver(w, h, pf, d, k)
  {
    SameNetDirs(h, t);
    hide NetDir;
    forall k: nat | k > u
      ensures LookAt(w, h, pf, c, u, k) == LookAt(w, t, pf, NextLook(w, h, pf, c, u), u + 1, k)
    {
      SameLookAt(w, h, t, pf, NextLook(w, h, pf, c, u), u + 1, k);
    }
  }

  lemma {:induction false} SameLookAt(w: World, h: State, t: State, pf: string, c: nat, u: nat, v: nat)
    requires t.vfLinks == h.vfLinks
    ensures LookAt(w, t, pf, c, u, v) == LookAt(w, h, pf, c, u, v)
    decreases v - u
  {
    if u < v {
      SameLookAt(w, h, t, pf, if w(c).ok && VfId(pf, u) in h.vfLinks then c + 2 else c + 1, u + 1, v);
    }
  }

  /** v is where the scan stops, and s what it answers then; without such a number, what it answers at its end. */
  ghost predicate Answers(w: World, h: State, pf: string, u: nat, total: int, v: Option<nat>, s: Scanned) {
    match v
    case Some(n) =>
      && StopsAt(w, h, pf, h.clock, u, total, n)
      && StoppedWith(w, h, pf, LookAt(w, h, pf, h.clock, u, n), n, s)
    case None =>
      AllPassed(w, h, pf, h.clock, u, total) && !s.ok && s.vf == if u < total then None else Some(0)
  }

  /**
   The scan in any world: it stops at the first number that is not passed over, if there is one, and its answer is
   decided by the calls there; else it answers no VF, or, with no number to look at, the number 0.
   */
  lemma {:induction false} ScanAny(w: World, h: State, pf: string, u: nat, total: int, rates: Rates)
    returns (v: Option<nat>)
    ensures Answers(w, h, pf, u, total, v, Scan(w, h, pf, u, total, rates))
    decreases total - u
  {
    v := None;
    if u < total {
      if PassedOver(w, h, pf, h.clock, u) {
        var t := h.(clock := NextLook(w, h, pf, h.clock, u));
        PassOn(w, h, t, pf, u, total, rates);
        if u < total - 1 {
          hide Answers, PassedOver, Scan;
          v := ScanAny(w, t, pf, u + 1, total, rates);
          AnswersLater(w, h, t, pf, u, total, v, Scan(w, t, pf, u + 1, total, rates));
        }
      } else {
        StopHere(w, h, pf, u, total, rates);
        v := Some(u);
      }
    }
  }

  lemma AnswersLater(w: World, h: State, t: State, pf: string, u: nat, total: int, v: Option<nat>, s: Scanned)
    requires PassedOver(w, h, pf, h.clock, u) && t == h.(clock := NextLook(w, h, pf, h.clock, u))
    requires u + 1 < total && Answers(w, t, pf, u + 1, total, v, s)
    ensures Answers(w, h, pf, u, total, v, s)
  {
    LaterLooks(w, h, t, pf, h.clock, u);
    hide PassedOver;
    if v.Some? {
      SameDir(h, t, VfId(pf, v.value));
    }
  }

  lemma SameDir(h: State, t: State, id: VfId)
    requires SameButClock(t, h)
    ensures NetDir(t, id) == NetDir(h, id)
  {
  }

  lemma OneLook(w: World, h: State, id: VfId, rates: Rates)
    ensures var c := h.clock;
            var s := Exec(w, h, Lstat(id));
            var d := Exec(w, s.h, ReadDir(id));
            var p := Exec(w, d.h, PciAddr(id));
            var r := Exec(w, p.h, SetRates(id, rates));
            && s == Ran(h.(clock := c + 1), if w(c).ok && id in h.vfLinks then Ok else Fail)
            && d == Ran(h.(clock := c + 2), if w(c + 1).ok && id in h.vfLinks then Names(NetDir(h, id)) else Fail)
            && p == Ran(h.(clock := c + 3), if w(c + 2).ok && id in h.vfLinks then Ok else Fail)
            && r.h.clock == c + 4 && (r.r.Ok? <==> w(c + 3).ok)
  {
    hide Find, Taken, Listing, Enumerates, InBounds;
    SameNetDirs(h, Exec(w, h, Lstat(id)).h);
    hide NetDir;
  }

  lemma PassOn(w: World, h: State, t: State, pf: string, u: nat, total: int, rates: Rates)
    requires var c := h.clock;
             PassedOver(w, h, pf, c, u) && u < total && t == h.(clock := NextLook(w, h, pf, c, u))
    ensures Scan(w, h, pf, u, total, rates) ==
            if u == total - 1 then Scanned(t, None, [], false) else Scan(w, t, pf, u + 1, total, rates)
  {
    OneLook(w, h, VfId(pf, u), rates);
    hide Exec, NetDir;
  }

  lemma StopHere(w: World, h: State, pf: string, u: nat, total: int, rates: Rates)
    requires !PassedOver(w, h, pf, h.clock, u) && u < total
    ensures var s := Scan(w, h, pf, u, total, rates);
            StopsAt(w, h, pf, h.clock, u, total, u) && StoppedWith(w, h, pf, h.clock, u, s)
  {
    OneLook(w, h, VfId(pf, u), rates);
    hide Exec, NetDir;
  }

  // ----- the hand-over -----

  lemma RaisesIt(w: World, h: State, i: nat)
    requires i in h.links
    ensures Exec(w, h, SetUp(i)) ==
            if w(h.clock).ok then Ran(h.(clock := h.clock + 1, links := h.links[i := h.links[i].(up := true)]), Ok)
            else Ran(h.(clock := h.clock + 1), Fail)
  {
  }

  lemma MovesOrNot(w: World, h: State, i: nat, ns: Ns)
    requires i in h.links
    ensures Exec(w, h, SetNs(i, ns)) ==
            if w(h.clock).ok && !Taken(h.links, i, ns, h.links[i].name)
            then Ran(h.(clock := h.clock + 1, links := h.links[i := h.links[i].(ns := ns, up := false)]), Ok)
            else Ran(h.(clock := h.clock + 1), Fail)
  {
  }

  lemma NamesOrNot(w: World, h: State, i: nat, name: string)
    requires i in h.links
    ensures Exec(w, h, SetName(i, name)) ==
            if w(h.clock).ok && !h.links[i].up && !Taken(h.links, i, h.links[i].ns, name)
            then Ran(h.(clock := h.clock + 1, links := h.links[i := h.links[i].(name := name)]), Ok)
            else Ran(h.(clock := h.clock + 1), Fail)
  {
  }

  /** A rename in any world: the lookup and the rename work, and the link is down and the name free. */
  lemma RenameAny(w: World, h: State, ns: Ns, cur: string, name: string, i: nat)
    requires UniqueNames(h.links) && At(h.links, i, ns, cur)
    ensures var r := Rename(w, h, ns, cur, name);
            if w(h.clock).ok && w(h.clock + 1).ok && !h.links[i].up && !Taken(h.links, i, ns, name)
            then r == Ran(h.(clock := h.clock + 2, links := h.links[i := h.links[i].(name := name)]), Ok)
            else r == Ran(h.(clock := h.clock + if w(h.clock).ok then 2 else 1), Fail)
  {
    hide Exec, Taken, UniqueNames;
    FindsIt(w, h, ns, cur, i);
    if w(h.clock).ok {
      NamesOrNot(w, h.(clock := h.clock + 1), i, name);
    }
  }

  lemma RenameNone(w: World, h: State, ns: Ns, cur: string, name: string)
    requires forall i :: !At(h.links, i, ns, cur)
    ensures Rename(w, h, ns, cur, name) == Ran(h.(clock := h.clock + 1), Fail)
  {
    FindIsAt(h.links, ns, cur);
  }

  /** What becomes of the link x, called name, whose hand-over starts at moment c. */
  ghost function LinkAfter(w: World, links: Links, c: nat, pod: nat, x: nat, name: string, podIf: string): Link
    requires x in links
  {
    var l := links[x];
    if !w(c).ok then l
    else if !w(c + 1).ok || !FreeIn(links, pod, name) then l.(up := true)
    else if !AllWork(w, c + 2, c + 5) || !FreeIn(links, pod, podIf) then Link(Pod(pod), name, false, l.mac)
    else Link(Pod(pod), podIf, false, l.mac)
  }

  /** The calls of a hand-over that starts at moment c work, and both names are free in the pod. */
  ghost predicate Handed(w: World, links: Links, c: nat, pod: nat, name: string, podIf: string) {
    AllWork(w, c, c + 6) && FreeIn(links, pod, name) && FreeIn(links, pod, podIf)
  }

  /** The hand-over of a link called as expected, in any world: how far it gets, and what it answers. */
  lemma HandRestAny(w: World, h: State, a: Args, pod: nat, x: nat, name: string, podIf: string, vf: nat)
    requires UniqueNames(h.links) && At(h.links, x, Init, name)
    ensures var r := HandRest(w, h, a, pod, x, name, podIf, vf);
            var done := Handed(w, h.links, h.clock, pod, name, podIf);
            && r.r == (if done then Ok else Fail) && (done ==> r.h.clock == h.clock + 6)
            && r.h == h.(clock := r.h.clock, links := h.links[x := LinkAfter(w, h.links, h.clock, pod, x, name, podIf)],
                         store := if done then h.store[Key(a.cid, podIf) := Record(podIf, vf, a.vlan)] else h.store)
  {
    hide Exec, Taken, Key, Rename, UniqueNames, AllWork, Find, FreeIn;
    var c, l := h.clock, h.links[x];
    assert h.links[x := l] == h.links;
    SixCalls(w, c);
    RaisesIt(w, h, x);
    if w(c).ok {
      var up := h.(clock := c + 1, links := h.links[x := l.(up := true)]);
      MovesOrNot(w, up, x, Pod(pod));
      RoomForIt(h.links, up.links, x, pod, name);
      assert up.links[x := Link(Pod(pod), name, false, l.mac)] == h.links[x := Link(Pod(pod), name, false, l.mac)];
      if w(c + 1).ok && FreeIn(h.links, pod, name) {
        var mv := h.(clock := c + 2, links := h.links[x := Link(Pod(pod), name, false, l.mac)]);
        ProbesIt(w, mv);
        if w(c + 2).ok {
          InThePod(w, h, mv.(clock := c + 3), a, pod, x, name, podIf, vf);
        }
      }
    }
  }

  lemma SixCalls(w: World, c: nat)
    ensures AllWork(w, c, c + 6) <==> w(c).ok && w(c + 1).ok && AllWork(w, c + 2, c + 5) && w(c + 5).ok
    ensures AllWork(w, c + 2, c + 5) <==> w(c + 2).ok && w(c + 3).ok && w(c + 4).ok
  {
  }

  /** A VF's link that is raised or not can come into the pod if its name is free there. */
  lemma RoomForIt(links: Links, up: Links, x: nat, pod: nat, name: string)
    requires At(links, x, Init, name) && up == links[x := links[x].(up := true)]
    ensures Taken(up, x, Pod(pod), name) <==> !FreeIn(links, pod, name)
  {
    assert forall j | j != x :: At(up, j, Pod(pod), name) == At(links, j, Pod(pod), name);
  }

  /** The second half, in the pod. */
  lemma InThePod(w: World, h: State, en: State, a: Args, pod: nat, x: nat, name: string, podIf: string, vf: nat)
    requires UniqueNames(h.links) && At(h.links, x, Init, name) && FreeIn(h.links, pod, name)
    requires var mv := Link(Pod(pod), name, false, h.links[x].mac);
             en == h.(clock := en.clock, links := h.links[x := mv])
    ensures var fin := Rename(w, en, Pod(pod), name, podIf);
            var r := Exec(w, fin.h, WriteFile(Key(a.cid, podIf), Record(podIf, vf, a.vlan)));
            var named := w(en.clock).ok && w(en.clock + 1).ok && FreeIn(h.links, pod, podIf);
            && fin.r == (if named then Ok else Fail)
            && fin.h == en.(clock := fin.h.clock,
                            links := h.links[x := Link(Pod(pod), if named then podIf else name, false, h.links[x].mac)])
            && (named ==> fin.h.clock == en.clock + 2 && r.r == if w(en.clock + 2).ok then Ok else Fail)
            && (named ==> r.h == fin.h.(clock := en.clock + 3,
                                       store := if w(en.clock + 2).ok
                                                then h.store[Key(a.cid, podIf) := Record(podIf, vf, a.vlan)]
                                                else h.store))
  {
    hide Key;
    UniqueAfterMove(h.links, x, pod);
    assert forall j | j != x :: At(en.links, j, Pod(pod), podIf) == At(h.links, j, Pod(pod), podIf);
    assert Taken(en.links, x, Pod(pod), podIf) <==> !FreeIn(h.links, pod, podIf);
    RenameAny(w, en, Pod(pod), name, podIf, x);
    hide Rename, UniqueNames, Taken, Find, Exec;
    WritesIt(w, Rename(w, en, Pod(pod), name, podIf).h, Key(a.cid, podIf), Record(podIf, vf, a.vlan));
  }

  lemma WritesIt(w: World, h: State, key: string, rec: Record)
    ensures Exec(w, h, WriteFile(key, rec)) ==
            if w(h.clock).ok then Ran(h.(clock := h.clock + 1, store := h.store[key := rec]), Ok)
            else Ran(h.(clock := h.clock + 1), Fail)
  {
  }

  /** The detour that starts at moment c has renamed the link: its calls work, the link is down, the name is free. */
  ghost predicate Renamed(w: World, links: Links, c: nat, x: nat)
    requires x in links
  {
    && w(c + 2).ok && w(c + 3).ok && (w(c).ok || !links[x].up)
    && !Taken(links, x, Init, Sriov(w(c + 1).random % 9999))
  }

  lemma SpareAny(w: World, h: State, x: nat)
    requires UniqueNames(h.links) && At(h.links, x, Init, "eth0")
    ensures var c, l := h.clock, h.links[x];
            var n := w(c + 1).random % 9999;
            Spare(w, h, x) ==
            Ran(h.(clock := if w(c + 2).ok then c + 4 else c + 3,
                   links := h.links[x := l.(up := l.up && !w(c).ok,
                                            name := if Renamed(w, h.links, c, x) then Sriov(n) else "eth0")]),
                Index(n))
  {
    hide Sriov, Find, Exec, Taken, UniqueNames, Rename;
    var c, l := h.clock, h.links[x];
    var n := w(c + 1).random % 9999;
    var low := l.(up := l.up && !w(c).ok);
    var down := h.(clock := c + 2, links := h.links[x := low]);
    DownAndDraw(w, h, x);
    SameTaken(h.links, down.links, x, Sriov(n), 0);
    TriesName(w, down, x, Sriov(n));
    SetTwice(h.links, x, low, low.(name := if Renamed(w, h.links, c, x) then Sriov(n) else "eth0"));
  }

  lemma SetTwice(links: Links, x: nat, l: Link, l': Link)
    ensures links[x := l][x := l'] == links[x := l']
  {
  }

  lemma TriesName(w: World, h: State, x: nat, name: string)
    requires UniqueNames(h.links) && At(h.links, x, Init, "eth0")
    ensures var done := w(h.clock).ok && w(h.clock + 1).ok && !h.links[x].up && !Taken(h.links, x, Init, name);
            Rename(w, h, Init, "eth0", name).h ==
            h.(clock := h.clock + if w(h.clock).ok then 2 else 1,
               links := h.links[x := h.links[x].(name := if done then name else "eth0")])
  {
    hide Find, Exec, Taken, UniqueNames, Rename;
    RenameAny(w, h, Init, "eth0", name, x);
    assert h.links[x := h.links[x]] == h.links;
  }

  lemma DownAndDraw(w: World, h: State, x: nat)
    requires UniqueNames(h.links) && x in h.links
    ensures var c, l := h.clock, h.links[x];
            var down := h.(clock := c + 2, links := h.links[x := l.(up := l.up && !w(c).ok)]);
            && Exec(w, Exec(w, h, SetDown(x)).h, Random) == Ran(down, Index(w(c + 1).random % 9999))
            && UniqueNames(down.links)
  {
    assert h.links[x := h.links[x]] == h.links;
  }

  /** What becomes of a link whose hand-over starts at moment c and that is not called as expected. */
  ghost function LinkMisnamed(w: World, links: Links, c: nat, pod: nat, x: nat): Link
    requires x in links
  {
    var l := links[x];
    if !w(c).ok then l
    else if !w(c + 1).ok || !FreeIn(links, pod, l.name) then l.(up := true)
    else Link(Pod(pod), l.name, false, l.mac)
  }

  /** Such a link, while no link of the pod is called as expected, is raised and moved, and left at that. */
  lemma Misnamed(w: World, h: State, a: Args, pod: nat, x: nat, name: string, podIf: string, vf: nat)
    requires UniqueNames(h.links) && x in h.links && h.links[x].ns == Init && h.links[x].name != name
    requires FreeIn(h.links, pod, name)
    ensures var r := HandRest(w, h, a, pod, x, name, podIf, vf);
            r == Ran(h.(clock := r.h.clock, links := h.links[x := LinkMisnamed(w, h.links, h.clock, pod, x)]), Fail)
  {
    hide Key, Exec, Rename, Taken, UniqueNames, FreeIn;
    var c, l := h.clock, h.links[x];
    assert h.links[x := l] == h.links;
    RaisesIt(w, h, x);
    if w(c).ok {
      var up := h.(clock := c + 1, links := h.links[x := l.(up := true)]);
      MovesOrNot(w, up, x, Pod(pod));
      RoomForIt(h.links, up.links, x, pod, l.name);
      SetTwice(h.links, x, l.(up := true), Link(Pod(pod), l.name, false, l.mac));
      if w(c + 1).ok && FreeIn(h.links, pod, l.name) {
        var mv := h.(clock := c + 2, links := h.links[x := Link(Pod(pod), l.name, false, l.mac)]);
        ProbesIt(w, mv);
        NotThere(h.links, mv.links, x, pod, name);
        RenameNone(w, mv.(clock := c + 3), Pod(pod), name, podIf);
      }
    }
  }

  lemma NotThere(links: Links, links': Links, x: nat, pod: nat, name: string)
    requires x in links && links[x].name != name && FreeIn(links, pod, name)
    requires links' == links[x := links[x].(ns := Pod(pod), up := false)]
    ensures forall j :: !At(links', j, Pod(pod), name)
  {
    forall j ensures !At(links', j, Pod(pod), name) {
      assert !At(links, j, Pod(pod), name);
    }
  }

  /** The link x is handed over from moment c on: found, renamed if it is called eth0, and then moved and named. */
  ghost predicate HandsAt(w: World, links: Links, c: nat, pod: nat, x: nat, podIf: string)
    requires x in links
  {
    && w(c).ok
    && if links[x].name != "eth0" then Handed(w, links, c + 1, pod, links[x].name, podIf)
       else Renamed(w, links, c + 1, x) && Handed(w, links, c + 5, pod, Sriov(w(c + 2).random % 9999), podIf)
  }

  /** What becomes of the link x whose hand-over, detour included, starts at moment c. */
  ghost function HandedLink(w: World, links: Links, c: nat, pod: nat, x: nat, podIf: string): Link
    requires x in links
  {
    if !w(c).ok then links[x]
    else if links[x].name != "eth0" then LinkAfter(w, links, c + 1, pod, x, links[x].name, podIf)
    else SparedLink(w, links, c + 1, pod, x, podIf)
  }

  /** The links after a detour that starts at moment c. */
  ghost function AfterDetour(w: World, links: Links, c: nat, x: nat): Links
    requires x in links
  {
    var low := links[x].(up := links[x].up && !w(c).ok);
    links[x := if Renamed(w, links, c, x) then low.(name := Sriov(w(c + 1).random % 9999)) else low]
  }

  /** What becomes of a link called eth0 from the detour on. */
  ghost function SparedLink(w: World, links: Links, c: nat, pod: nat, x: nat, podIf: string): Link
    requires x in links
  {
    var t := AfterDetour(w, links, c, x);
    var d := if w(c + 2).ok then c + 4 else c + 3;
    if Renamed(w, links, c, x) then LinkAfter(w, t, d, pod, x, t[x].name, podIf) else LinkMisnamed(w, t, d, pod, x)
  }

  /** The hand-over in any world: what it answers, and how far the link has got. */
  lemma HandAny(w: World, h: State, a: Args, pod: nat, x: nat, podIf: string, vf: nat)
    requires UniqueNames(h.links) && x in h.links && h.links[x].ns == Init
    requires h.links[x].name == "eth0" ==> NoSriov(h.links, pod)
    ensures var r := Hand(w, h, a, pod, h.links[x].name, podIf, vf);
            var done := HandsAt(w, h.links, h.clock, pod, x, podIf);
            && r.r == (if done then Ok else Fail)
            && (r.r.Ok? ==> r.h.clock == h.clock + if h.links[x].name == "eth0" then 11 else 7)
            && r.h == h.(clock := r.h.clock, links := h.links[x := HandedLink(w, h.links, h.clock, pod, x, podIf)],
                         store := if done then h.store[Key(a.cid, podIf) := Record(podIf, vf, a.vlan)] else h.store)
  {
    hide HandRest, Key, Exec, Taken, FreeIn, Sriov, UniqueNames, AllWork, LinkAfter, SparedLink;
    var name := h.links[x].name;
    FindsIt(w, h, Init, name, x);
    var l := h.(clock := h.clock + 1);
    if w(h.clock).ok {
      if name != "eth0" {
        HandRestAny(w, l, a, pod, x, name, podIf, vf);
      } else {
        SpareAny(w, l, x);
        EthHandAny(w, l, a, pod, x, podIf, vf);
      }
    } else {
      assert h.links[x := h.links[x]] == h.links;
    }
  }

  lemma EthHandAny(w: World, h: State, a: Args, pod: nat, x: nat, podIf: string, vf: nat)
    requires UniqueNames(h.links) && At(h.links, x, Init, "eth0") && NoSriov(h.links, pod)
    ensures var sp := Sriov(w(h.clock + 1).random % 9999);
            var r := HandRest(w, Spare(w, h, x).h, a, pod, x, sp, podIf, vf);
            var done := Renamed(w, h.links, h.clock, x) && Handed(w, h.links, h.clock + 4, pod, sp, podIf);
            && r.r == (if done then Ok else Fail)
            && (r.r.Ok? ==> r.h.clock == h.clock + 10)
            && r.h == h.(clock := r.h.clock, links := h.links[x := SparedLink(w, h.links, h.clock, pod, x, podIf)],
                         store := if done then h.store[Key(a.cid, podIf) := Record(podIf, vf, a.vlan)] else h.store)
  {
    hide HandRest, Key, Sriov, AllWork, Taken, LinkAfter, LinkMisnamed;
    var n := w(h.clock + 1).random % 9999;
    SpareAny(w, h, x);
    SpareDone(w, h, x);
    var t := Spare(w, h, x).h;
    assert t.links == AfterDetour(w, h.links, h.clock, x);
    NotEth0(n);
    StillUnused(h.links, t.links, x, pod, n);
    SameNamesInPod(h.links, t.links, x, pod);
    hide Exec, Rename, Spare, NoSriov, UniqueNames;
    if Renamed(w, h.links, h.clock, x) {
      HandRestAny(w, t, a, pod, x, Sriov(n), podIf, vf);
      SetTwice(h.links, x, t.links[x], LinkAfter(w, t.links, t.clock, pod, x, Sriov(n), podIf));
    } else {
      Misnamed(w, t, a, pod, x, Sriov(n), podIf, vf);
      SetTwice(h.links, x, t.links[x], LinkMisnamed(w, t.links, t.clock, pod, x));
    }
  }

  // ----- the setup -----

  /** The setup whose scan has ended with s: its vlan call, if it makes one, works, and the link is handed over. */
  ghost predicate Finishes(w: World, h: State, vlan: int, pf: string, s: Scanned, pod: nat, podIf: string) {
    && s.ok && s.vf.Some?
    && var id := VfId(pf, s.vf.value);
       && id in h.vfLinks && |h.vfLinks[id]| == 1 && h.vfLinks[id][0] in h.links
       && (vlan != 0 ==> w(s.h.clock).ok)
       && HandsAt(w, h.links, s.h.clock + if vlan != 0 then 1 else 0, pod, h.vfLinks[id][0], podIf)
  }

  /** The two lookups before the scan work, and the scan is one that this scan law describes. */
  lemma ScanOfAny(w: World, h: State, pf: string, rates: Rates) returns (v: Option<nat>)
    ensures var z := ScanOf(w, h, pf, rates);
            && (z.Some? <==> w(h.clock).ok && Find(h.links, Init, pf).Some? && w(h.clock + 1).ok && pf in h.totals)
            && (z.Some? ==> Answers(w, h.(clock := h.clock + 2), pf, 0, h.totals[pf], v, z.value))
  {
    hide Scan, Answers;
    AsksFirst(w, h, pf);
    v := None;
    if ScanOf(w, h, pf, rates).Some? {
      v := ScanAny(w, h.(clock := h.clock + 2), pf, 0, h.totals[pf], rates);
    }
  }

  lemma AsksFirst(w: World, h: State, pf: string)
    ensures var c := h.clock;
            var m := Exec(w, h, LinkByName(Init, pf));
            && m.h == h.(clock := c + 1) && (m.r.Index? <==> w(c).ok && Find(h.links, Init, pf).Some?)
            && Exec(w, m.h, NumVfs(pf)) ==
               Ran(h.(clock := c + 2), if w(c + 1).ok && pf in h.totals then Num(h.totals[pf]) else Fail)
  {
  }

  /** The whole host after a setup whose scan has ended well with s. */
  ghost predicate SetUpTo(w: World, h: State, a: Args, pod: nat, pf: string, podIf: string, rates: Rates, s: Scanned,
                          o: SetupOut) {
    && s.vf.Some?
    && var id := VfId(pf, s.vf.value);
       && id in h.vfLinks && |h.vfLinks[id]| == 1 && h.vfLinks[id][0] in h.links && id in h.vfCfg
       && var x := h.vfLinks[id][0];
          var c := s.h.clock + if a.vlan != 0 then 1 else 0;
          var vlanSet := a.vlan != 0 && w(s.h.clock).ok;
          o.h == h.(clock := o.h.clock,
                    vfCfg := h.vfCfg[id := SetTo(h.vfCfg[id], a.vlan, vlanSet, rates)],
                    links := if a.vlan != 0 && !vlanSet then h.links
                             else h.links[x := HandedLink(w, h.links, c, pod, x, podIf)],
                    store := if o.ok then h.store[Key(a.cid, podIf) := Record(podIf, s.vf.value, a.vlan)] else h.store)
  }

  /**
   A setup in any world: it hands the number on that its scan has answered, whatever comes after; it succeeds exactly
   if the scan has, the vlan call works, and the link is handed over by the calls from then on; and the host is what it
   was but for the rates, the vlan, the link and the record, each set if the calls up to it worked.
   */
  lemma SetupAny(w: World, h: State, a: Args, pod: nat, pf: string, podIf: string, rates: Rates)
    requires Inv(h) && TempSafe(h, pod)
    ensures var s := Setup(w, h, a, pod, pf, podIf, rates);
            var z := ScanOf(w, h, pf, rates);
            && s.vf == (if z.Some? then z.value.vf else None)
            && (s.ok <==> z.Some? && Finishes(w, h, a.vlan, pf, z.value, pod, podIf))
            && if z.Some? && z.value.ok then SetUpTo(w, h, a, pod, pf, podIf, rates, z.value, s)
               else SameButClock(s.h, h)
  {
    hide Scan, AfterScan, UniqueNames, DevOk, NetDir, NoSriov, Find, HandsAt, HandedLink, TempSafe, Key;
    AsksFirst(w, h, pf);
    hide Exec;
    if ScanOf(w, h, pf, rates).Some? {
      var z := ScanOf(w, h, pf, rates).value;
      var t := h.(clock := h.clock + 2);
      ScanFinds(w, t, pf, 0, h.totals[pf], rates);
      PassedCheck(w, z, a, pod, pf, podIf);
      if z.ok {
        OneName(t, z, pf, h.totals[pf], rates);
        var x := SingleLink(t, z, pf, h.totals[pf], rates);
        SafeFor(h, pod, VfId(pf, z.vf.value), x);
        AfterScanAny(w, z, a, pod, pf, podIf, x);
        SetInTwo(h.vfCfg, VfId(pf, z.vf.value), a.vlan, rates);
      } else {
        Refused(w, z, a, pod, pf, podIf);
      }
    }
  }

  lemma AfterScanAny(w: World, s: Scanned, a: Args, pod: nat, pf: string, podIf: string, x: nat)
    requires UniqueNames(s.h.links) && s.ok && s.vf.Some? && |s.names| == 1 && VfId(pf, s.vf.value) in s.h.vfCfg
    requires At(s.h.links, x, Init, s.names[0]) && (s.names[0] == "eth0" ==> NoSriov(s.h.links, pod))
    ensures var o := AfterScan(w, s, a, pod, pf, podIf);
            var id := VfId(pf, s.vf.value);
            var c := s.h.clock + if a.vlan != 0 then 1 else 0;
            var vlanSet := a.vlan != 0 && w(s.h.clock).ok;
            && (o.ok <==> (a.vlan != 0 ==> vlanSet) && HandsAt(w, s.h.links, c, pod, x, podIf))
            && o.h == s.h.(clock := o.h.clock,
                           vfCfg := if vlanSet then s.h.vfCfg[id := s.h.vfCfg[id].(vlan := a.vlan)] else s.h.vfCfg,
                           links := if a.vlan != 0 && !vlanSet then s.h.links
                                    else s.h.links[x := HandedLink(w, s.h.links, c, pod, x, podIf)],
                           store := if o.ok then s.h.store[Key(a.cid, podIf) := Record(podIf, s.vf.value, a.vlan)]
                                    else s.h.store)
  {
    hide Hand, HandsAt, HandedLink, NoSriov, UniqueNames, Key;
    VlanTicks(w, s.h, VfId(pf, s.vf.value), a.vlan);
    hide Exec;
    var c := if a.vlan != 0 then Exec(w, s.h, SetVlan(VfId(pf, s.vf.value), a.vlan)) else Ran(s.h, Ok);
    if c.r.Ok? {
      HandAny(w, c.h, a, pod, x, podIf, s.vf.value);
    }
  }

  /** A VF that shows two links, or none, is refused on any host, and nothing is done after the scan. */
  lemma OneLinkOnly(w: World, h: State, a: Args, pod: nat, pf: string, podIf: string, rates: Rates)
    ensures var s := Setup(w, h, a, pod, pf, podIf, rates);
            var z := ScanOf(w, h, pf, rates);
            z.Some? && |z.value.names| != 1 ==> s == SetupOut(z.value.h, z.value.vf, false)
  {
    hide Exec, Scan, Hand;
  }

  lemma VlanTicks(w: World, h: State, id: VfId, vlan: int)
    requires id in h.vfCfg
    ensures Exec(w, h, SetVlan(id, vlan)) ==
            if w(h.clock).ok
            then Ran(h.(clock := h.clock + 1, vfCfg := h.vfCfg[id := h.vfCfg[id].(vlan := vlan)]), Ok)
            else Ran(h.(clock := h.clock + 1), Fail)
  {
  }
}
