/**
 What two overlapping bodies can do to a name. A link on its way back is looked up twice, once for its index and
 once to be renamed; when the name has passed to another link in between, that link gets the first one's name.
 */
module Overlap {
  import opened Text
  import opened Host
  import opened Lifecycle
  import opened Programs
  import opened HostInvariant
  import opened Reclaim
  import opened Placement
  import opened SetupLaw
  import opened Lock

  // ----- a release, call by call -----

  /** A body that brings an interface back, after its first lookup has found i. */
  function FoundIt(pod: nat, name: string, k: Reply -> Prog, i: nat): (p: Prog)
    ensures p.Do? && p.op == SetDown(i)
  {
    BringBackP(pod, name, k).k(Index(i))
  }

  /** The same body after its second lookup has found j: about to rename j to the name of i. */
  function AboutToRename(pod: nat, name: string, k: Reply -> Prog, i: nat, j: nat): (p: Prog)
    ensures p.Do? && p.op == SetName(j, Dev(i))
  {
    FoundIt(pod, name, k, i).k(Ok).k(Index(j))
  }

  /** A body that has found and renamed j: about to move it. */
  function AboutToMove(pod: nat, name: string, k: Reply -> Prog, j: nat): (p: Prog)
    ensures p.Do? && p.op == SetNs(j, Init)
  {
    AboutToRename(pod, name, k, j, j).k(Ok)
  }

  lemma LooksUp(w: World, h: State, ns: Ns, name: string, x: nat)
    requires AllOk(w, 0) && At(h.links, x, ns, name) && forall y | y != x :: !At(h.links, y, ns, name)
    ensures Exec(w, h, LinkByName(ns, name)) == Ran(h.(clock := h.clock + 1), Index(x))
  {
    FoundAlone(h.links, x, ns, name);
  }

  lemma Lowers(w: World, h: State, x: nat)
    requires AllOk(w, 0) && x in h.links
    ensures Exec(w, h, SetDown(x)) == Ran(h.(clock := h.clock + 1, links := h.links[x := h.links[x].(up := false)]), Ok)
  {
  }

  lemma Renames(w: World, h: State, x: nat, name: string)
    requires AllOk(w, 0) && x in h.links && !h.links[x].up && !Taken(h.links, x, h.links[x].ns, name)
    ensures Exec(w, h, SetName(x, name)) ==
            Ran(h.(clock := h.clock + 1, links := h.links[x := h.links[x].(name := name)]), Ok)
  {
  }

  lemma OneCall(w: World, p: Prog, h: State)
    requires p.Do? && !p.op.Unlock?
    ensures var e := Exec(w, h, p.op); Reach(w, Config(p, h), Config(p.k(e.r), e.h))
  {
    var e := Exec(w, h, p.op);
    assert Steps(w, Config(p, h), 1) == Steps(w, Config(p.k(e.r), e.h), 0);
  }

  lemma FirstLookup(w: World, h: State, pod: nat, name: string, k: Reply -> Prog, i: nat)
    requires AllOk(w, 0) && UniqueNames(h.links) && At(h.links, i, Pod(pod), name)
    ensures Reach(w, Config(BringBackP(pod, name, k), h), Config(FoundIt(pod, name, k, i), h.(clock := h.clock + 1)))
  {
    LinkByNameOk(w, h, Pod(pod), name, i);
    hide Exec;
    OneCall(w, BringBackP(pod, name, k), h);
  }

  lemma SecondLookup(w: World, h: State, pod: nat, name: string, k: Reply -> Prog, i: nat, j: nat)
    requires AllOk(w, 0) && i in h.links && i != j
    requires At(h.links, j, Pod(pod), name) && forall y | y != j :: !At(h.links, y, Pod(pod), name)
    ensures Reach(w, Config(FoundIt(pod, name, k, i), h),
                  Config(AboutToRename(pod, name, k, i, j),
                         h.(clock := h.clock + 2, links := h.links[i := h.links[i].(up := false)])))
  {
    hide Exec, Reach;
    var d := h.(clock := h.clock + 1, links := h.links[i := h.links[i].(up := false)]);
    Lowers(w, h, i);
    OneCall(w, FoundIt(pod, name, k, i), h);
    assert forall y | y != j :: At(d.links, y, Pod(pod), name) == At(h.links, y, Pod(pod), name);
    LooksUp(w, d, Pod(pod), name, j);
    OneCall(w, FoundIt(pod, name, k, i).k(Ok), d);
    Trans(w, Config(FoundIt(pod, name, k, i), h), Config(FoundIt(pod, name, k, i).k(Ok), d),
          Config(AboutToRename(pod, name, k, i, j), d.(clock := d.clock + 1)));
  }

  lemma SecondLookupOfSame(w: World, h: State, pod: nat, name: string, k: Reply -> Prog, j: nat)
    requires AllOk(w, 0) && At(h.links, j, Pod(pod), name) && forall y | y != j :: !At(h.links, y, Pod(pod), name)
    ensures Reach(w, Config(BringBackP(pod, name, k), h),
                  Config(AboutToRename(pod, name, k, j, j),
                         h.(clock := h.clock + 3, links := h.links[j := h.links[j].(up := false)])))
  {
    hide Exec, Reach, Dev;
    var s := Config(BringBackP(pod, name, k), h);
    var l := h.(clock := h.clock + 1);
    LooksUp(w, h, Pod(pod), name, j);
    OneCall(w, s.p, h);
    Lowers(w, l, j);
    var c := Config(FoundIt(pod, name, k, j), l);
    OneCall(w, c.p, l);
    var d := h.(clock := h.clock + 2, links := h.links[j := h.links[j].(up := false)]);
    var e := Config(c.p.k(Ok), d);
    Trans(w, s, c, e);
    assert forall y | y != j :: At(d.links, y, Pod(pod), name) == At(h.links, y, Pod(pod), name);
    LooksUp(w, d, Pod(pod), name, j);
    OneCall(w, e.p, d);
    Trans(w, s, e, Config(AboutToRename(pod, name, k, j, j), d.(clock := d.clock + 1)));
  }

  /** A body that brings back j, up to its last call. */
  lemma UpToTheMove(w: World, h: State, pod: nat, name: string, k: Reply -> Prog, j: nat)
    requires AllOk(w, 0) && At(h.links, j, Pod(pod), name) && forall y | y != j :: !At(h.links, y, Pod(pod), name)
    requires !Taken(h.links, j, Pod(pod), Dev(j))
    ensures Reach(w, Config(BringBackP(pod, name, k), h),
                  Config(AboutToMove(pod, name, k, j),
                         h.(clock := h.clock + 4, links := h.links[j := h.links[j].(up := false, name := Dev(j))])))
  {
    hide Exec, Reach, Taken, Dev, BringBackP, AboutToRename;
    SecondLookupOfSame(w, h, pod, name, k, j);
    var d := h.(clock := h.clock + 3, links := h.links[j := h.links[j].(up := false)]);
    var n := Config(AboutToRename(pod, name, k, j, j), d);
    SameTakenHere(h.links, d.links, j, Pod(pod), Dev(j));
    Renames(w, d, j, Dev(j));
    OneCall(w, n.p, d);
    assert d.links[j := d.links[j].(name := Dev(j))] == h.links[j := h.links[j].(up := false, name := Dev(j))];
    Trans(w, Config(BringBackP(pod, name, k), h), n, Config(AboutToMove(pod, name, k, j),
        h.(clock := h.clock + 4, links := h.links[j := h.links[j].(up := false, name := Dev(j))])));
  }

  lemma SameTakenHere(links: Links, links': Links, j: nat, ns: Ns, name: string)
    requires links'.Keys == links.Keys && forall y | y in links && y != j :: links'[y] == links[y]
    ensures Taken(links', j, ns, name) <==> Taken(links, j, ns, name)
  {
    assert forall y | y != j :: At(links', y, ns, name) == At(links, y, ns, name);
  }

  // ----- the run -----

  /** What the bodies are about: a pod, an interface's name, the link i that has it, and the free link j. */
  datatype Cast = Cast(pod: nat, name: string, i: nat, j: nat, free: string, other: nat, otherName: string)

  /** In the pod the link i has the name; j is free and called as its VF calls it; two pods have room for both. */
  ghost predicate Staged(w: World, h: State, c: Cast) {
    && AllOk(w, 0) && Inv(h) && DevOk(h.links, Pod(c.pod)) && c.pod != c.other && c.i != c.j
    && At(h.links, c.i, Pod(c.pod), c.name) && At(h.links, c.j, Init, c.free)
    && FreeIn(h.links, c.pod, c.free) && FreeIn(h.links, c.other, Dev(c.i)) && FreeIn(h.links, c.other, c.otherName)
  }

  /** The links once i has come back and gone to another pod, and j has got its name here. */
  function Swapped(links: Links, c: Cast): Links
    requires c.i in links && c.j in links
  {
    links[c.j := InPod(links[c.j], c.pod, c.name, false)][c.i := InPod(links[c.i], c.other, c.otherName, false)]
  }

  lemma BringsBack(w: World, h: State, c: Cast, k: Reply -> Prog) returns (t: State)
    requires Staged(w, h, c)
    ensures Reach(w, Config(BringBackP(c.pod, c.name, k), h), Config(k(Index(c.i)), t))
    ensures SameButClock(t, h.(links := h.links[c.i := Back(h.links[c.i], c.i)])) && Inv(t)
  {
    hide BringBack, BringBackP, Dev, Reach;
    BringBackRuns(w, h, c.pod, c.name, k);
    BringBackOk(w, h, c.pod, c.name, c.i);
    BringBackKept(w, h, c.pod, c.name, "");
    t := BringBack(w, h, c.pod, c.name).h;
  }

  lemma HandsOut(w: World, h: State, a: Args, pod: nat, x: nat, name: string, podIf: string, vf: nat, k: Reply -> Prog)
    returns (t: State)
    requires AllOk(w, 0) && UniqueNames(h.links) && At(h.links, x, Init, name)
    requires FreeIn(h.links, pod, name) && FreeIn(h.links, pod, podIf)
    ensures Reach(w, Config(HandRestP(a, pod, x, name, podIf, vf, k), h), Config(k(Ok), t))
    ensures t == h.(clock := t.clock, links := h.links[x := InPod(h.links[x], pod, podIf, false)], store := t.store)
    ensures t.store == h.store[Key(a.cid, podIf) := Record(podIf, vf, a.vlan)]
  {
    hide HandRest, HandRestP, FreeIn, Key, Reach;
    HandRestRuns(w, h, a, pod, x, name, podIf, vf, k);
    HandRestWorks(w, h, a, pod, x, name, podIf, vf);
    HandRestDone(w, h, a, pod, x, name, podIf, vf);
    t := HandRest(w, h, a, pod, x, name, podIf, vf).h;
  }

  lemma OneHanded(links: Links, x: nat, pod: nat, podIf: string)
    requires UniqueNames(links) && x in links && FreeIn(links, pod, podIf)
    ensures UniqueNames(links[x := InPod(links[x], pod, podIf, false)])
  {
    var t := links[x := InPod(links[x], pod, podIf, false)];
    forall y, z | y in t && z in t && t[y].ns == t[z].ns && t[y].name == t[z].name ensures y == z {
      assert !At(links, y, Pod(pod), podIf) && !At(links, z, Pod(pod), podIf);
    }
  }

  /** Room for j in the pod once i is back, and for i in the other pod once j is in. */
  lemma Room(w: World, h: State, c: Cast)
    requires Staged(w, h, c)
    ensures var b := h.links[c.i := Back(h.links[c.i], c.i)];
            var d := b[c.j := InPod(b[c.j], c.pod, c.name, false)];
            && At(b, c.j, Init, c.free) && FreeIn(b, c.pod, c.free) && FreeIn(b, c.pod, c.name)
            && At(d, c.i, Init, Dev(c.i)) && FreeIn(d, c.other, Dev(c.i)) && FreeIn(d, c.other, c.otherName)
            && d[c.i := InPod(d[c.i], c.other, c.otherName, false)] == Swapped(h.links, c)
  {
    hide Dev, Wired, DevOk;
    var b := h.links[c.i := Back(h.links[c.i], c.i)];
    var d := b[c.j := InPod(b[c.j], c.pod, c.name, false)];
    assert forall y, n | y != c.i :: At(b, y, Pod(c.pod), n) == At(h.links, y, Pod(c.pod), n);
    assert forall y, n | y != c.i && y != c.j :: At(d, y, Pod(c.other), n) == At(h.links, y, Pod(c.other), n);
    forall y ensures !At(b, y, Pod(c.pod), c.name) {
    }
    assert d[c.i := InPod(d[c.i], c.other, c.otherName, false)] == Swapped(h.links, c);
  }

  /** The names that matter after the swap: j alone has the interface's name, and dev<i> and dev<j> are free for j. */
  lemma AfterSwap(w: World, h: State, c: Cast)
    requires Staged(w, h, c)
    ensures var t := Swapped(h.links, c);
            && At(t, c.j, Pod(c.pod), c.name) && (forall y | y != c.j :: !At(t, y, Pod(c.pod), c.name))
            && t[c.i].up == false && !Taken(t, c.j, Pod(c.pod), Dev(c.j)) && !Taken(t, c.j, Pod(c.pod), Dev(c.i))
            && !Taken(t, c.j, Init, Dev(c.i))
  {
    hide Dev, Wired;
  }

  /** Five live bodies: three about to bring back the pod's interface, two about to hand over a link. */
  datatype Bodies = Bodies(pids: seq<nat>, ks: seq<Reply -> Prog>, a: Args, otherArgs: Args, vf: nat, otherVf: nat)

  function BodyOf(c: Cast, b: Bodies, n: nat): Prog
    requires n < 5 && |b.ks| == 5
  {
    if n == 2 then HandRestP(b.a, c.pod, c.j, c.free, c.name, b.vf, b.ks[n])
    else if n == 3 then HandRestP(b.otherArgs, c.other, c.i, Dev(c.i), c.otherName, b.otherVf, b.ks[n])
    else BringBackP(c.pod, c.name, b.ks[n])
  }

  ghost predicate FiveLive(procs: map<nat, Proc>, c: Cast, b: Bodies) {
    && |b.ks| == 5 && |b.pids| == 5 && (forall m, n | 0 <= m < n < 5 :: b.pids[m] != b.pids[n])
    && forall n | 0 <= n < 5 :: b.pids[n] in procs && procs[b.pids[n]] == Critical(BodyOf(c, b, n))
  }

  predicate AllRuns(es: seq<Event>) {
    forall e | e in es :: e.Run? && e.ok
  }

  /** One stretch of a live body inside a run. */
  lemma RunTo(w: World, progs: Progs, s: Sys, es: seq<Event>, pid: nat, p: Prog, q: Config) returns (es': seq<Event>)
    requires s.procs.Keys <= progs.Keys && AllRuns(es)
    requires var t := Play(w, progs, s, es);
             pid in t.procs && t.procs[pid] == Critical(p) && Reach(w, Config(p, t.h), q)
    ensures var t := Play(w, progs, s, es);
            Play(w, progs, s, es') == t.(h := q.h, procs := t.procs[pid := Critical(q.p)])
    ensures AllRuns(es')
  {
    var n: nat :| Steps(w, Config(p, Play(w, progs, s, es).h), n) == q;
    var more := RunAlone(w, progs, s, es, pid, n, q);
    es' := es + more;
  }

  /** The first body's first lookup, the second body's way back, and the two hand-overs. */
  lemma TheSwap(w: World, progs: Progs, s: Sys, c: Cast, b: Bodies) returns (es: seq<Event>)
    requires s.procs.Keys <= progs.Keys && Staged(w, s.h, c) && FiveLive(s.procs, c, b)
    ensures AllRuns(es)
    ensures var t := Play(w, progs, s, es);
            && t.h.links == Swapped(s.h.links, c)
            && FoundFirst(t.procs, c, b)
  {
    hide Play, Exec, BringBackP, HandRestP, FoundIt, Dev, Reach, UniqueNames, DevOk, Wired, FreeIn, InPod, Back;
    var h, i := s.h, c.i;
    PlayNothing(w, progs, s);
    FirstLookup(w, h, c.pod, c.name, b.ks[0], i);
    var h1 := h.(clock := h.clock + 1);
    es := RunTo(w, progs, s, [], b.pids[0], BodyOf(c, b, 0), Config(FoundIt(c.pod, c.name, b.ks[0], i), h1));
    var h2 := BringsBack(w, h1, c, b.ks[1]);
    es := RunTo(w, progs, s, es, b.pids[1], BodyOf(c, b, 1), Config(b.ks[1](Index(i)), h2));
    Room(w, h, c);
    var h3 := HandsOut(w, h2, b.a, c.pod, c.j, c.free, c.name, b.vf, b.ks[2]);
    es := RunTo(w, progs, s, es, b.pids[2], BodyOf(c, b, 2), Config(b.ks[2](Ok), h3));
    OneHanded(h2.links, c.j, c.pod, c.name);
    var h4 := HandsOut(w, h3, b.otherArgs, c.other, i, Dev(i), c.otherName, b.otherVf, b.ks[3]);
    es := RunTo(w, progs, s, es, b.pids[3], BodyOf(c, b, 3), Config(b.ks[3](Ok), h4));
  }

  lemma PlayNothing(w: World, progs: Progs, s: Sys)
    requires s.procs.Keys <= progs.Keys
    ensures Play(w, progs, s, []) == s
  {
  }

  ghost predicate FoundFirst(procs: map<nat, Proc>, c: Cast, b: Bodies) {
    && |b.ks| == 5 && |b.pids| == 5 && b.pids[0] != b.pids[4] && b.pids[0] in procs && b.pids[4] in procs
    && procs[b.pids[0]] == Critical(FoundIt(c.pod, c.name, b.ks[0], c.i))
    && procs[b.pids[4]] == Critical(BringBackP(c.pod, c.name, b.ks[4]))
  }

  /** The last calls: the first body looks j up, the last renames j, the first renames it again, the last moves it. */
  lemma TheMix(w: World, progs: Progs, s: Sys, es: seq<Event>, c: Cast, b: Bodies, links: Links)
    returns (es': seq<Event>)
    requires s.procs.Keys <= progs.Keys && AllRuns(es) && AllOk(w, 0) && c.i != c.j && c.i in links && c.j in links
    requires Play(w, progs, s, es).h.links == links && FoundFirst(Play(w, progs, s, es).procs, c, b)
    requires At(links, c.j, Pod(c.pod), c.name) && forall y | y != c.j :: !At(links, y, Pod(c.pod), c.name)
    requires !links[c.i].up && !Taken(links, c.j, Pod(c.pod), Dev(c.j)) && !Taken(links, c.j, Pod(c.pod), Dev(c.i))
    requires !Taken(links, c.j, Init, Dev(c.i))
    ensures AllRuns(es') && At(Play(w, progs, s, es').h.links, c.j, Init, Dev(c.i))
  {
    hide Play, Exec, BringBackP, FoundIt, AboutToRename, AboutToMove, Dev, Reach, Taken;
    var h, i, j, k0, k4 := Play(w, progs, s, es).h, c.i, c.j, b.ks[0], b.ks[4];
    SecondLookup(w, h, c.pod, c.name, k0, i, j);
    var h5 := h.(clock := h.clock + 2);
    assert links[i := links[i].(up := false)] == links;
    es' := RunTo(w, progs, s, es, b.pids[0], FoundIt(c.pod, c.name, k0, i),
                 Config(AboutToRename(c.pod, c.name, k0, i, j), h5));
    UpToTheMove(w, h5, c.pod, c.name, k4, j);
    var h6 := h5.(clock := h5.clock + 4, links := links[j := links[j].(up := false, name := Dev(j))]);
    es' := RunTo(w, progs, s, es', b.pids[4], BringBackP(c.pod, c.name, k4),
                 Config(AboutToMove(c.pod, c.name, k4, j), h6));
    SameTakenHere(links, h6.links, j, Pod(c.pod), Dev(i));
    Renames(w, h6, j, Dev(i));
    OneCall(w, AboutToRename(c.pod, c.name, k0, i, j), h6);
    var h7 := Exec(w, h6, SetName(j, Dev(i))).h;
    es' := RunTo(w, progs, s, es', b.pids[0], AboutToRename(c.pod, c.name, k0, i, j),
                 Config(AboutToRename(c.pod, c.name, k0, i, j).k(Ok), h7));
    SameTakenHere(links, h7.links, j, Init, Dev(i));
    SetNsOk(w, h7, j, Init);
    OneCall(w, AboutToMove(c.pod, c.name, k4, j), h7);
    es' := RunTo(w, progs, s, es', b.pids[4], AboutToMove(c.pod, c.name, k4, j),
                 Config(AboutToMove(c.pod, c.name, k4, j).k(Ok), Exec(w, h7, SetNs(j, Init)).h));
  }

  /**
   With five bodies live at once and every call working, a link ends up in the initial namespace under the name
   that another link's index reserves: the invariant does not survive such an overlap.
   */
  lemma OverlapMixesNames(w: World, progs: Progs, s: Sys, c: Cast, b: Bodies) returns (es: seq<Event>)
    requires s.procs.Keys <= progs.Keys && Staged(w, s.h, c) && FiveLive(s.procs, c, b)
    ensures AllRuns(es)
    ensures var t := Play(w, progs, s, es);
            At(t.h.links, c.j, Init, Dev(c.i)) && !DevOk(t.h.links, Init) && !Inv(t.h)
  {
    hide Play, Exec, FoundFirst, FiveLive, Dev;
    es := TheSwap(w, progs, s, c, b);
    AfterSwap(w, s.h, c);
    es := TheMix(w, progs, s, es, c, b, Swapped(s.h.links, c));
  }
}
