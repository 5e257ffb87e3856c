/** What DEL can no longer get back: a release that fails halfway, and an ADD that fails and is followed by DEL. */
module Rescue {
  import opened Text
  import opened Host
  import opened Lifecycle
  import opened HostInvariant
  import opened Reclaim
  import opened Panic

  // ----- one release, in any world -----

  /** The calls from one moment up to another all work. */
  ghost predicate AllWork(w: World, from: nat, to: nat) {
    forall c: nat | from <= c < to :: w(c).ok
  }

  /** What a release makes of a link that DEL could take back: still so, home, or in the pod for good. */
  datatype Fortune = Still | AtHome | Lost

  /**
   Decided by nine calls from moment c on: reading the record and removing it; two namespace calls; finding, lowering,
   finding, renaming and moving the link. Only the removal does not hold the others up.
   */
  ghost function TakenBackAt(w: World, c: nat): Fortune {
    if w(c).ok && AllWork(w, c + 2, c + 9) then AtHome
    else if !w(c + 1).ok && !(w(c).ok && AllWork(w, c + 2, c + 8)) then Still
    else Lost
  }

  /** In DEL another namespace call comes first. */
  ghost function FortuneAt(w: World, c: nat): Fortune {
    if w(c).ok then TakenBackAt(w, c + 1) else Still
  }

  ghost predicate Became(h: State, t: State, pod: nat, cid: string, i: nat, f: Fortune)
    requires i in h.links
  {
    match f
    case Still => Reclaimable(t, pod, cid, i) && t.links[i].name == h.links[i].name
    case AtHome => i in t.links && t.links[i] == Back(h.links[i], i)
    case Lost => i in t.links && t.links[i].ns == Pod(pod) && !Reclaimable(t, pod, cid, i)
  }

  lemma FindsIt(w: World, h: State, ns: Ns, name: string, i: nat)
    requires UniqueNames(h.links) && At(h.links, i, ns, name)
    ensures Exec(w, h, LinkByName(ns, name)) == Ran(h.(clock := h.clock + 1), if w(h.clock).ok then Index(i) else Fail)
  {
    FindUnique(h.links, i, ns, name);
  }

  lemma LowersIt(w: World, h: State, i: nat)
    requires i in h.links
    ensures Exec(w, h, SetDown(i)) ==
            if w(h.clock).ok then Ran(h.(clock := h.clock + 1, links := h.links[i := h.links[i].(up := false)]), Ok)
            else Ran(h.(clock := h.clock + 1), Fail)
  {
  }

  lemma NamesIt(w: World, h: State, i: nat, name: string)
    requires i in h.links && !h.links[i].up && !Taken(h.links, i, h.links[i].ns, name)
    ensures Exec(w, h, SetName(i, name)) ==
            if w(h.clock).ok then Ran(h.(clock := h.clock + 1, links := h.links[i := h.links[i].(name := name)]), Ok)
            else Ran(h.(clock := h.clock + 1), Fail)
  {
  }

  lemma MovesIt(w: World, h: State, i: nat, ns: Ns)
    requires i in h.links && !Taken(h.links, i, ns, h.links[i].name)
    ensures Exec(w, h, SetNs(i, ns)) ==
            if w(h.clock).ok
            then Ran(h.(clock := h.clock + 1, links := h.links[i := h.links[i].(ns := ns, up := false)]), Ok)
            else Ran(h.(clock := h.clock + 1), Fail)
  {
  }

  lemma RenamesIt(w: World, h: State, ns: Ns, cur: string, name: string, i: nat)
    requires UniqueNames(h.links) && At(h.links, i, ns, cur) && !h.links[i].up && !Taken(h.links, i, ns, name)
    ensures var r := Rename(w, h, ns, cur, name);
            if w(h.clock).ok && w(h.clock + 1).ok
            then r == Ran(h.(clock := h.clock + 2, links := h.links[i := h.links[i].(name := name)]), Ok)
            else r.r == Fail && r.h == h.(clock := r.h.clock)
  {
    hide Exec, Taken, UniqueNames;
    FindsIt(w, h, ns, cur, i);
    if w(h.clock).ok {
      NamesIt(w, h.(clock := h.clock + 1), i, name);
    }
  }

  lemma WorkSplit(w: World, a: nat, b: nat, c: nat)
    requires a <= b <= c
    ensures AllWork(w, a, c) <==> AllWork(w, a, b) && AllWork(w, b, c)
    ensures AllWork(w, a, a + 2) <==> w(a).ok && w(a + 1).ok
    ensures AllWork(w, a, a + 1) <==> w(a).ok
  {
  }

  /** A lowered link on its way back in any world: home, or in the pod under its new name or its old one. */
  lemma SecondHalf(w: World, h: State, pod: nat, name: string, i: nat)
    requires UniqueNames(h.links) && DevOk(h.links, Init) && At(h.links, i, Pod(pod), name) && !h.links[i].up
    requires !Taken(h.links, i, Pod(pod), Dev(i))
    ensures var n := Rename(w, h, Pod(pod), name, Dev(i));
            var t := if n.r.Ok? then Exec(w, n.h, SetNs(i, Init)).h else n.h;
            && t.store == h.store && i in t.links && t.links.Keys == h.links.Keys
            && (n.r.Ok? <==> AllWork(w, h.clock, h.clock + 2))
            && t.links[i] == if AllWork(w, h.clock, h.clock + 3) then Back(h.links[i], i)
                             else h.links[i].(name := if n.r.Ok? then Dev(i) else name)
  {
    hide Exec, Dev, Taken, Rename, UniqueNames, DevOk, AllWork;
    var c, l := h.clock, h.links[i];
    var named := h.links[i := l.(name := Dev(i))];
    RenamesIt(w, h, Pod(pod), name, Dev(i), i);
    WorkSplit(w, c, c + 2, c + 3);
    WorkSplit(w, c + 2, c + 2, c + 3);
    if w(c).ok && w(c + 1).ok {
      DevFreeInInit(h.links, named, i);
      MovesIt(w, h.(clock := c + 2, links := named), i, Init);
    }
  }

  /** The way back in any world: home after five calls, renamed after four, else still under its name. */
  lemma BackOrNot(w: World, h: State, pod: nat, name: string, i: nat)
    requires UniqueNames(h.links) && DevOk(h.links, Init) && DevOk(h.links, Pod(pod)) && At(h.links, i, Pod(pod), name)
    ensures var t := BringBack(w, h, pod, name).h;
            && t.store == h.store && i in t.links && t.links.Keys == h.links.Keys
            && (if AllWork(w, h.clock, h.clock + 5) then t.links[i] == Back(h.links[i], i)
                else t.links[i].ns == Pod(pod)
                     && t.links[i].name == if AllWork(w, h.clock, h.clock + 4) then Dev(i) else name)
  {
    hide Exec, Dev, Taken, Rename, UniqueNames, DevOk, AllWork;
    var c, l := h.clock, h.links[i];
    var down := h.links[i := l.(up := false)];
    FindsIt(w, h, Pod(pod), name, i);
    WorkSplit(w, c, c + 2, c + 5);
    WorkSplit(w, c, c + 2, c + 4);
    if w(c).ok {
      LowersIt(w, h.(clock := c + 1), i);
      if w(c + 1).ok {
        DevFree(h.links, down, i, pod);
        StillDev(h.links, down);
        SecondHalf(w, h.(clock := c + 2, links := down), pod, name, i);
      }
    }
  }

  lemma StillDev(links: Links, links': Links)
    requires DevOk(links, Init) && links'.Keys == links.Keys
    requires forall i | i in links :: links'[i].ns == links[i].ns && links'[i].name == links[i].name
    ensures DevOk(links', Init)
  {
  }

  lemma ProbesIt(w: World, h: State)
    ensures Exec(w, h, Probe) == Ran(h.(clock := h.clock + 1), if w(h.clock).ok then Ok else Fail)
  {
  }

  lemma EntersAndReturns(w: World, h: State, pod: nat, name: string, i: nat)
    requires UniqueNames(h.links) && DevOk(h.links, Init) && DevOk(h.links, Pod(pod)) && At(h.links, i, Pod(pod), name)
    ensures var t := EnterAndReturn(w, h, pod, name).h;
            && t.store == h.store && i in t.links && t.links.Keys == h.links.Keys
            && (if AllWork(w, h.clock, h.clock + 7) then t.links[i] == Back(h.links[i], i)
                else t.links[i].ns == Pod(pod)
                     && t.links[i].name == if AllWork(w, h.clock, h.clock + 6) then Dev(i) else name)
  {
    hide Exec, Dev, BringBack, UniqueNames, DevOk;
    var c := h.clock;
    ProbesIt(w, h);
    ProbesIt(w, h.(clock := c + 1));
    if w(c).ok && w(c + 1).ok {
      BackOrNot(w, h.(clock := c + 2), pod, name, i);
      assert AllWork(w, c, c + 7) <==> AllWork(w, c + 2, c + 7);
      assert AllWork(w, c, c + 6) <==> AllWork(w, c + 2, c + 6);
    }
  }

  lemma Consumes(w: World, h: State, key: string)
    requires key in h.store
    ensures Consume(w, h, key) ==
            Ran(h.(clock := h.clock + 2, store := if w(h.clock + 1).ok then h.store - {key} else h.store),
                if w(h.clock).ok then Data(h.store[key]) else Fail)
  {
  }

  /** What both releases begin with: the record is read and removed, and if there was one the link is brought back. */
  ghost function TakeBack(w: World, h: State, cid: string, pod: nat, name: string): State {
    var c := Consume(w, h, Key(cid, name));
    if c.r.Data? then EnterAndReturn(w, c.h, pod, name).h else c.h
  }

  lemma TakeBackFortune(w: World, h: State, cid: string, pod: nat, i: nat)
    requires Inv(h) && DevOk(h.links, Pod(pod)) && Reclaimable(h, pod, cid, i)
    ensures Became(h, TakeBack(w, h, cid, pod, h.links[i].name), pod, cid, i, TakenBackAt(w, h.clock))
  {
    hide Exec, Dev, Key, IsEthName, EnterAndReturn, Consume, UniqueNames, DevOk, Wired, Find;
    var name := h.links[i].name;
    Consumes(w, h, Key(cid, name));
    if w(h.clock).ok {
      EntersAndReturns(w, Consume(w, h, Key(cid, name)).h, pod, name, i);
      DevIsNotEth(i);
    }
  }

  /** After that the two releases change configurations only. */
  lemma RestKeeps(w: World, h: State, a: Args, pod: nat, ifc: Iface, pfs: seq<PfInfo>)
    ensures var o := Exec(w, h, Probe);
            var t := ReleaseCustom(w, h, a, pod, ifc, pfs).h;
            if o.r.Ok? then OnlyCfg(TakeBack(w, o.h, a.cid, pod, ifc.name), t) else t == o.h
  {
    hide MaybeResetVlan, ResetRates, FreeVf, EnterAndReturn, Consume, Exec, Key, Dev;
    var c := Consume(w, Exec(w, h, Probe).h, Key(a.cid, ifc.name));
    var b := EnterAndReturn(w, c.h, pod, ifc.name);
    FreeVfKeeps(w, b.h, a.vlan, FindMac(pfs, ifc.mac), Dev(if b.r.Index? then b.r.index else 0));
  }

  lemma RollbackRestKeeps(w: World, h: State, a: Args, pod: nat, name: string, pf: string, vf: Option<nat>)
    ensures OnlyCfg(TakeBack(w, h, a.cid, pod, name), Release(w, h, a, pod, name, pf, vf).h)
  {
    hide MaybeResetVlan, ResetRates, EnterAndReturn, Consume, Exec, Key, Dev;
    var b := EnterAndReturn(w, Consume(w, h, Key(a.cid, name)).h, pod, name);
    var dev := Dev(if b.r.Index? then b.r.index else 0);
    var id := VfId(pf, if vf.Some? then vf.value else 0);
    ResetsKeep(w, b.h, a.vlan, pf, dev, id);
    ResetsKeep(w, MaybeResetVlan(w, b.h, a.vlan, pf, dev).h, a.vlan, pf, dev, id);
  }

  lemma FreeVfKeeps(w: World, h: State, vlan: int, found: Option<VfId>, dev: string)
    ensures OnlyCfg(h, FreeVf(w, h, vlan, found, dev).h)
  {
    hide MaybeResetVlan, ResetRates, Exec;
    var pf := if found.Some? then found.value.pf else "";
    var id := if found.Some? then found.value else VfId("", 0);
    ResetsKeep(w, h, vlan, pf, dev, id);
    var v := MaybeResetVlan(w, h, vlan, pf, dev).h;
    ResetsKeep(w, v, vlan, pf, dev, id);
    OtherCalls(w, v, Probe);
  }

  lemma BecameSame(h: State, t: State, h': State, t': State, pod: nat, cid: string, i: nat, f: Fortune)
    requires i in h.links && h'.links == h.links && t'.links == t.links && t'.store == t.store
    ensures Became(h, t, pod, cid, i, f) <==> Became(h', t', pod, cid, i, f)
  {
    hide IsEthName, Key, Dev;
  }

  /** A link that is reclaimable before DEL's release is exactly this afterwards. */
  lemma ReleaseFortune(w: World, h: State, a: Args, pod: nat, i: nat, pfs: seq<PfInfo>)
    requires Inv(h) && DevOk(h.links, Pod(pod)) && Reclaimable(h, pod, a.cid, i)
    ensures Became(h, ReleaseCustom(w, h, a, pod, Iface(h.links[i].name, h.links[i].mac), pfs).h, pod, a.cid, i,
                   FortuneAt(w, h.clock))
  {
    hide Exec, Dev, Key, IsEthName, TakeBack, ReleaseCustom, UniqueNames, DevOk, Wired, TakenBackAt;
    var ifc := Iface(h.links[i].name, h.links[i].mac);
    ProbesIt(w, h);
    RestKeeps(w, h, a, pod, ifc, pfs);
    if w(h.clock).ok {
      var o := h.(clock := h.clock + 1);
      TakeBackFortune(w, o, a.cid, pod, i);
      BecameSame(o, TakeBack(w, o, a.cid, pod, ifc.name), h, ReleaseCustom(w, h, a, pod, ifc, pfs).h, pod, a.cid, i,
                 FortuneAt(w, h.clock));
    }
  }

  /** So it is with the rollback's release. */
  lemma RollbackFortune(w: World, h: State, a: Args, pod: nat, i: nat, pf: string, vf: Option<nat>)
    requires Inv(h) && DevOk(h.links, Pod(pod)) && Reclaimable(h, pod, a.cid, i)
    ensures Became(h, Release(w, h, a, pod, h.links[i].name, pf, vf).h, pod, a.cid, i, TakenBackAt(w, h.clock))
  {
    hide Key, IsEthName, TakeBack, Release, UniqueNames, DevOk, Wired, TakenBackAt, Became;
    var name := h.links[i].name;
    RollbackRestKeeps(w, h, a, pod, name, pf, vf);
    TakeBackFortune(w, h, a.cid, pod, i);
    BecameSame(h, TakeBack(w, h, a.cid, pod, name), h, Release(w, h, a, pod, name, pf, vf).h, pod, a.cid, i,
               TakenBackAt(w, h.clock));
  }

  lemma DevIsNotEth(i: nat)
    ensures !IsEthName(Dev(i))
  {
    NameKindsDisjoint(i, Dev(i));
  }

  // ----- a link that a release is not about -----

  /** DEL does not come upon this link under this name, or it finds no record for the name. */
  ghost predicate Spared(h: State, pod: nat, cid: string, i: nat, name: string) {
    IsEthName(name) ==> !At(h.links, i, Pod(pod), name) || Key(cid, name) !in h.store
  }

  /** Nothing happens to link i, and no record appears. */
  ghost predicate LeftAlone(h: State, t: State, i: nat) {
    i in h.links && i in t.links && t.links[i] == h.links[i] && forall key | key in t.store :: key in h.store
  }

  lemma OnOther(w: World, h: State, op: Op, i: nat)
    requires i in h.links
    requires op.LinkByName? || op.Probe? || ((op.SetDown? || op.SetName? || op.SetNs?) && op.link != i)
    ensures var t := Exec(w, h, op).h; i in t.links && t.links[i] == h.links[i] && t.store == h.store
    ensures op.LinkByName? && Exec(w, h, op).r.Index? ==> At(h.links, Exec(w, h, op).r.index, op.ns, op.name)
                                                          && Exec(w, h, op).h.links == h.links
  {
    if op.LinkByName? {
      FindIsAt(h.links, op.ns, op.name);
    }
  }

  lemma BringsBackOther(w: World, h: State, pod: nat, name: string, i: nat)
    requires i in h.links && !At(h.links, i, Pod(pod), name)
    ensures var t := BringBack(w, h, pod, name).h; i in t.links && t.links[i] == h.links[i] && t.store == h.store
  {
    hide Exec, Dev;
    OnOther(w, h, LinkByName(Pod(pod), name), i);
    var l := Exec(w, h, LinkByName(Pod(pod), name));
    if l.r.Index? {
      var x := l.r.index;
      OnOther(w, l.h, SetDown(x), i);
      var d := Exec(w, l.h, SetDown(x));
      if d.r.Ok? {
        OnOther(w, d.h, LinkByName(Pod(pod), name), i);
        var f := Exec(w, d.h, LinkByName(Pod(pod), name));
        if f.r.Index? {
          OnOther(w, f.h, SetName(f.r.index, Dev(x)), i);
          OnOther(w, Exec(w, f.h, SetName(f.r.index, Dev(x))).h, SetNs(x, Init), i);
        }
      }
    }
  }

  lemma ConsumesOnly(w: World, h: State, key: string)
    ensures var t := Consume(w, h, key).h;
            t.links == h.links && (t.store == h.store || t.store == h.store - {key})
  {
    assert key !in h.store ==> h.store - {key} == h.store;
  }

  lemma TakeBackSpares(w: World, h: State, cid: string, pod: nat, name: string, i: nat)
    requires i in h.links && (!At(h.links, i, Pod(pod), name) || Key(cid, name) !in h.store)
    ensures var t := TakeBack(w, h, cid, pod, name);
            LeftAlone(h, t, i) && (t.store == h.store || t.store == h.store - {Key(cid, name)})
  {
    hide Exec, Dev, Key, BringBack, Consume;
    var key := Key(cid, name);
    ConsumesOnly(w, h, key);
    var c := Consume(w, h, key).h;
    if key !in h.store {
      ConsumeNothing(w, h, key);
    } else {
      ProbesIt(w, c);
      ProbesIt(w, Exec(w, c, Probe).h);
      BringsBackOther(w, Exec(w, Exec(w, c, Probe).h, Probe).h, pod, name, i);
    }
  }

  /** A release that spares link i leaves it alone, in any world; it removes one record at most, that of its name. */
  lemma ReleaseSpares(w: World, h: State, a: Args, pod: nat, ifc: Iface, pfs: seq<PfInfo>, i: nat)
    requires i in h.links && IsEthName(ifc.name) && Spared(h, pod, a.cid, i, ifc.name)
    ensures var t := ReleaseCustom(w, h, a, pod, ifc, pfs).h;
            && LeftAlone(h, t, i)
            && (t.store == h.store || t.store == h.store - {Key(a.cid, ifc.name)})
  {
    hide Key, IsEthName, TakeBack, ReleaseCustom, Exec;
    ProbesIt(w, h);
    RestKeeps(w, h, a, pod, ifc, pfs);
    if w(h.clock).ok {
      TakeBackSpares(w, h.(clock := h.clock + 1), a.cid, pod, ifc.name, i);
    }
  }

  lemma RollbackSpares(w: World, h: State, a: Args, pod: nat, name: string, pf: string, vf: Option<nat>, i: nat)
    requires i in h.links && (!At(h.links, i, Pod(pod), name) || Key(a.cid, name) !in h.store)
    ensures var t := Release(w, h, a, pod, name, pf, vf).h;
            LeftAlone(h, t, i) && (t.store == h.store || t.store == h.store - {Key(a.cid, name)})
  {
    hide Key, TakeBack, Release;
    RollbackRestKeeps(w, h, a, pod, name, pf, vf);
    TakeBackSpares(w, h, a.cid, pod, name, i);
  }

  /** So does what is left of the loop, if it spares link i at every name. */
  lemma {:induction false} LoopSpares(w: World, h: State, a: Args, pod: nat, ifaces: seq<Iface>, pfs: seq<PfInfo>,
                                      i: nat)
    requires i in h.links && forall k | 0 <= k < |ifaces| :: Spared(h, pod, a.cid, i, ifaces[k].name)
    ensures var t := DelLoop(w, h, a, pod, ifaces, pfs).h;
            && LeftAlone(h, t, i)
            && forall key | key in h.store && key !in t.store ::
                 exists k :: 0 <= k < |ifaces| && IsEthName(ifaces[k].name) && key == Key(a.cid, ifaces[k].name)
    decreases |ifaces|
  {
    hide ReleaseCustom, IsEthName, Key;
    if ifaces != [] {
      var t := h;
      if IsEthName(ifaces[0].name) {
        assert Spared(h, pod, a.cid, i, ifaces[0].name);
        ReleaseSpares(w, h, a, pod, ifaces[0], pfs, i);
        t := ReleaseCustom(w, h, a, pod, ifaces[0], pfs).h;
      }
      forall k | 0 <= k < |ifaces[1..]| ensures Spared(t, pod, a.cid, i, ifaces[1..][k].name) {
        assert Spared(h, pod, a.cid, i, ifaces[k + 1].name);
      }
      LoopSpares(w, t, a, pod, ifaces[1..], pfs, i);
    }
  }

  // ----- DEL as a whole, in any world -----

  /** Some links of the pod, each once. */
  predicate Listed(links: Links, pod: nat, order: seq<nat>) {
    && (forall k | 0 <= k < |order| :: order[k] in links && links[order[k]].ns == Pod(pod))
    && (forall k, m | 0 <= k < m < |order| :: order[k] != order[m])
  }

  /** What has become of a link is not changed by the releases of links with other names. */
  lemma RestSpares(h: State, t: State, pod: nat, cid: string, i: nat, f: Fortune, order: seq<nat>, m: nat)
    requires UniqueNames(h.links) && Listed(h.links, pod, order) && i in h.links && h.links[i].ns == Pod(pod)
    requires Became(h, t, pod, cid, i, f) && m < |order| && order[m] != i
    ensures Spared(t, pod, cid, i, h.links[order[m]].name)
  {
    hide IsEthName, Key, Dev;
  }

  lemma StaysSo(h: State, t: State, s: State, pod: nat, cid: string, i: nat, f: Fortune)
    requires i in h.links && Became(h, t, pod, cid, i, f) && LeftAlone(t, s, i)
    requires f.Still? ==> Key(cid, h.links[i].name) in s.store
    ensures Became(h, s, pod, cid, i, f)
  {
    hide IsEthName, Key, Dev;
  }

  /** The loop comes to link i first. */
  lemma FirstFortune(w: World, h: State, a: Args, pod: nat, order: seq<nat>, pfs: seq<PfInfo>, i: nat)
    requires Inv(h) && DevOk(h.links, Pod(pod)) && Listed(h.links, pod, order) && Reclaimable(h, pod, a.cid, i)
    requires order != [] && order[0] == i
    ensures Became(h, DelLoop(w, h, a, pod, Listing(h.links, order), pfs).h, pod, a.cid, i, FortuneAt(w, h.clock))
  {
    hide Exec, ReleaseCustom, IsEthName, Key, Dev, UniqueNames, DevOk, Wired, FortuneAt, Became, LeftAlone, Spared;
    var ifaces := Listing(h.links, order);
    var f := FortuneAt(w, h.clock);
    ReleaseFortune(w, h, a, pod, i, pfs);
    var r := ReleaseCustom(w, h, a, pod, ifaces[0], pfs);
    if !r.exit.Crashed? {
      var rest := ifaces[1..];
      forall k | 0 <= k < |rest| ensures Spared(r.h, pod, a.cid, i, rest[k].name) {
        RestSpares(h, r.h, pod, a.cid, i, f, order, k + 1);
      }
      BecameThere(h, r.h, pod, a.cid, i, f);
      LoopSpares(w, r.h, a, pod, rest, pfs, i);
      forall k | 0 <= k < |rest| && IsEthName(rest[k].name)
        ensures Key(a.cid, rest[k].name) != Key(a.cid, h.links[i].name)
      {
        OtherRecord(h, pod, a.cid, i, order[k + 1]);
      }
      StaysSo(h, r.h, DelLoop(w, r.h, a, pod, rest, pfs).h, pod, a.cid, i, f);
    }
  }

  lemma BecameThere(h: State, t: State, pod: nat, cid: string, i: nat, f: Fortune)
    requires i in h.links && Became(h, t, pod, cid, i, f)
    ensures i in t.links && (f.Still? ==> Key(cid, h.links[i].name) in t.store)
  {
  }

  /** The loop comes to another link first. */
  lemma OtherFirst(w: World, h: State, a: Args, pod: nat, order: seq<nat>, pfs: seq<PfInfo>, i: nat)
    requires Inv(h) && DevOk(h.links, Pod(pod)) && Listed(h.links, pod, order) && Reclaimable(h, pod, a.cid, i)
    requires order != [] && order[0] != i && IsEthName(h.links[order[0]].name)
    ensures var t := ReleaseCustom(w, h, a, pod, Listing(h.links, order)[0], pfs).h;
            && Inv(t) && DevOk(t.links, Pod(pod)) && Listed(t.links, pod, order[1..])
            && Listing(h.links, order)[1..] == Listing(t.links, order[1..])
            && Reclaimable(t, pod, a.cid, i) && t.links[i] == h.links[i]
  {
    hide Exec, ReleaseCustom, IsEthName, Key, Dev, UniqueNames, Wired, DevOk, Evolves;
    var ifc := Listing(h.links, order)[0];
    ReleaseCustomKept(w, h, a, pod, ifc, pfs);
    NamesApart(h.links, pod, order[0]);
    ReleaseSpares(w, h, a, pod, ifc, pfs, i);
    OtherRecord(h, pod, a.cid, i, order[0]);
    var t := ReleaseCustom(w, h, a, pod, ifc, pfs).h;
    forall k | 0 < k < |order| ensures order[k] in t.links && t.links[order[k]] == h.links[order[k]] {
      ReleaseSpares(w, h, a, pod, ifc, pfs, order[k]);
    }
    ListingTail(h.links, t.links, order);
  }

  lemma NamesApart(links: Links, pod: nat, j: nat)
    requires UniqueNames(links) && j in links && links[j].ns == Pod(pod)
    ensures forall x | x != j :: !At(links, x, Pod(pod), links[j].name)
  {
  }

  /** The moment at which the loop starts the release of the interface with this name, if it gets that far. */
  ghost function StartOf(w: World, h: State, a: Args, pod: nat, ifaces: seq<Iface>, pfs: seq<PfInfo>, name: string)
    : Option<nat>
    decreases |ifaces|
  {
    if ifaces == [] then None
    else if ifaces[0].name == name then Some(h.clock)
    else if !IsEthName(ifaces[0].name) then StartOf(w, h, a, pod, ifaces[1..], pfs, name)
    else
      var r := ReleaseCustom(w, h, a, pod, ifaces[0], pfs);
      if r.exit.Crashed? then None else StartOf(w, r.h, a, pod, ifaces[1..], pfs, name)
  }

  /** The moment at which DEL starts the release of the interface with this name, if it gets that far. */
  ghost function ReleaseMoment(w: World, h: State, a: Args, pod: nat, name: string): Option<nat> {
    var d := if a.ipam then Exec(w, h, IpamDel) else Ran(h, Ok);
    var l := Exec(w, d.h, ListNs(Pod(pod)));
    var q := Exec(w, l.h, Query);
    if !d.r.Ok? || !l.r.Ifaces? then None
    else StartOf(w, q.h, a, pod, l.r.ifaces, if q.r.Table? then q.r.table else [], name)
  }

  /** The fortune of a link whose release starts then, or never. */
  ghost function FortuneFrom(w: World, start: Option<nat>): Fortune {
    if start.Some? then FortuneAt(w, start.value) else Still
  }

  /** The loop, in any world: a reclaimable link in the snapshot is decided by the calls of its own release. */
  lemma {:induction false} LoopFortune(w: World, h: State, a: Args, pod: nat, order: seq<nat>, pfs: seq<PfInfo>, i: nat)
    requires Inv(h) && DevOk(h.links, Pod(pod)) && Listed(h.links, pod, order) && Reclaimable(h, pod, a.cid, i)
    ensures var ifaces := Listing(h.links, order);
            var r := DelLoop(w, h, a, pod, ifaces, pfs);
            var start := StartOf(w, h, a, pod, ifaces, pfs, h.links[i].name);
            && Became(h, r.h, pod, a.cid, i, FortuneFrom(w, start))
            && (start.None? && i in order ==> r.exit.Crashed?)
    decreases |order|
  {
    hide Exec, ReleaseCustom, IsEthName, Key, Dev, UniqueNames, Wired, DevOk, FortuneAt;
    if order != [] {
      var ifaces := Listing(h.links, order);
      if order[0] == i {
        FirstFortune(w, h, a, pod, order, pfs, i);
      } else {
        NamesApart(h.links, pod, i);
        assert At(h.links, order[0], Pod(pod), ifaces[0].name);
        if !IsEthName(ifaces[0].name) {
          ListingTail(h.links, h.links, order);
          LoopFortune(w, h, a, pod, order[1..], pfs, i);
        } else {
          OtherFirst(w, h, a, pod, order, pfs, i);
          var r := ReleaseCustom(w, h, a, pod, ifaces[0], pfs);
          if !r.exit.Crashed? {
            LoopFortune(w, r.h, a, pod, order[1..], pfs, i);
          }
        }
      }
    }
  }

  /**
   DEL in any world: every link that it could take back is home, still reclaimable, or lost, decided by ten calls from
   the moment at which its release starts. A DEL that does not come to it has failed before or panicked.
   */
  lemma DelFortune(w: World, h: State, a: Args, pod: nat, i: nat)
    requires Inv(h) && a.ns == Some(pod) && DevOk(h.links, Pod(pod)) && Reclaimable(h, pod, a.cid, i)
    ensures var start := ReleaseMoment(w, h, a, pod, h.links[i].name);
            && Became(h, Del(w, h, a).h, pod, a.cid, i, FortuneFrom(w, start))
            && (start.None? ==> Del(w, h, a).exit != Done(true))
  {
    hide DelLoop, Exec, Enumerates, Inv, DevOk, IsEthName, Key, FortuneFrom, StartOf;
    AsksOnly(w, h, IpamDel);
    var d := if a.ipam then Exec(w, h, IpamDel) else Ran(h, Ok);
    NotReached(w, h, pod, a.cid, i);
    if d.r.Ok? {
      AsksOnly(w, d.h, ListNs(Pod(pod)));
      var l := Exec(w, d.h, ListNs(Pod(pod)));
      AsksOnly(w, l.h, Query);
      if l.r.Ifaces? {
        var q := Exec(w, l.h, Query);
        var order := w(d.h.clock).order;
        SameInv(h, q.h, pod);
        EnumeratesListed(h.links, pod, order, i);
        LoopFortune(w, q.h, a, pod, order, if q.r.Table? then q.r.table else [], i);
      }
    }
  }

  lemma NotReached(w: World, h: State, pod: nat, cid: string, i: nat)
    requires Reclaimable(h, pod, cid, i)
    ensures FortuneFrom(w, None) == Still && Became(h, h, pod, cid, i, Still)
  {
  }

  lemma SameInv(h: State, t: State, pod: nat)
    requires Inv(h) && DevOk(h.links, Pod(pod)) && SameButClock(t, h)
    ensures Inv(t) && DevOk(t.links, Pod(pod))
  {
    hide UniqueNames, DevOk, Wired;
  }

  lemma EnumeratesListed(links: Links, pod: nat, order: seq<nat>, i: nat)
    requires Enumerates(links, Pod(pod), order) && i in links && links[i].ns == Pod(pod)
    ensures Listed(links, pod, order) && i in order
  {
  }

  /** A link that is not reclaimable stays as it is and so for ever, whatever DELs there are. */
  lemma LostForGood(w: World, h: State, a: Args, pod: nat, i: nat)
    requires a.ns == Some(pod) && i in h.links && !Reclaimable(h, pod, a.cid, i)
    ensures var t := Del(w, h, a).h; i in t.links && t.links[i] == h.links[i] && !Reclaimable(t, pod, a.cid, i)
  {
    hide DelLoop, Exec, Enumerates, IsEthName, Key;
    AsksOnly(w, h, IpamDel);
    var d := if a.ipam then Exec(w, h, IpamDel) else Ran(h, Ok);
    if d.r.Ok? {
      AsksOnly(w, d.h, ListNs(Pod(pod)));
      var l := Exec(w, d.h, ListNs(Pod(pod)));
      AsksOnly(w, l.h, Query);
      if l.r.Ifaces? {
        var q := Exec(w, l.h, Query);
        LoopSpares(w, q.h, a, pod, l.r.ifaces, if q.r.Table? then q.r.table else [], i);
      }
    }
  }

  /** DEL in this world takes the link back. */
  ghost predicate BroughtHome(w: World, h: State, a: Args, pod: nat, i: nat) {
    Reclaimable(h, pod, a.cid, i) && FortuneFrom(w, ReleaseMoment(w, h, a, pod, h.links[i].name)).AtHome?
  }

  /** After a DEL in any world a link is in the initial namespace exactly if it was there or has been brought home. */
  lemma HomeOrNot(w: World, h: State, a: Args, pod: nat, i: nat)
    requires Inv(h) && a.ns == Some(pod) && DevOk(h.links, Pod(pod)) && i in h.links
    ensures var t := Del(w, h, a).h;
            i in t.links && (t.links[i].ns == Init <==> h.links[i].ns == Init || BroughtHome(w, h, a, pod, i))
  {
    hide Del, Inv, DevOk, IsEthName, Key, Dev, FortuneFrom, ReleaseMoment;
    if Reclaimable(h, pod, a.cid, i) {
      DelFortune(w, h, a, pod, i);
    } else {
      LostForGood(w, h, a, pod, i);
    }
  }
}
