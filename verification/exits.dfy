/** What the releases and DEL answer, exactly, whichever of their calls work, and what they leave configured. */
module Exits {
  import opened Text
  import opened Host
  import opened Lifecycle
  import opened HostInvariant
  import opened Reclaim
  import opened Panic
  import opened Rescue

  // ----- the vlan reset -----

  /** The stat on number k works and does not find the name, in a scan that looks at number u at moment c. */
  ghost predicate Absentee(w: World, h: State, pf: string, name: string, c: nat, u: nat, k: nat) {
    k >= u && w(c + (k - u)).ok && name !in NetDir(h, VfId(pf, k))
  }

  /** The scan for a name that starts with number u at moment c stops at v: there the stat fails or finds the name. */
  ghost predicate LocatedAt(w: World, h: State, pf: string, name: string, c: nat, u: nat, total: int, v: nat) {
    && u <= v < total && !Absentee(w, h, pf, name, c, u, v)
    && forall k: nat | u <= k < v :: Absentee(w, h, pf, name, c, u, k)
  }

  ghost predicate NowhereAt(w: World, h: State, pf: string, name: string, c: nat, u: nat, total: int) {
    forall n: nat :: !LocatedAt(w, h, pf, name, c, u, total, n)
  }

  lemma {:induction false} LocateAny(w: World, h: State, pf: string, u: nat, total: int, name: string)
    returns (v: Option<nat>)
    ensures var r := Locate(w, h, pf, u, total, name);
            match v
            case Some(n) =>
              LocatedAt(w, h, pf, name, h.clock, u, total, n) && r == Ran(h.(clock := h.clock + (n - u) + 1), Num(n))
            case None =>
              && NowhereAt(w, h, pf, name, h.clock, u, total)
              && r == Ran(h.(clock := h.clock + if u < total then total - u else 0), Fail)
    decreases total - u
  {
    v := None;
    if u < total {
      var s := Exec(w, h, StatLink(VfId(pf, u), name));
      StatOutcome(w, h, VfId(pf, u), name);
      assert s.r.Absent? <==> Absentee(w, h, pf, name, h.clock, u, u);
      hide Exec, Absentee;
      if !s.r.Absent? {
        v := Some(u);
      } else {
        v := LocateAny(w, s.h, pf, u + 1, total, name);
        LocatedLater(w, h, s.h, pf, name, u, total);
      }
    }
  }

  lemma LocatedLater(w: World, h: State, t: State, pf: string, name: string, u: nat, total: int)
    requires t == h.(clock := h.clock + 1) && Absentee(w, h, pf, name, h.clock, u, u)
    ensures forall n: nat :: LocatedAt(w, h, pf, name, h.clock, u, total, n) <==>
                             LocatedAt(w, t, pf, name, t.clock, u + 1, total, n)
  {
    SameNetDirs(h, t);
    forall k: nat | k > u
      ensures Absentee(w, h, pf, name, h.clock, u, k) <==> Absentee(w, t, pf, name, t.clock, u + 1, k)
    {
      assert t.clock + (k - (u + 1)) == h.clock + (k - u);
    }
    hide Absentee;
    forall n: nat
      ensures LocatedAt(w, h, pf, name, h.clock, u, total, n) <==> LocatedAt(w, t, pf, name, t.clock, u + 1, total, n)
    {
      StopsThere(w, h, t, pf, name, h.clock, t.clock, u, u + 1, total, n);
    }
  }

  lemma StopsThere(w: World, h: State, t: State, pf: string, name: string, c: nat, d: nat, u: nat, next: nat,
                   total: int, n: nat)
    requires next == u + 1 && Absentee(w, h, pf, name, c, u, u)
    requires forall k: nat | k > u :: Absentee(w, h, pf, name, c, u, k) <==> Absentee(w, t, pf, name, d, next, k)
    ensures LocatedAt(w, h, pf, name, c, u, total, n) <==> LocatedAt(w, t, pf, name, d, next, total, n)
  {
    hide Absentee;
    if LocatedAt(w, t, pf, name, d, next, total, n) {
      forall k: nat | u <= k < n ensures Absentee(w, h, pf, name, c, u, k) {
        assert k > u ==> Absentee(w, t, pf, name, d, next, k);
      }
    }
  }

  /** From moment c on the vlan of number v is reset: the count, the scan, the physical function and the call work. */
  ghost predicate ResetsVlan(w: World, h: State, c: nat, pf: string, name: string, v: nat) {
    && w(c).ok && pf in h.totals && LocatedAt(w, h, pf, name, c + 1, 0, h.totals[pf], v)
    && w(c + v + 2).ok && Find(h.links, Init, pf).Some? && w(c + v + 3).ok && VfId(pf, v) in h.vfCfg
  }

  ghost predicate NeverResets(w: World, h: State, c: nat, pf: string, name: string) {
    forall n: nat :: !ResetsVlan(w, h, c, pf, name, n)
  }

  function NoVlan(vfCfg: map<VfId, VfCfg>, id: VfId): map<VfId, VfCfg> {
    if id in vfCfg then vfCfg[id := vfCfg[id].(vlan := 0)] else vfCfg
  }

  function NoRates(vfCfg: map<VfId, VfCfg>, id: VfId): map<VfId, VfCfg> {
    if id in vfCfg then vfCfg[id := vfCfg[id].(minRate := 0, maxRate := 0)] else vfCfg
  }

  lemma ResetVlanAny(w: World, h: State, pf: string, name: string) returns (v: Option<nat>)
    ensures var r := ResetVlan(w, h, pf, name);
            match v
            case Some(n) =>
              && ResetsVlan(w, h, h.clock, pf, name, n)
              && r == Ran(h.(clock := h.clock + n + 4, vfCfg := NoVlan(h.vfCfg, VfId(pf, n))), Ok)
            case None =>
              && NeverResets(w, h, h.clock, pf, name)
              && r == Ran(h.(clock := r.h.clock), Fail)
  {
    hide Locate, Find, LocatedAt, ResetVlan, ResetsVlan, NeverResets, Exec;
    var c := h.clock;
    CountsVfs(w, h, pf);
    v := None;
    var t := h.(clock := c + 1);
    SameLocated(w, h, t);
    if w(c).ok && pf in h.totals {
      var at := LocateAny(w, t, pf, 0, h.totals[pf], name);
      if at.Some? {
        ResetThere(w, h, pf, name, at.value);
        NoOtherReset(w, h, pf, name, at.value);
        if ResetsVlan(w, h, c, pf, name, at.value) {
          v := at;
        }
      } else {
        ResetNowhere(w, h, pf, name);
      }
    } else {
      Uncounted(w, h, pf, name);
    }
  }

  /** The scan has stopped at n. */
  lemma ResetThere(w: World, h: State, pf: string, name: string, n: nat)
    requires pf in h.totals && w(h.clock).ok && LocatedAt(w, h, pf, name, h.clock + 1, 0, h.totals[pf], n)
    requires Locate(w, h.(clock := h.clock + 1), pf, 0, h.totals[pf], name) == Ran(h.(clock := h.clock + n + 2), Num(n))
    ensures var r := ResetVlan(w, h, pf, name);
            if ResetsVlan(w, h, h.clock, pf, name, n)
            then r == Ran(h.(clock := h.clock + n + 4, vfCfg := NoVlan(h.vfCfg, VfId(pf, n))), Ok)
            else r == Ran(h.(clock := r.h.clock), Fail)
  {
    hide Locate, Find, LocatedAt, NoVlan;
    CountsVfs(w, h, pf);
    MasterAndVlan(w, h.(clock := h.clock + n + 2), pf, n);
    hide Exec;
  }

  lemma ResetNowhere(w: World, h: State, pf: string, name: string)
    requires pf in h.totals && w(h.clock).ok && NowhereAt(w, h, pf, name, h.clock + 1, 0, h.totals[pf])
    requires var r := Locate(w, h.(clock := h.clock + 1), pf, 0, h.totals[pf], name);
             r.r == Fail && r.h == h.(clock := r.h.clock)
    ensures NeverResets(w, h, h.clock, pf, name)
    ensures var r := ResetVlan(w, h, pf, name); r == Ran(h.(clock := r.h.clock), Fail)
  {
    hide Locate, Find, LocatedAt;
    CountsVfs(w, h, pf);
    hide Exec;
  }

  lemma Uncounted(w: World, h: State, pf: string, name: string)
    requires !w(h.clock).ok || pf !in h.totals
    ensures NeverResets(w, h, h.clock, pf, name)
    ensures var r := ResetVlan(w, h, pf, name); r == Ran(h.(clock := r.h.clock), Fail)
  {
    hide Locate, Find, LocatedAt;
    CountsVfs(w, h, pf);
    hide Exec;
  }

  lemma NoOtherReset(w: World, h: State, pf: string, name: string, m: nat)
    requires pf in h.totals && LocatedAt(w, h, pf, name, h.clock + 1, 0, h.totals[pf], m)
    ensures ResetsVlan(w, h, h.clock, pf, name, m) || NeverResets(w, h, h.clock, pf, name)
  {
    OnlyStop(w, h, pf, name, h.clock + 1, h.totals[pf], m);
    hide LocatedAt, Find;
  }

  lemma SameLocated(w: World, h: State, t: State)
    requires SameButClock(t, h)
    ensures forall pf, name, c, u, total, v: nat ::
              LocatedAt(w, t, pf, name, c, u, total, v) <==> LocatedAt(w, h, pf, name, c, u, total, v)
    ensures forall pf, name, c, v :: ResetsVlan(w, t, c, pf, name, v) <==> ResetsVlan(w, h, c, pf, name, v)
  {
    SameNetDirs(h, t);
    forall pf, name, c, u, k ensures Absentee(w, t, pf, name, c, u, k) <==> Absentee(w, h, pf, name, c, u, k) {
    }
    hide NetDir, Absentee;
    forall pf, name, c, u, total, v: nat
      ensures LocatedAt(w, t, pf, name, c, u, total, v) <==> LocatedAt(w, h, pf, name, c, u, total, v)
    {
    }
    hide LocatedAt;
  }

  lemma OnlyStop(w: World, h: State, pf: string, name: string, c: nat, total: int, m: nat)
    requires LocatedAt(w, h, pf, name, c, 0, total, m)
    ensures forall n: nat :: LocatedAt(w, h, pf, name, c, 0, total, n) ==> n == m
  {
    hide Absentee;
    forall n: nat | LocatedAt(w, h, pf, name, c, 0, total, n) ensures n == m {
    }
  }

  lemma CountsVfs(w: World, h: State, pf: string)
    ensures Exec(w, h, NumVfs(pf)) ==
            Ran(h.(clock := h.clock + 1), if w(h.clock).ok && pf in h.totals then Num(h.totals[pf]) else Fail)
  {
  }

  lemma MasterAndVlan(w: World, h: State, pf: string, v: nat)
    ensures var id := VfId(pf, v);
            var l := Exec(w, h, LinkByName(Init, pf));
            && l.h == h.(clock := h.clock + 1) && (l.r.Index? <==> w(h.clock).ok && Find(h.links, Init, pf).Some?)
            && Exec(w, l.h, SetVlan(id, 0)) ==
               if w(h.clock + 1).ok && id in h.vfCfg
               then Ran(h.(clock := h.clock + 2, vfCfg := NoVlan(h.vfCfg, id)), Ok)
               else Ran(h.(clock := h.clock + 2), Fail)
  {
  }

  /** The vlan part of a release in any world: v is the number whose vlan is reset, if one is configured and one is. */
  ghost predicate VlanPart(w: World, h: State, vlan: int, pf: string, name: string, v: Option<nat>, r: Ran) {
    if vlan == 0 then v.None? && r == Ran(h, Ok)
    else match v
      case Some(n) =>
        && w(h.clock).ok && ResetsVlan(w, h, h.clock + 1, pf, name, n)
        && r == Ran(h.(clock := h.clock + n + 5, vfCfg := NoVlan(h.vfCfg, VfId(pf, n))), Ok)
      case None =>
        && (w(h.clock).ok ==> NeverResets(w, h, h.clock + 1, pf, name))
        && r == Ran(h.(clock := r.h.clock), Fail)
  }

  lemma VlanPartAny(w: World, h: State, vlan: int, pf: string, name: string) returns (v: Option<nat>)
    ensures VlanPart(w, h, vlan, pf, name, v, MaybeResetVlan(w, h, vlan, pf, name))
  {
    hide ResetVlan, Exec, LocatedAt, Find;
    v := None;
    if vlan != 0 {
      ProbesIt(w, h);
      var e := h.(clock := h.clock + 1);
      if w(h.clock).ok {
        v := ResetVlanAny(w, e, pf, name);
        SameLocated(w, h, e);
      }
    }
  }

  /** The rates part in any world. */
  lemma RatesAny(w: World, h: State, id: VfId)
    ensures var c := h.clock;
            ResetRates(w, h, id) ==
            if w(c).ok && w(c + 1).ok then Ran(h.(clock := c + 2, vfCfg := NoRates(h.vfCfg, id)), Ok)
            else Ran(h.(clock := c + if w(c).ok then 2 else 1), Fail)
  {
  }

  // ----- the way back -----

  /** The record is there and read, the link is in the pod, and the seven calls that bring it back work. */
  ghost predicate ComesBack(w: World, h: State, c: nat, cid: string, pod: nat, name: string) {
    && Key(cid, name) in h.store && w(c).ok && Find(h.links, Pod(pod), name).Some? && AllWork(w, c + 2, c + 9)
  }

  /** The host with the link z back and the record removed, if that call worked. */
  ghost function Returned(w: World, h: State, c: nat, cid: string, name: string, z: nat): State
    requires z in h.links
  {
    h.(clock := c + 9, links := h.links[z := Back(h.links[z], z)],
       store := if w(c + 1).ok then h.store - {Key(cid, name)} else h.store)
  }

  lemma BringsBackIt(w: World, h: State, pod: nat, name: string, i: nat)
    requires UniqueNames(h.links) && DevOk(h.links, Init) && DevOk(h.links, Pod(pod)) && At(h.links, i, Pod(pod), name)
    ensures var r := BringBack(w, h, pod, name);
            if AllWork(w, h.clock, h.clock + 5)
            then r == Ran(h.(clock := h.clock + 5, links := h.links[i := Back(h.links[i], i)]), Index(i))
            else r.r == Fail
  {
    hide Exec, Dev, Taken, Rename, UniqueNames, DevOk, AllWork;
    var c, l := h.clock, h.links[i];
    var down := h.links[i := l.(up := false)];
    var named := h.links[i := l.(up := false, name := Dev(i))];
    FiveCalls(w, c);
    FindsIt(w, h, Pod(pod), name, i);
    if w(c).ok {
      LowersIt(w, h.(clock := c + 1), i);
      if w(c + 1).ok {
        DevFree(h.links, down, i, pod);
        RenamesIt(w, h.(clock := c + 2, links := down), Pod(pod), name, Dev(i), i);
        assert down[i := down[i].(name := Dev(i))] == named;
        if w(c + 2).ok && w(c + 3).ok {
          DevFreeInInit(h.links, named, i);
          MovesIt(w, h.(clock := c + 4, links := named), i, Init);
          assert named[i := Back(l, i)] == h.links[i := Back(l, i)];
        }
      }
    }
  }

  lemma FiveCalls(w: World, c: nat)
    ensures AllWork(w, c, c + 5) <==> w(c).ok && w(c + 1).ok && w(c + 2).ok && w(c + 3).ok && w(c + 4).ok
    ensures AllWork(w, c, c + 7) <==> w(c).ok && w(c + 1).ok && AllWork(w, c + 2, c + 7)
  {
  }

  lemma BringsBackNone(w: World, h: State, pod: nat, name: string)
    requires Find(h.links, Pod(pod), name).None?
    ensures BringBack(w, h, pod, name) == Ran(h.(clock := h.clock + 1), Fail)
  {
  }

  /** Both releases up to the link's return, in any world. */
  lemma TakesBack(w: World, h: State, cid: string, pod: nat, name: string)
    requires Inv(h) && DevOk(h.links, Pod(pod))
    ensures var c := Consume(w, h, Key(cid, name));
            var b := EnterAndReturn(w, c.h, pod, name);
            if ComesBack(w, h, h.clock, cid, pod, name)
            then var z := Find(h.links, Pod(pod), name).value;
                 c.r.Data? && z in h.links && b == Ran(Returned(w, h, h.clock, cid, name, z), Index(z))
            else c.r.Data? ==> b.r == Fail
    ensures !Consume(w, h, Key(cid, name)).r.Data? ==> !ComesBack(w, h, h.clock, cid, pod, name)
  {
    hide Exec, Dev, Key, Consume, UniqueNames, DevOk, Wired, BringBack, Find, AllWork;
    var c, key := h.clock, Key(cid, name);
    FindIsAt(h.links, Pod(pod), name);
    if key !in h.store {
      ConsumeNothing(w, h, key);
    } else {
      Consumes(w, h, key);
      var s := Consume(w, h, key).h;
      ProbesIt(w, s);
      ProbesIt(w, s.(clock := c + 3));
      FiveCalls(w, c + 2);
      if Find(h.links, Pod(pod), name).Some? {
        BringsBackIt(w, s.(clock := c + 4), pod, name, Find(h.links, Pod(pod), name).value);
      } else {
        BringsBackNone(w, s.(clock := c + 4), pod, name);
      }
    }
  }

  // ----- the rollback's release -----

  /**
   releaseVF in any world: it succeeds exactly if the link comes back, the vlan is reset if one is configured, and the
   rates are if a number is given; each part is left undone if an earlier one fails.
   */
  lemma ReleaseAny(w: World, h: State, a: Args, pod: nat, name: string, pf: string, vf: Option<nat>)
    returns (v: Option<nat>)
    requires Inv(h) && DevOk(h.links, Pod(pod))
    ensures var r := Release(w, h, a, pod, name, pf, vf);
            var c := h.clock;
            if !ComesBack(w, h, c, a.cid, pod, name) then r.r == Fail && r.h.vfCfg == h.vfCfg
            else
              var z := Find(h.links, Pod(pod), name).value;
              z in h.links && ReleasesFrom(w, Returned(w, h, c, a.cid, name, z), a.vlan, pf, Dev(z), vf, v, r)
  {
    hide MaybeResetVlan, ResetRates, EnterAndReturn, Consume, Key, Dev, Inv, DevOk, Find, Returned, AllWork, ResetsVlan;
    v := None;
    TakesBack(w, h, a.cid, pod, name);
    CfgStays(w, h, a.cid, pod, name);
    hide Exec;
    if ComesBack(w, h, h.clock, a.cid, pod, name) {
      var z := Find(h.links, Pod(pod), name).value;
      var b := Returned(w, h, h.clock, a.cid, name, z);
      v := VlanPartAny(w, b, a.vlan, pf, Dev(z));
      var m := MaybeResetVlan(w, b, a.vlan, pf, Dev(z));
      RatesAny(w, m.h, VfId(pf, if vf.Some? then vf.value else 0));
      assert VlanPart(w, b, a.vlan, pf, Dev(z), v, m);
    }
  }

  /** What follows once the link is back on host b. */
  ghost predicate ReleasesFrom(w: World, b: State, vlan: int, pf: string, dev: string, vf: Option<nat>, v: Option<nat>,
                               r: Ran) {
    exists m: Ran ::
      && VlanPart(w, b, vlan, pf, dev, v, m)
      && if !m.r.Ok? then r.r == Fail && r.h.vfCfg == b.vfCfg
         else if vf.None? then r == Ran(m.h, Ok)
         else
           var c := m.h.clock;
           var done := w(c).ok && w(c + 1).ok;
           && r.r == (if done then Ok else Fail)
           && r.h.vfCfg == if done then NoRates(m.h.vfCfg, VfId(pf, vf.value)) else m.h.vfCfg
  }

  lemma CfgStays(w: World, h: State, cid: string, pod: nat, name: string)
    ensures var c := Consume(w, h, Key(cid, name));
            c.h.vfCfg == h.vfCfg && EnterAndReturn(w, c.h, pod, name).h.vfCfg == h.vfCfg
  {
    hide BringBack, Key;
    var c := Consume(w, h, Key(cid, name)).h;
    var e := Exec(w, Exec(w, c, Probe).h, Probe).h;
    hide Exec;
    BackCfg(w, e, pod, name);
    CallsCfg(w, h, ReadFile(Key(cid, name)));
    CallsCfg(w, Exec(w, h, ReadFile(Key(cid, name))).h, RemoveFile(Key(cid, name)));
    CallsCfg(w, c, Probe);
    CallsCfg(w, Exec(w, c, Probe).h, Probe);
  }

  lemma CallsCfg(w: World, h: State, op: Op)
    requires !op.SetRates? && !op.SetVlan?
    ensures Exec(w, h, op).h.vfCfg == h.vfCfg
  {
  }

  lemma BackCfg(w: World, h: State, pod: nat, name: string)
    ensures BringBack(w, h, pod, name).h.vfCfg == h.vfCfg
  {
    hide Exec, Dev;
    CallsCfg(w, h, LinkByName(Pod(pod), name));
    var l := Exec(w, h, LinkByName(Pod(pod), name));
    if l.r.Index? {
      var i := l.r.index;
      CallsCfg(w, l.h, SetDown(i));
      var d := Exec(w, l.h, SetDown(i)).h;
      CallsCfg(w, d, LinkByName(Pod(pod), name));
      var f := Exec(w, d, LinkByName(Pod(pod), name));
      if f.r.Index? {
        CallsCfg(w, f.h, SetName(f.r.index, Dev(i)));
        CallsCfg(w, Exec(w, f.h, SetName(f.r.index, Dev(i))).h, SetNs(i, Init));
      }
    }
  }

  // ----- DEL's release -----

  /** What follows in DEL's release once the link is back on host b; found is the VF with the link's address. */
  ghost predicate FreesFrom(w: World, b: State, vlan: int, found: Option<VfId>, dev: string, v: Option<nat>,
                            r: DelOut) {
    exists m: Ran ::
      && VlanPart(w, b, vlan, if found.Some? then found.value.pf else "", dev, v, m)
      && if !m.r.Ok? then r.exit == Done(false) && r.h.vfCfg == b.vfCfg
         else
           var c := m.h.clock;
           var done := w(c).ok && w(c + 1).ok;
           if found.None? then r.exit == (if w(c).ok then Crashed else Done(false)) && r.h.vfCfg == m.h.vfCfg
           else r.exit == Done(done) && r.h.vfCfg == if done then NoRates(m.h.vfCfg, found.value) else m.h.vfCfg
  }

  /**
   releaseVFCustom in any world: it succeeds exactly if the link comes back, the vlan is reset if one is configured, and
   the rates are; it panics exactly if the address is unknown when it comes to the rates.
   */
  lemma ReleaseCustomAny(w: World, h: State, a: Args, pod: nat, ifc: Iface, pfs: seq<PfInfo>) returns (v: Option<nat>)
    requires Inv(h) && DevOk(h.links, Pod(pod))
    ensures var r := ReleaseCustom(w, h, a, pod, ifc, pfs);
            var c := h.clock;
            if !w(c).ok || !ComesBack(w, h, c + 1, a.cid, pod, ifc.name)
            then r.exit == Done(false) && r.h.vfCfg == h.vfCfg
            else
              var z := Find(h.links, Pod(pod), ifc.name).value;
              && z in h.links
              && FreesFrom(w, Returned(w, h, c + 1, a.cid, ifc.name, z), a.vlan, FindMac(pfs, ifc.mac), Dev(z), v, r)
  {
    hide FreeVf, EnterAndReturn, Consume, Key, Dev, Inv, DevOk, Find, Returned, AllWork, FreesFrom, FindMac;
    v := None;
    ProbesIt(w, h);
    var o := h.(clock := h.clock + 1);
    SameInv(h, o, pod);
    hide Exec;
    if w(h.clock).ok {
      TakesBack(w, o, a.cid, pod, ifc.name);
      CfgStays(w, o, a.cid, pod, ifc.name);
      if ComesBack(w, o, o.clock, a.cid, pod, ifc.name) {
        var z := Find(h.links, Pod(pod), ifc.name).value;
        assert Returned(w, o, o.clock, a.cid, ifc.name, z) == Returned(w, h, o.clock, a.cid, ifc.name, z) by {
          SameReturned(w, h, o, a.cid, ifc.name, z);
        }
        v := FreeVfAny(w, Returned(w, o, o.clock, a.cid, ifc.name, z), a.vlan, FindMac(pfs, ifc.mac), Dev(z));
      }
    }
  }

  lemma SameReturned(w: World, h: State, o: State, cid: string, name: string, z: nat)
    requires SameButClock(o, h) && z in h.links
    ensures Returned(w, o, o.clock, cid, name, z) == Returned(w, h, o.clock, cid, name, z)
  {
  }

  lemma FreeVfAny(w: World, b: State, vlan: int, found: Option<VfId>, dev: string) returns (v: Option<nat>)
    ensures FreesFrom(w, b, vlan, found, dev, v, FreeVf(w, b, vlan, found, dev))
  {
    hide MaybeResetVlan, ResetRates, ResetsVlan;
    var pf := if found.Some? then found.value.pf else "";
    v := VlanPartAny(w, b, vlan, pf, dev);
    var m := MaybeResetVlan(w, b, vlan, pf, dev);
    RatesAny(w, m.h, if found.Some? then found.value else VfId("", 0));
    ProbesIt(w, m.h);
    hide Exec;
    assert VlanPart(w, b, vlan, pf, dev, v, m);
  }

  // ----- DEL -----

  /** The lease is dropped, if DEL is to do that. */
  ghost predicate LeaseGone(w: World, h: State, a: Args) {
    a.ipam ==> w(h.clock).ok
  }

  /** The interfaces of the pod are listed. */
  ghost predicate PodListed(w: World, h: State, a: Args, pod: nat) {
    w(ListTime(h, a)).ok && Enumerates(h.links, Pod(pod), w(ListTime(h, a)).order)
  }

  lemma {:induction false} LoopEnds(w: World, h: State, a: Args, pod: nat, ifaces: seq<Iface>, pfs: seq<PfInfo>)
    ensures DelLoop(w, h, a, pod, ifaces, pfs).exit != Done(false)
    decreases |ifaces|
  {
    hide ReleaseCustom, IsEthName;
    if ifaces != [] {
      if !IsEthName(ifaces[0].name) {
        LoopEnds(w, h, a, pod, ifaces[1..], pfs);
      } else if !ReleaseCustom(w, h, a, pod, ifaces[0], pfs).exit.Crashed? {
        LoopEnds(w, ReleaseCustom(w, h, a, pod, ifaces[0], pfs).h, a, pod, ifaces[1..], pfs);
      }
    }
  }

  /** What DEL has in hand when its loop starts, in any world: the table is empty if the query fails. */
  ghost function TableAt(w: World, h: State, a: Args): seq<PfInfo> {
    var c := ListTime(h, a) + 1;
    if w(c).ok then w(c).table else []
  }

  lemma AsksInDel(w: World, h: State, a: Args, pod: nat)
    ensures Exec(w, h, IpamDel) == Ran(h.(clock := h.clock + 1), if w(h.clock).ok then Ok else Fail)
    ensures var l := h.(clock := ListTime(h, a));
            && (PodListed(w, h, a, pod) ==>
                  Exec(w, l, ListNs(Pod(pod))) ==
                  Ran(h.(clock := l.clock + 1), Ifaces(Listing(h.links, w(l.clock).order))))
            && (!PodListed(w, h, a, pod) ==> Exec(w, l, ListNs(Pod(pod))).r == Fail)
            && Exec(w, h.(clock := l.clock + 1), Query) ==
               Ran(h.(clock := l.clock + 2), if w(l.clock + 1).ok then Table(w(l.clock + 1).table) else Fail)
  {
  }

  /**
   DEL fails exactly if the lease call or the listing does, in any world: without a namespace there is nothing to list,
   and what becomes of a release or of the query for the addresses is not reported.
   */
  lemma DelExit(w: World, h: State, a: Args)
    ensures Del(w, h, a).exit == Done(false) <==>
            !LeaseGone(w, h, a) || (a.ns.Some? && !PodListed(w, h, a, a.ns.value))
    ensures LeaseGone(w, h, a) && a.ns.None? ==> Del(w, h, a).exit == Done(true)
    ensures LeaseGone(w, h, a) && a.ns.Some? && PodListed(w, h, a, a.ns.value) ==>
              Del(w, h, a).exit ==
              DelLoop(w, h.(clock := ListTime(h, a) + 2), a, a.ns.value, Listing(h.links, w(ListTime(h, a)).order),
                      TableAt(w, h, a)).exit
  {
    hide DelLoop, Enumerates, Listing, Find, NetDir, Taken;
    var pod := if a.ns.Some? then a.ns.value else 0;
    AsksInDel(w, h, a, pod);
    hide Exec;
    if LeaseGone(w, h, a) && a.ns.Some? && PodListed(w, h, a, pod) {
      AllListed(h.links, pod, w(ListTime(h, a)).order);
      LoopEnds(w, h.(clock := ListTime(h, a) + 2), a, pod, Listing(h.links, w(ListTime(h, a)).order), TableAt(w, h, a));
    }
  }

  // ----- when DEL panics -----

  /** Between the start of a release at moment s and the rates all calls work but, perhaps, the removal. */
  ghost predicate PanicCalls(w: World, s: nat) {
    w(s).ok && w(s + 1).ok && AllWork(w, s + 3, s + 11)
  }

  /** The release of link i, started then, panics. */
  ghost predicate PanicsAt(w: World, h: State, a: Args, pod: nat, pfs: seq<PfInfo>, i: nat, start: Option<nat>) {
    && a.vlan == 0 && Reclaimable(h, pod, a.cid, i) && FindMac(pfs, h.links[i].mac).None?
    && start.Some? && PanicCalls(w, start.value)
  }

  /** With a vlan the reset for an unknown address asks for a physical function without a name. */
  ghost predicate NoUnnamed(h: State, a: Args) {
    a.vlan != 0 ==> "" !in h.totals
  }

  lemma OnePanics(w: World, h: State, a: Args, pod: nat, i: nat, pfs: seq<PfInfo>)
    requires Inv(h) && DevOk(h.links, Pod(pod)) && NoUnnamed(h, a)
    requires i in h.links && h.links[i].ns == Pod(pod) && IsEthName(h.links[i].name)
    ensures ReleaseCustom(w, h, a, pod, Iface(h.links[i].name, h.links[i].mac), pfs).exit.Crashed? <==>
            PanicsAt(w, h, a, pod, pfs, i, Some(h.clock))
  {
    hide ReleaseCustom, Key, IsEthName, FindMac, Find, ResetsVlan, Dev, DevOk, Wired, UniqueNames;
    FindUnique(h.links, i, Pod(pod), h.links[i].name);
    var v := ReleaseCustomAny(w, h, a, pod, Iface(h.links[i].name, h.links[i].mac), pfs);
    ElevenCalls(w, h.clock);
    NoVlanOfNone(w, h, a, h.links[i].name, i);
  }

  lemma ElevenCalls(w: World, s: nat)
    ensures AllWork(w, s + 3, s + 11) <==> AllWork(w, s + 3, s + 10) && w(s + 10).ok
  {
  }

  lemma NoVlanOfNone(w: World, h: State, a: Args, name: string, z: nat)
    requires NoUnnamed(h, a) && z in h.links
    ensures var b := Returned(w, h, h.clock + 1, a.cid, name, z);
            forall v, m :: a.vlan != 0 && VlanPart(w, b, a.vlan, "", Dev(z), v, m) ==> !m.r.Ok?
  {
  }

  /** The rest of the loop after the release of another link. */
  lemma LoopGoesOn(w: World, h: State, a: Args, pod: nat, order: seq<nat>, pfs: seq<PfInfo>)
    requires Inv(h) && DevOk(h.links, Pod(pod)) && Listed(h.links, pod, order)
    requires order != [] && IsEthName(h.links[order[0]].name)
    ensures var t := ReleaseCustom(w, h, a, pod, Listing(h.links, order)[0], pfs).h;
            && Inv(t) && DevOk(t.links, Pod(pod)) && Listed(t.links, pod, order[1..]) && t.totals == h.totals
            && Listing(h.links, order)[1..] == Listing(t.links, order[1..])
            && forall k | 0 < k < |order| ::
                 && t.links[order[k]] == h.links[order[k]]
                 && (Reclaimable(t, pod, a.cid, order[k]) <==> Reclaimable(h, pod, a.cid, order[k]))
  {
    hide Exec, ReleaseCustom, IsEthName, Key, Dev, UniqueNames, Wired, DevOk, LinksEvolve, StoreEvolves;
    var ifc := Listing(h.links, order)[0];
    ReleaseCustomKept(w, h, a, pod, ifc, pfs);
    NamesApart(h.links, pod, order[0]);
    var t := ReleaseCustom(w, h, a, pod, ifc, pfs).h;
    forall k | 0 < k < |order|
      ensures order[k] in t.links && t.links[order[k]] == h.links[order[k]]
      ensures Reclaimable(t, pod, a.cid, order[k]) <==> Reclaimable(h, pod, a.cid, order[k])
    {
      ReleaseSpares(w, h, a, pod, ifc, pfs, order[k]);
      if Reclaimable(h, pod, a.cid, order[k]) {
        OtherRecord(h, pod, a.cid, order[k], order[0]);
      }
    }
    ListingTail(h.links, t.links, order);
  }

  ghost predicate SomePanics(w: World, h: State, a: Args, pod: nat, order: seq<nat>, pfs: seq<PfInfo>)
    requires Listed(h.links, pod, order)
  {
    exists i :: i in order && PanicsAt(w, h, a, pod, pfs, i,
                                       StartOf(w, h, a, pod, Listing(h.links, order), pfs, h.links[i].name))
  }

  /** The loop panics, in any world, exactly if the release of one of the links does, from the moment it starts. */
  lemma {:induction false} LoopCrashes(w: World, h: State, a: Args, pod: nat, order: seq<nat>, pfs: seq<PfInfo>)
    requires Inv(h) && DevOk(h.links, Pod(pod)) && Listed(h.links, pod, order) && NoUnnamed(h, a)
    ensures DelLoop(w, h, a, pod, Listing(h.links, order), pfs).exit.Crashed? <==>
            SomePanics(w, h, a, pod, order, pfs)
    decreases |order|
  {
    hide Exec, ReleaseCustom, IsEthName, Key, UniqueNames, Wired, DevOk, PanicCalls, FindMac;
    if order != [] {
      var ifaces, j := Listing(h.links, order), order[0];
      if !IsEthName(ifaces[0].name) {
        ListingTail(h.links, h.links, order);
        LoopCrashes(w, h, a, pod, order[1..], pfs);
        SkipsOne(w, h, h, a, pod, order, pfs);
      } else {
        OnePanics(w, h, a, pod, j, pfs);
        var r := ReleaseCustom(w, h, a, pod, ifaces[0], pfs);
        LoopGoesOn(w, h, a, pod, order, pfs);
        if r.exit.Crashed? {
          assert j in order;
        } else {
          LoopCrashes(w, r.h, a, pod, order[1..], pfs);
          SkipsOne(w, h, r.h, a, pod, order, pfs);
        }
      }
    }
  }

  lemma SkipsOne(w: World, h: State, t: State, a: Args, pod: nat, order: seq<nat>, pfs: seq<PfInfo>)
    requires UniqueNames(h.links) && Listed(h.links, pod, order) && order != [] && Listed(t.links, pod, order[1..])
    requires Listing(h.links, order)[1..] == Listing(t.links, order[1..])
    requires forall k | 0 < k < |order| ::
               && t.links[order[k]] == h.links[order[k]]
               && (Reclaimable(t, pod, a.cid, order[k]) <==> Reclaimable(h, pod, a.cid, order[k]))
    requires var ifc := Listing(h.links, order)[0];
             if !IsEthName(ifc.name) then t == h
             else t == ReleaseCustom(w, h, a, pod, ifc, pfs).h
                  && !ReleaseCustom(w, h, a, pod, ifc, pfs).exit.Crashed?
                  && !PanicsAt(w, h, a, pod, pfs, order[0], Some(h.clock))
    ensures SomePanics(w, h, a, pod, order, pfs) <==> SomePanics(w, t, a, pod, order[1..], pfs)
  {
    hide ReleaseCustom, IsEthName, Key, PanicCalls, FindMac, UniqueNames;
    var ifaces := Listing(h.links, order);
    NamesApart(h.links, pod, order[0]);
    forall i | i in order[1..]
      ensures StartOf(w, h, a, pod, ifaces, pfs, h.links[i].name) ==
              StartOf(w, t, a, pod, ifaces[1..], pfs, h.links[i].name)
      ensures i in order && i in t.links && t.links[i] == h.links[i]
      ensures Reclaimable(t, pod, a.cid, i) <==> Reclaimable(h, pod, a.cid, i)
    {
      var k :| 0 <= k < |order[1..]| && order[1..][k] == i;
      assert order[k + 1] == i && At(h.links, i, Pod(pod), h.links[i].name);
    }
    forall i | i in order ensures i == order[0] || i in order[1..] {
      var k :| 0 <= k < |order| && order[k] == i;
      assert k > 0 ==> order[1..][k - 1] == i;
    }
  }

  /** DEL panics, in any world, exactly if the release of one of the links it could take back does. */
  lemma DelCrashes(w: World, h: State, a: Args, pod: nat)
    requires Inv(h) && a.ns == Some(pod) && DevOk(h.links, Pod(pod)) && NoUnnamed(h, a)
    ensures Del(w, h, a).exit.Crashed? <==>
            exists i :: PanicsAt(w, h, a, pod, TableAt(w, h, a), i,
                                 if i in h.links then ReleaseMoment(w, h, a, pod, h.links[i].name) else None)
  {
    hide DelLoop, Exec, Inv, DevOk, IsEthName, Key, PanicCalls, FindMac, StartOf;
    DelExit(w, h, a);
    AsksInDel(w, h, a, pod);
    if LeaseGone(w, h, a) && PodListed(w, h, a, pod) {
      var order := w(ListTime(h, a)).order;
      var t := h.(clock := ListTime(h, a) + 2);
      SameInv(h, t, pod);
      AllListed(h.links, pod, order);
      LoopCrashes(w, t, a, pod, order, TableAt(w, h, a));
    }
  }

  lemma AllListed(links: Links, pod: nat, order: seq<nat>)
    requires Enumerates(links, Pod(pod), order)
    ensures Listed(links, pod, order) && forall i | i in links && links[i].ns == Pod(pod) :: i in order
    ensures forall i | i in order :: i in links
  {
  }
}
