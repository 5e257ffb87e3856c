/**
 ADD and DEL one call at a time. A program is either over or about to make one call, and what it does
 next depends on the reply: this is what a process holds between two of its calls, so that processes can
 be interleaved. The lemmas say that running a program alone, up to its unlock, has exactly the effect
 the specification functions give it.
 */
module Programs {
  import opened Text
  import opened Host
  import opened Lifecycle

  /** Finished: the command returned. Died: log.Fatal or a panic, the deferred closures did not run. */
  datatype Outcome = Finished | Died

  datatype Prog = Exit(out: Outcome) | Do(op: Op, k: Reply -> Prog)

  // ----- the programs -----

  function RenameP(ns: Ns, cur: string, name: string, k: Reply -> Prog): Prog {
    Do(LinkByName(ns, cur), (l: Reply) =>
      if !l.Index? then k(Fail) else Do(SetName(l.index, name), k))
  }

  function ScanP(pf: string, v: nat, total: int, rates: Rates, k: (Option<nat>, seq<string>, bool) -> Prog): Prog
    decreases total - v
  {
    if v >= total then k(Some(0), [], false)
    else
      Do(Lstat(VfId(pf, v)), (s: Reply) =>
        if !s.Ok? then
          if v == total - 1 then k(None, [], false) else ScanP(pf, v + 1, total, rates, k)
        else
          Do(ReadDir(VfId(pf, v)), (d: Reply) =>
            if !d.Names? then k(None, [], false)
            else if d.names == [] then
              if v == total - 1 then k(None, [], false) else ScanP(pf, v + 1, total, rates, k)
            else if |d.names| > 2 then k(None, [], false)
            else
              Do(PciAddr(VfId(pf, v)), (p: Reply) =>
                if !p.Ok? then k(None, [], false)
                else Do(SetRates(VfId(pf, v), rates), (r: Reply) => k(Some(v), d.names, r.Ok?)))))
  }

  function HandRestP(a: Args, pod: nat, i: nat, vfName: string, podIf: string, vf: nat, k: Reply -> Prog): Prog {
    Do(SetUp(i), (up: Reply) =>
      if !up.Ok? then k(Fail)
      else Do(SetNs(i, Pod(pod)), (mv: Reply) =>
        if !mv.Ok? then k(Fail)
        else Do(Probe, (en: Reply) =>
          if !en.Ok? then k(Fail)
          else RenameP(Pod(pod), vfName, podIf, (fin: Reply) =>
            if !fin.Ok? then k(Fail)
            else Do(WriteFile(Key(a.cid, podIf), Record(podIf, vf, a.vlan)), k)))))
  }

  function HandP(a: Args, pod: nat, name: string, podIf: string, vf: nat, k: Reply -> Prog): Prog {
    Do(LinkByName(Init, name), (l: Reply) =>
      if !l.Index? then k(Fail)
      else if name != "eth0" then HandRestP(a, pod, l.index, name, podIf, vf, k)
      else Do(SetDown(l.index), (d: Reply) =>
        Do(Random, (n: Reply) =>
          var vfName := Sriov(if n.Index? then n.index else 0);
          RenameP(Init, name, vfName, (r: Reply) => HandRestP(a, pod, l.index, vfName, podIf, vf, k)))))
  }

  function SetupP(a: Args, pod: nat, pf: string, podIf: string, rates: Rates, k: (Option<nat>, bool) -> Prog): Prog {
    Do(LinkByName(Init, pf), (m: Reply) =>
      if !m.Index? then k(None, false)
      else Do(NumVfs(pf), (t: Reply) =>
        if !t.Num? then k(None, false)
        else ScanP(pf, 0, t.num, rates, (vf: Option<nat>, names: seq<string>, ok: bool) =>
          if !ok || vf.None? || |names| != 1 then k(vf, false)
          else if a.vlan == 0 then HandP(a, pod, names[0], podIf, vf.value, (b: Reply) => k(vf, b.Ok?))
          else Do(SetVlan(VfId(pf, vf.value), a.vlan), (c: Reply) =>
            if !c.Ok? then k(vf, false)
            else HandP(a, pod, names[0], podIf, vf.value, (b: Reply) => k(vf, b.Ok?))))))
  }

  function BringBackP(pod: nat, ifName: string, k: Reply -> Prog): Prog {
    Do(LinkByName(Pod(pod), ifName), (l: Reply) =>
      if !l.Index? then k(Fail)
      else Do(SetDown(l.index), (d: Reply) =>
        if !d.Ok? then k(Fail)
        else RenameP(Pod(pod), ifName, Dev(l.index), (n: Reply) =>
          if !n.Ok? then k(Fail)
          else Do(SetNs(l.index, Init), (m: Reply) => k(if m.Ok? then Index(l.index) else Fail)))))
  }

  function LocateP(pf: string, v: nat, total: int, name: string, k: Reply -> Prog): Prog
    decreases total - v
  {
    if v >= total then k(Fail)
    else Do(StatLink(VfId(pf, v), name), (s: Reply) =>
      if s.Absent? then LocateP(pf, v + 1, total, name, k) else k(Num(v)))
  }

  function ResetVlanP(pf: string, name: string, k: Reply -> Prog): Prog {
    Do(NumVfs(pf), (t: Reply) =>
      if !t.Num? then k(Fail)
      else LocateP(pf, 0, t.num, name, (v: Reply) =>
        if !v.Num? || v.num < 0 then k(Fail)
        else Do(LinkByName(Init, pf), (l: Reply) =>
          if !l.Index? then k(Fail) else Do(SetVlan(VfId(pf, v.num), 0), k))))
  }

  function MaybeResetVlanP(vlan: int, pf: string, name: string, k: Reply -> Prog): Prog {
    if vlan == 0 then k(Ok)
    else Do(Probe, (e: Reply) => if !e.Ok? then k(Fail) else ResetVlanP(pf, name, k))
  }

  function ResetRatesP(id: VfId, k: Reply -> Prog): Prog {
    Do(Probe, (e: Reply) => if !e.Ok? then k(Fail) else Do(SetRates(id, Rates(0, 0)), k))
  }

  /** The two namespace calls and the return of the link, common to both releases. */
  function EnterAndReturnP(pod: nat, ifName: string, k: Reply -> Prog): Prog {
    Do(Probe, (g: Reply) =>
      if !g.Ok? then k(Fail)
      else Do(Probe, (e: Reply) => if !e.Ok? then k(Fail) else BringBackP(pod, ifName, k)))
  }

  function ReleaseP(a: Args, pod: nat, podIf: string, pf: string, vf: Option<nat>, k: Reply -> Prog): Prog {
    Do(ReadFile(Key(a.cid, podIf)), (c: Reply) => Do(RemoveFile(Key(a.cid, podIf)), (rm: Reply) =>
      if !c.Data? then k(Fail)
      else EnterAndReturnP(pod, podIf, (b: Reply) =>
        if !b.Index? then k(Fail)
        else MaybeResetVlanP(a.vlan, pf, Dev(b.index), (v: Reply) =>
          if !v.Ok? then k(Fail)
          else if vf.None? then k(Ok)
          else ResetRatesP(VfId(pf, vf.value), k)))))
  }

  function FreeVfP(vlan: int, found: Option<VfId>, dev: string, k: DelExit -> Prog): Prog {
    MaybeResetVlanP(vlan, if found.Some? then found.value.pf else "", dev, (v: Reply) =>
      if !v.Ok? then k(Done(false))
      else if found.None? then Do(Probe, (p: Reply) => k(if p.Ok? then Crashed else Done(false)))
      else ResetRatesP(found.value, (r: Reply) => k(Done(r.Ok?))))
  }

  function ReleaseCustomP(a: Args, pod: nat, ifc: Iface, pfs: seq<PfInfo>, k: DelExit -> Prog): Prog {
    Do(Probe, (o: Reply) =>
      if !o.Ok? then k(Done(false))
      else Do(ReadFile(Key(a.cid, ifc.name)), (c: Reply) => Do(RemoveFile(Key(a.cid, ifc.name)), (rm: Reply) =>
        if !c.Data? then k(Done(false))
        else EnterAndReturnP(pod, ifc.name, (b: Reply) =>
          if !b.Index? then k(Done(false))
          else FreeVfP(a.vlan, FindMac(pfs, ifc.mac), Dev(b.index), k)))))
  }

  function DelLoopP(a: Args, pod: nat, ifaces: seq<Iface>, pfs: seq<PfInfo>, k: DelExit -> Prog): Prog
    decreases |ifaces|
  {
    if ifaces == [] then k(Done(true))
    else if !IsEthName(ifaces[0].name) then DelLoopP(a, pod, ifaces[1..], pfs, k)
    else ReleaseCustomP(a, pod, ifaces[0], pfs, (x: DelExit) =>
      if x.Crashed? then k(x) else DelLoopP(a, pod, ifaces[1..], pfs, k))
  }

  /** The deferred unlock of cmdDel, or the end of a process that panicked. */
  function DelEnd(x: DelExit): Prog {
    if x.Crashed? then Exit(Died) else Do(Unlock, (u: Reply) => Exit(Finished))
  }

  function DelRestP(a: Args): Prog {
    if a.ns.None? then DelEnd(Done(true))
    else Do(ListNs(Pod(a.ns.value)), (l: Reply) =>
      if !l.Ifaces? then DelEnd(Done(false))
      else Do(Query, (q: Reply) =>
        DelLoopP(a, a.ns.value, l.ifaces, if q.Table? then q.table else [], x => DelEnd(x))))
  }

  function DelP(a: Args): Prog {
    if !a.ipam then DelRestP(a)
    else Do(IpamDel, (d: Reply) => if !d.Ok? then DelEnd(Done(false)) else DelRestP(a))
  }

  function LookupP(pod: nat, name: string, k: Reply -> Prog): Prog {
    Do(Probe, (e: Reply) => if !e.Ok? then k(Fail) else Do(LinkByName(Pod(pod), name), k))
  }

  function ConfigureP(pod: nat, name: string, k: Reply -> Prog): Prog {
    LookupP(pod, name, (l: Reply) =>
      if !l.Index? then k(Fail)
      else Do(SetUp(l.index), (u: Reply) => if !u.Ok? then k(Fail) else Do(Probe, k)))
  }

  /** The deferred closures, last registered first; then the process ends. */
  function UnwindP(a: Args, pod: nat, stack: seq<Frame>, err: bool): Prog
    decreases |stack|
  {
    if stack == [] then Exit(Finished)
    else
      var rest := stack[..|stack| - 1];
      match stack[|stack| - 1]
      case UnlockFrame => Do(Unlock, (u: Reply) => UnwindP(a, pod, rest, err))
      case IpamFrame(i) =>
        if !err then UnwindP(a, pod, rest, err) else Do(IpamDel, (d: Reply) => UnwindP(a, pod, rest, err))
      case RollbackFrame(i, pf, vf) =>
        if !err then UnwindP(a, pod, rest, err)
        else LookupP(pod, Eth(i), (l: Reply) =>
          if !l.Index? then UnwindP(a, pod, rest, true)
          else ReleaseP(a, pod, Eth(i), pf, vf, (r: Reply) => UnwindP(a, pod, rest, false)))
  }

  /** One turn of the placement loop; the continuation gets how it ended and the closures it registered. */
  function PlaceOneP(a: Args, pod: nat, i: nat, pf: string, rates: Rates, k: (Stop, seq<Frame>) -> Prog): Prog {
    SetupP(a, pod, pf, Eth(i), rates, (vf: Option<nat>, ok: bool) =>
      var back := [RollbackFrame(i, pf, vf)];
      if !ok then k(SetupFailed, back)
      else Do(IpamAdd, (r: Reply) =>
        if !r.Answer? then k(IpamFailed, back)
        else if r.ip4.None? then k(NoIp4, back)
        else ConfigureP(pod, Eth(i), (c: Reply) =>
          k(if c.Ok? then Completed else ConfigFailed, back + [IpamFrame(i)]))))
  }

  /** The rest of the placement loop and what follows it, with the closures registered so far. */
  function PlaceFromP(a: Args, pod: nat, pfs: seq<PfInfo>, reqs: seq<Rates>, placed: seq<nat>, i: nat,
                      stack: seq<Frame>): Prog
    requires InBounds(placed, |reqs|, |pfs|) && i <= |placed|
    decreases |placed| - i
  {
    if i == |placed| then Do(Probe, (pr: Reply) => UnwindP(a, pod, stack, false))
    else PlaceOneP(a, pod, i, pfs[placed[i]].name, reqs[i], (stop: Stop, frames: seq<Frame>) =>
      if stop.Completed? then PlaceFromP(a, pod, pfs, reqs, placed, i + 1, stack + frames)
      else UnwindP(a, pod, stack + frames, ErrSet(stop)))
  }

  function AddPlacedP(a: Args, conf: bool, pfs: seq<PfInfo>, reqs: seq<Rates>, placed: seq<nat>): Prog
    requires InBounds(placed, |reqs|, |pfs|)
  {
    if !conf then UnwindP(a, 0, [UnlockFrame], false)
    else Do(Probe, (o: Reply) =>
      if !o.Ok? || a.ns.None? then UnwindP(a, 0, [UnlockFrame], false)
      else PlaceFromP(a, a.ns.value, pfs, reqs, placed, 0, [UnlockFrame]))
  }

  function AddP(a: Args, conf: bool): Prog {
    Do(PodInfo, (p: Reply) =>
      if !p.Requests? then Exit(Died)
      else Do(Query, (q: Reply) =>
        if !q.Table? then Exit(Died)
        else Do(Place(|p.requests|, |q.table|), (k: Reply) =>
          if !k.Placed? || !InBounds(k.placed, |p.requests|, |q.table|) then Exit(Died)
          else AddPlacedP(a, conf, q.table, p.requests, k.placed))))
  }

  // ----- running a program alone -----

  datatype Config = Config(p: Prog, h: State)

  /** One call inside the critical section; the unlock is not one of them. */
  ghost function Step(w: World, c: Config): Config {
    if c.p.Do? && !c.p.op.Unlock? then
      var e := Exec(w, c.h, c.p.op);
      Config(c.p.k(e.r), e.h)
    else c
  }

  ghost function Steps(w: World, c: Config, n: nat): Config
    decreases n
  {
    if n == 0 then c else Steps(w, Step(w, c), n - 1)
  }

  ghost predicate Reach(w: World, c: Config, d: Config) {
    exists n: nat :: Steps(w, c, n) == d
  }

  lemma {:induction false} StepsAdd(w: World, c: Config, m: nat, n: nat)
    ensures Steps(w, Steps(w, c, m), n) == Steps(w, c, m + n)
    decreases m
  {
    if m > 0 {
      StepsAdd(w, Step(w, c), m - 1, n);
    }
  }

  lemma Trans(w: World, a: Config, b: Config, c: Config)
    requires Reach(w, a, b) && Reach(w, b, c)
    ensures Reach(w, a, c)
  {
    var m: nat :| Steps(w, a, m) == b;
    var n: nat :| Steps(w, b, n) == c;
    StepsAdd(w, a, m, n);
  }

  lemma Here(w: World, a: Config)
    ensures Reach(w, a, a)
  {
    assert Steps(w, a, 0) == a;
  }

  /** One more step of a run from a. */
  lemma Go(w: World, a: Config, b: Config) returns (c: Config)
    requires Reach(w, a, b)
    ensures c == Step(w, b) && Reach(w, a, c)
  {
    c := Step(w, b);
    assert Steps(w, b, 1) == Steps(w, c, 0) == c;
    Trans(w, a, b, c);
  }

  // ----- each routine reaches its continuation with the effect of its specification -----

  lemma RenameRuns(w: World, h: State, ns: Ns, cur: string, name: string, k: Reply -> Prog)
    ensures var r := Rename(w, h, ns, cur, name);
            Reach(w, Config(RenameP(ns, cur, name, k), h), Config(k(r.r), r.h))
  {
    var s := Config(RenameP(ns, cur, name, k), h);
    Here(w, s);
    var c := Go(w, s, s);
    if c.p.Do? && Exec(w, h, LinkByName(ns, cur)).r.Index? {
      c := Go(w, s, c);
    }
  }

  lemma {:induction false} ScanRuns(w: World, h: State, pf: string, v: nat, total: int, rates: Rates,
                                    k: (Option<nat>, seq<string>, bool) -> Prog)
    ensures var s := Scan(w, h, pf, v, total, rates);
            Reach(w, Config(ScanP(pf, v, total, rates, k), h), Config(k(s.vf, s.names, s.ok), s.h))
    decreases total - v
  {
    var s := Config(ScanP(pf, v, total, rates, k), h);
    Here(w, s);
    if v < total {
      var out := Scan(w, h, pf, v, total, rates);
      var end := Config(k(out.vf, out.names, out.ok), out.h);
      var id := VfId(pf, v);
      var l := Exec(w, h, Lstat(id));
      var c := Go(w, s, s);
      if !l.r.Ok? {
        if v < total - 1 {
          ScanRuns(w, l.h, pf, v + 1, total, rates, k);
          Trans(w, s, c, end);
        }
      } else {
        var d := Exec(w, l.h, ReadDir(id));
        c := Go(w, s, c);
        if d.r.Names? && d.r.names == [] {
          if v < total - 1 {
            ScanRuns(w, d.h, pf, v + 1, total, rates, k);
            Trans(w, s, c, end);
          }
        } else if d.r.Names? && |d.r.names| <= 2 {
          var p := Exec(w, d.h, PciAddr(id));
          c := Go(w, s, c);
          if p.r.Ok? {
            c := Go(w, s, c);
          }
        }
      }
    }
  }

  lemma HandRestRuns(w: World, h: State, a: Args, pod: nat, i: nat, vfName: string, podIf: string, vf: nat,
                     k: Reply -> Prog)
    ensures var r := HandRest(w, h, a, pod, i, vfName, podIf, vf);
            Reach(w, Config(HandRestP(a, pod, i, vfName, podIf, vf, k), h), Config(k(r.r), r.h))
  {
    var s := Config(HandRestP(a, pod, i, vfName, podIf, vf, k), h);
    Here(w, s);
    var up := Exec(w, h, SetUp(i));
    var c := Go(w, s, s);
    if up.r.Ok? {
      var mv := Exec(w, up.h, SetNs(i, Pod(pod)));
      c := Go(w, s, c);
      if mv.r.Ok? {
        var en := Exec(w, mv.h, Probe);
        c := Go(w, s, c);
        if en.r.Ok? {
          var kk := (fin: Reply) =>
            if !fin.Ok? then k(Fail)
            else Do(WriteFile(Key(a.cid, podIf), Record(podIf, vf, a.vlan)), k);
          RenameRuns(w, en.h, Pod(pod), vfName, podIf, kk);
          var fin := Rename(w, en.h, Pod(pod), vfName, podIf);
          Trans(w, s, c, Config(kk(fin.r), fin.h));
          if fin.r.Ok? {
            c := Go(w, s, Config(kk(fin.r), fin.h));
          }
        }
      }
    }
  }

  lemma HandRuns(w: World, h: State, a: Args, pod: nat, name: string, podIf: string, vf: nat, k: Reply -> Prog)
    ensures var r := Hand(w, h, a, pod, name, podIf, vf);
            Reach(w, Config(HandP(a, pod, name, podIf, vf, k), h), Config(k(r.r), r.h))
  {
    var s := Config(HandP(a, pod, name, podIf, vf, k), h);
    Here(w, s);
    var l := Exec(w, h, LinkByName(Init, name));
    var c := Go(w, s, s);
    if l.r.Index? {
      var out := Hand(w, h, a, pod, name, podIf, vf);
      var end := Config(k(out.r), out.h);
      if name != "eth0" {
        HandRestRuns(w, l.h, a, pod, l.r.index, name, podIf, vf, k);
      } else {
        var d := Exec(w, l.h, SetDown(l.r.index));
        c := Go(w, s, c);
        var n := Exec(w, d.h, Random);
        c := Go(w, s, c);
        var vfName := Sriov(n.r.index);
        var l' := l.r;
        var kk := (r: Reply) => HandRestP(a, pod, l'.index, vfName, podIf, vf, k);
        RenameRuns(w, n.h, Init, name, vfName, kk);
        var ren := Rename(w, n.h, Init, name, vfName);
        Trans(w, s, c, Config(kk(ren.r), ren.h));
        HandRestRuns(w, ren.h, a, pod, l.r.index, vfName, podIf, vf, k);
        c := Config(kk(ren.r), ren.h);
      }
      Trans(w, s, c, end);
    }
  }

  lemma SetupRuns(w: World, h: State, a: Args, pod: nat, pf: string, podIf: string, rates: Rates,
                  k: (Option<nat>, bool) -> Prog)
    ensures var r := Setup(w, h, a, pod, pf, podIf, rates);
            Reach(w, Config(SetupP(a, pod, pf, podIf, rates, k), h), Config(k(r.vf, r.ok), r.h))
  {
    var s := Config(SetupP(a, pod, pf, podIf, rates, k), h);
    Here(w, s);
    var m := Exec(w, h, LinkByName(Init, pf));
    var c := Go(w, s, s);
    if m.r.Index? {
      var t := Exec(w, m.h, NumVfs(pf));
      c := Go(w, s, c);
      if t.r.Num? {
        var kk := (vf: Option<nat>, names: seq<string>, ok: bool) =>
          if !ok || vf.None? || |names| != 1 then k(vf, false)
          else if a.vlan == 0 then HandP(a, pod, names[0], podIf, vf.value, (b: Reply) => k(vf, b.Ok?))
          else Do(SetVlan(VfId(pf, vf.value), a.vlan), (c: Reply) =>
            if !c.Ok? then k(vf, false)
            else HandP(a, pod, names[0], podIf, vf.value, (b: Reply) => k(vf, b.Ok?)));
        ScanRuns(w, t.h, pf, 0, t.r.num, rates, kk);
        var z := Scan(w, t.h, pf, 0, t.r.num, rates);
        var c2 := Config(kk(z.vf, z.names, z.ok), z.h);
        Trans(w, s, c, c2);
        AfterScanRuns(w, z.h, a, pod, pf, podIf, z.vf, z.names, z.ok, k);
        var out := Setup(w, h, a, pod, pf, podIf, rates);
        Trans(w, s, c2, Config(k(out.vf, out.ok), out.h));
      }
    }
  }

  lemma AfterScanRuns(w: World, h: State, a: Args, pod: nat, pf: string, podIf: string,
                      vf: Option<nat>, names: seq<string>, ok: bool, k: (Option<nat>, bool) -> Prog)
    ensures var p := if !ok || vf.None? || |names| != 1 then k(vf, false)
              else if a.vlan == 0 then HandP(a, pod, names[0], podIf, vf.value, (b: Reply) => k(vf, b.Ok?))
              else Do(SetVlan(VfId(pf, vf.value), a.vlan), (c: Reply) =>
                if !c.Ok? then k(vf, false)
                else HandP(a, pod, names[0], podIf, vf.value, (b: Reply) => k(vf, b.Ok?)));
            var r := AfterScan(w, Scanned(h, vf, names, ok), a, pod, pf, podIf);
            Reach(w, Config(p, h), Config(k(r.vf, r.ok), r.h))
  {
    if !ok || vf.None? || |names| != 1 {
      Here(w, Config(k(vf, false), h));
    } else {
      var kb := (b: Reply) => k(vf, b.Ok?);
      if a.vlan == 0 {
        HandRuns(w, h, a, pod, names[0], podIf, vf.value, kb);
      } else {
        var s := Config(Do(SetVlan(VfId(pf, vf.value), a.vlan), (c: Reply) =>
                if !c.Ok? then k(vf, false)
                else HandP(a, pod, names[0], podIf, vf.value, (b: Reply) => k(vf, b.Ok?))), h);
        Here(w, s);
        var v := Exec(w, h, SetVlan(VfId(pf, vf.value), a.vlan));
        var c := Go(w, s, s);
        if v.r.Ok? {
          HandRuns(w, v.h, a, pod, names[0], podIf, vf.value, kb);
          var b := Hand(w, v.h, a, pod, names[0], podIf, vf.value);
          Trans(w, s, c, Config(kb(b.r), b.h));
        }
      }
    }
  }

  lemma BringBackRuns(w: World, h: State, pod: nat, ifName: string, k: Reply -> Prog)
    ensures var r := BringBack(w, h, pod, ifName);
            Reach(w, Config(BringBackP(pod, ifName, k), h), Config(k(r.r), r.h))
  {
    var s := Config(BringBackP(pod, ifName, k), h);
    Here(w, s);
    var l := Exec(w, h, LinkByName(Pod(pod), ifName));
    var c := Go(w, s, s);
    if l.r.Index? {
      var i := l.r;
      var d := Exec(w, l.h, SetDown(i.index));
      c := Go(w, s, c);
      if d.r.Ok? {
        var kk := (n: Reply) =>
          if !n.Ok? then k(Fail)
          else Do(SetNs(i.index, Init), (m: Reply) => k(if m.Ok? then Index(i.index) else Fail));
        RenameRuns(w, d.h, Pod(pod), ifName, Dev(i.index), kk);
        var n := Rename(w, d.h, Pod(pod), ifName, Dev(i.index));
        Trans(w, s, c, Config(kk(n.r), n.h));
        if n.r.Ok? {
          c := Go(w, s, Config(kk(n.r), n.h));
        }
      }
    }
  }

  lemma {:induction false} LocateRuns(w: World, h: State, pf: string, v: nat, total: int, name: string,
                                      k: Reply -> Prog)
    ensures var r := Locate(w, h, pf, v, total, name);
            Reach(w, Config(LocateP(pf, v, total, name, k), h), Config(k(r.r), r.h))
    decreases total - v
  {
    var s := Config(LocateP(pf, v, total, name, k), h);
    Here(w, s);
    if v < total {
      var t := Exec(w, h, StatLink(VfId(pf, v), name));
      var c := Go(w, s, s);
      if t.r.Absent? {
        LocateRuns(w, t.h, pf, v + 1, total, name, k);
        var r := Locate(w, h, pf, v, total, name);
        Trans(w, s, c, Config(k(r.r), r.h));
      }
    }
  }

  lemma ResetVlanRuns(w: World, h: State, pf: string, name: string, k: Reply -> Prog)
    ensures var r := ResetVlan(w, h, pf, name);
            Reach(w, Config(ResetVlanP(pf, name, k), h), Config(k(r.r), r.h))
  {
    var s := Config(ResetVlanP(pf, name, k), h);
    Here(w, s);
    var t := Exec(w, h, NumVfs(pf));
    var c := Go(w, s, s);
    if t.r.Num? {
      var kk := (v: Reply) =>
        if !v.Num? || v.num < 0 then k(Fail)
        else Do(LinkByName(Init, pf), (l: Reply) =>
          if !l.Index? then k(Fail) else Do(SetVlan(VfId(pf, v.num), 0), k));
      LocateRuns(w, t.h, pf, 0, t.r.num, name, kk);
      var v := Locate(w, t.h, pf, 0, t.r.num, name);
      c := Config(kk(v.r), v.h);
      Trans(w, s, Config(LocateP(pf, 0, t.r.num, name, kk), t.h), c);
      if v.r.Num? && v.r.num >= 0 {
        var l := Exec(w, v.h, LinkByName(Init, pf));
        c := Go(w, s, c);
        if l.r.Index? {
          c := Go(w, s, c);
        }
      }
    }
  }

  lemma MaybeResetVlanRuns(w: World, h: State, vlan: int, pf: string, name: string, k: Reply -> Prog)
    ensures var r := MaybeResetVlan(w, h, vlan, pf, name);
            Reach(w, Config(MaybeResetVlanP(vlan, pf, name, k), h), Config(k(r.r), r.h))
  {
    var s := Config(MaybeResetVlanP(vlan, pf, name, k), h);
    Here(w, s);
    if vlan != 0 {
      var e := Exec(w, h, Probe);
      var c := Go(w, s, s);
      if e.r.Ok? {
        ResetVlanRuns(w, e.h, pf, name, k);
        var r := ResetVlan(w, e.h, pf, name);
        Trans(w, s, c, Config(k(r.r), r.h));
      }
    }
  }

  lemma ResetRatesRuns(w: World, h: State, id: VfId, k: Reply -> Prog)
    ensures var r := ResetRates(w, h, id);
            Reach(w, Config(ResetRatesP(id, k), h), Config(k(r.r), r.h))
  {
    var s := Config(ResetRatesP(id, k), h);
    Here(w, s);
    var e := Exec(w, h, Probe);
    var c := Go(w, s, s);
    if e.r.Ok? {
      c := Go(w, s, c);
    }
  }

  lemma EnterAndReturnRuns(w: World, h: State, pod: nat, ifName: string, k: Reply -> Prog)
    ensures var r := EnterAndReturn(w, h, pod, ifName);
            Reach(w, Config(EnterAndReturnP(pod, ifName, k), h), Config(k(r.r), r.h))
  {
    var s := Config(EnterAndReturnP(pod, ifName, k), h);
    Here(w, s);
    var g := Exec(w, h, Probe);
    var c := Go(w, s, s);
    if g.r.Ok? {
      var e := Exec(w, g.h, Probe);
      c := Go(w, s, c);
      if e.r.Ok? {
        BringBackRuns(w, e.h, pod, ifName, k);
        var r := BringBack(w, e.h, pod, ifName);
        Trans(w, s, c, Config(k(r.r), r.h));
      }
    }
  }

  lemma ReleaseRuns(w: World, h: State, a: Args, pod: nat, podIf: string, pf: string, vf: Option<nat>,
                    k: Reply -> Prog)
    ensures var r := Release(w, h, a, pod, podIf, pf, vf);
            Reach(w, Config(ReleaseP(a, pod, podIf, pf, vf, k), h), Config(k(r.r), r.h))
  {
    var s := Config(ReleaseP(a, pod, podIf, pf, vf, k), h);
    Here(w, s);
    var c := Go(w, s, s);
    c := Go(w, s, c);
    var d := Consume(w, h, Key(a.cid, podIf));
    if d.r.Data? {
      var kb := (b: Reply) =>
        if !b.Index? then k(Fail)
        else MaybeResetVlanP(a.vlan, pf, Dev(b.index), (v: Reply) =>
          if !v.Ok? then k(Fail)
          else if vf.None? then k(Ok)
          else ResetRatesP(VfId(pf, vf.value), k));
      EnterAndReturnRuns(w, d.h, pod, podIf, kb);
      var b := EnterAndReturn(w, d.h, pod, podIf);
      Trans(w, s, c, Config(kb(b.r), b.h));
      c := Config(kb(b.r), b.h);
      if b.r.Index? {
        var kv := (v: Reply) =>
          if !v.Ok? then k(Fail)
          else if vf.None? then k(Ok)
          else ResetRatesP(VfId(pf, vf.value), k);
        MaybeResetVlanRuns(w, b.h, a.vlan, pf, Dev(b.r.index), kv);
        var v := MaybeResetVlan(w, b.h, a.vlan, pf, Dev(b.r.index));
        Trans(w, s, c, Config(kv(v.r), v.h));
        c := Config(kv(v.r), v.h);
        if v.r.Ok? && vf.Some? {
          ResetRatesRuns(w, v.h, VfId(pf, vf.value), k);
          var r := ResetRates(w, v.h, VfId(pf, vf.value));
          Trans(w, s, c, Config(k(r.r), r.h));
        }
      }
    }
  }

  lemma FreeVfRuns(w: World, h: State, vlan: int, found: Option<VfId>, dev: string, k: DelExit -> Prog)
    ensures var r := FreeVf(w, h, vlan, found, dev);
            Reach(w, Config(FreeVfP(vlan, found, dev, k), h), Config(k(r.exit), r.h))
  {
    var s := Config(FreeVfP(vlan, found, dev, k), h);
    var foundPf := if found.Some? then found.value.pf else "";
    var kv := (v: Reply) =>
      if !v.Ok? then k(Done(false))
      else if found.None? then Do(Probe, (p: Reply) => k(if p.Ok? then Crashed else Done(false)))
      else ResetRatesP(found.value, (r: Reply) => k(Done(r.Ok?)));
    MaybeResetVlanRuns(w, h, vlan, foundPf, dev, kv);
    var v := MaybeResetVlan(w, h, vlan, foundPf, dev);
    var c := Config(kv(v.r), v.h);
    if v.r.Ok? {
      if found.None? {
        c := Go(w, s, c);
      } else {
        var kr := (r: Reply) => k(Done(r.Ok?));
        ResetRatesRuns(w, v.h, found.value, kr);
        var r := ResetRates(w, v.h, found.value);
        Trans(w, s, c, Config(kr(r.r), r.h));
      }
    }
  }

  lemma ReleaseCustomRuns(w: World, h: State, a: Args, pod: nat, ifc: Iface, pfs: seq<PfInfo>, k: DelExit -> Prog)
    ensures var r := ReleaseCustom(w, h, a, pod, ifc, pfs);
            Reach(w, Config(ReleaseCustomP(a, pod, ifc, pfs, k), h), Config(k(r.exit), r.h))
  {
    var s := Config(ReleaseCustomP(a, pod, ifc, pfs, k), h);
    Here(w, s);
    var o := Exec(w, h, Probe);
    var c := Go(w, s, s);
    if o.r.Ok? {
      c := Go(w, s, c);
      c := Go(w, s, c);
      var d := Consume(w, o.h, Key(a.cid, ifc.name));
      if d.r.Data? {
        var kb := (b: Reply) =>
          if !b.Index? then k(Done(false))
          else FreeVfP(a.vlan, FindMac(pfs, ifc.mac), Dev(b.index), k);
        EnterAndReturnRuns(w, d.h, pod, ifc.name, kb);
        var b := EnterAndReturn(w, d.h, pod, ifc.name);
        Trans(w, s, c, Config(kb(b.r), b.h));
        if b.r.Index? {
          FreeVfRuns(w, b.h, a.vlan, FindMac(pfs, ifc.mac), Dev(b.r.index), k);
          var r := FreeVf(w, b.h, a.vlan, FindMac(pfs, ifc.mac), Dev(b.r.index));
          Trans(w, s, Config(kb(b.r), b.h), Config(k(r.exit), r.h));
        }
      }
    }
  }

  lemma {:induction false} DelLoopRuns(w: World, h: State, a: Args, pod: nat, ifaces: seq<Iface>, pfs: seq<PfInfo>,
                                       k: DelExit -> Prog)
    ensures var r := DelLoop(w, h, a, pod, ifaces, pfs);
            Reach(w, Config(DelLoopP(a, pod, ifaces, pfs, k), h), Config(k(r.exit), r.h))
    decreases |ifaces|
  {
    var s := Config(DelLoopP(a, pod, ifaces, pfs, k), h);
    Here(w, s);
    if ifaces != [] {
      if !IsEthName(ifaces[0].name) {
        DelLoopRuns(w, h, a, pod, ifaces[1..], pfs, k);
      } else {
        var kx := (x: DelExit) => if x.Crashed? then k(x) else DelLoopP(a, pod, ifaces[1..], pfs, k);
        ReleaseCustomRuns(w, h, a, pod, ifaces[0], pfs, kx);
        var x := ReleaseCustom(w, h, a, pod, ifaces[0], pfs);
        if !x.exit.Crashed? {
          DelLoopRuns(w, x.h, a, pod, ifaces[1..], pfs, k);
          var r := DelLoop(w, x.h, a, pod, ifaces[1..], pfs);
          Trans(w, s, Config(kx(x.exit), x.h), Config(k(r.exit), r.h));
        }
      }
    }
  }

  /** A program at its end: dead, or about to unlock and then return without another call. */
  ghost predicate AtEnd(p: Prog) {
    p.Exit? || (p.op.Unlock? && forall r :: p.k(r) == Exit(Finished))
  }

  /** DEL, run alone, arrives at its end with the effect of Del; it dies exactly when Del crashes. */
  lemma DelRuns(w: World, h: State, a: Args)
    ensures var d := Del(w, h, a);
            Reach(w, Config(DelP(a), h), Config(DelEnd(d.exit), d.h))
  {
    var s := Config(DelP(a), h);
    Here(w, s);
    var d := if a.ipam then Exec(w, h, IpamDel) else Ran(h, Ok);
    var c := s;
    if a.ipam {
      c := Go(w, s, s);
    }
    if d.r.Ok? && a.ns.Some? {
      var pod := a.ns.value;
      var l := Exec(w, d.h, ListNs(Pod(pod)));
      c := Go(w, s, c);
      if l.r.Ifaces? {
        var q := Exec(w, l.h, Query);
        c := Go(w, s, c);
        var pfs := if q.r.Table? then q.r.table else [];
        var kx := (x: DelExit) => DelEnd(x);
        DelLoopRuns(w, q.h, a, pod, l.r.ifaces, pfs, kx);
        var x := DelLoop(w, q.h, a, pod, l.r.ifaces, pfs);
        Trans(w, s, c, Config(kx(x.exit), x.h));
      }
    }
  }

  lemma LookupRuns(w: World, h: State, pod: nat, name: string, k: Reply -> Prog)
    ensures var r := Lookup(w, h, pod, name);
            Reach(w, Config(LookupP(pod, name, k), h), Config(k(r.r), r.h))
  {
    var s := Config(LookupP(pod, name, k), h);
    Here(w, s);
    var e := Exec(w, h, Probe);
    var c := Go(w, s, s);
    if e.r.Ok? {
      c := Go(w, s, c);
    }
  }

  lemma ConfigureRuns(w: World, h: State, pod: nat, name: string, k: Reply -> Prog)
    ensures var r := Configure(w, h, pod, name);
            Reach(w, Config(ConfigureP(pod, name, k), h), Config(k(r.r), r.h))
  {
    var s := Config(ConfigureP(pod, name, k), h);
    var kl := (l: Reply) =>
      if !l.Index? then k(Fail)
      else Do(SetUp(l.index), (u: Reply) => if !u.Ok? then k(Fail) else Do(Probe, k));
    LookupRuns(w, h, pod, name, kl);
    var l := Lookup(w, h, pod, name);
    var c := Config(kl(l.r), l.h);
    if l.r.Index? {
      var u := Exec(w, l.h, SetUp(l.r.index));
      c := Go(w, s, c);
      if u.r.Ok? {
        c := Go(w, s, c);
      }
    }
  }

  /** A stack as cmdAdd builds it: the unlock at the bottom and nowhere else. */
  predicate UnlockAtBottom(stack: seq<Frame>) {
    |stack| > 0 && stack[0].UnlockFrame? && forall j | 0 < j < |stack| :: !stack[j].UnlockFrame?
  }

  predicate NoUnlock(frames: seq<Frame>) {
    forall j | 0 <= j < |frames| :: !frames[j].UnlockFrame?
  }

  /** Unwinding such a stack does all of its work before the unlock, and nothing after it. */
  lemma {:induction false} UnwindRuns(w: World, h: State, a: Args, pod: nat, stack: seq<Frame>, err: bool)
    returns (p: Prog)
    requires UnlockAtBottom(stack)
    ensures Reach(w, Config(UnwindP(a, pod, stack, err), h), Config(p, Unwind(w, h, a, pod, stack, err).h))
    ensures p.Do? && AtEnd(p)
    decreases |stack|
  {
    var s := Config(UnwindP(a, pod, stack, err), h);
    var n := |stack| - 1;
    var rest := stack[..n];
    if n == 0 {
      p := OnlyUnlockRuns(w, h, a, pod, stack, err);
    } else {
      hide UnwindP, Pop, Reach, AtEnd;
      var q := Pop(w, h, a, pod, stack[n], err);
      p := UnwindRuns(w, q.h, a, pod, rest, q.err);
      var c := Config(UnwindP(a, pod, rest, q.err), q.h);
      PopRuns(w, h, a, pod, stack, err);
      Trans(w, s, c, Config(p, Unwind(w, q.h, a, pod, rest, q.err).h));
    }
  }

  lemma OnlyUnlockRuns(w: World, h: State, a: Args, pod: nat, stack: seq<Frame>, err: bool) returns (p: Prog)
    requires |stack| == 1 && stack[0].UnlockFrame?
    ensures Reach(w, Config(UnwindP(a, pod, stack, err), h), Config(p, Unwind(w, h, a, pod, stack, err).h))
    ensures p.Do? && AtEnd(p)
  {
    var s := Config(UnwindP(a, pod, stack, err), h);
    Here(w, s);
    p := s.p;
    var rest := stack[..0];
    assert Unwind(w, h, a, pod, rest, err) == Unwound(h, []);
    forall r ensures p.k(r) == Exit(Finished) {
      assert UnwindP(a, pod, rest, err) == Exit(Finished);
    }
  }

  lemma PopRuns(w: World, h: State, a: Args, pod: nat, stack: seq<Frame>, err: bool)
    requires |stack| > 0 && !stack[|stack| - 1].UnlockFrame?
    ensures var q := Pop(w, h, a, pod, stack[|stack| - 1], err);
            Reach(w, Config(UnwindP(a, pod, stack, err), h), Config(UnwindP(a, pod, stack[..|stack| - 1], q.err), q.h))
  {
    var s := Config(UnwindP(a, pod, stack, err), h);
    Here(w, s);
    var rest := stack[..|stack| - 1];
    match stack[|stack| - 1]
    case IpamFrame(i) =>
      if err {
        var c := Go(w, s, s);
      }
    case RollbackFrame(i, pf, vf) =>
      if err {
        var kl := (l: Reply) =>
          if !l.Index? then UnwindP(a, pod, rest, true)
          else ReleaseP(a, pod, Eth(i), pf, vf, (r: Reply) => UnwindP(a, pod, rest, false));
        LookupRuns(w, h, pod, Eth(i), kl);
        var l := Lookup(w, h, pod, Eth(i));
        if l.r.Index? {
          var kr := (r: Reply) => UnwindP(a, pod, rest, false);
          ReleaseRuns(w, l.h, a, pod, Eth(i), pf, vf, kr);
          var r := Release(w, l.h, a, pod, Eth(i), pf, vf);
          Trans(w, s, Config(kl(l.r), l.h), Config(kr(r.r), r.h));
        }
      }
  }

  lemma PlaceOneRuns(w: World, h: State, a: Args, pod: nat, i: nat, pf: string, rates: Rates,
                     k: (Stop, seq<Frame>) -> Prog)
    ensures var t := PlaceOne(w, h, a, pod, i, pf, rates);
            Reach(w, Config(PlaceOneP(a, pod, i, pf, rates, k), h), Config(k(t.stop, t.frames), t.h))
  {
    var s := Config(PlaceOneP(a, pod, i, pf, rates, k), h);
    var ks := (vf: Option<nat>, ok: bool) =>
      var back := [RollbackFrame(i, pf, vf)];
      if !ok then k(SetupFailed, back)
      else Do(IpamAdd, (r: Reply) =>
        if !r.Answer? then k(IpamFailed, back)
        else if r.ip4.None? then k(NoIp4, back)
        else ConfigureP(pod, Eth(i), (c: Reply) =>
          k(if c.Ok? then Completed else ConfigFailed, back + [IpamFrame(i)])));
    SetupRuns(w, h, a, pod, pf, Eth(i), rates, ks);
    var z := Setup(w, h, a, pod, pf, Eth(i), rates);
    var back := [RollbackFrame(i, pf, z.vf)];
    var c := Config(ks(z.vf, z.ok), z.h);
    if z.ok {
      var r := Exec(w, z.h, IpamAdd);
      c := Go(w, s, c);
      if r.r.Answer? && r.r.ip4.Some? {
        var kc := (c: Reply) => k(if c.Ok? then Completed else ConfigFailed, back + [IpamFrame(i)]);
        ConfigureRuns(w, r.h, pod, Eth(i), kc);
        var x := Configure(w, r.h, pod, Eth(i));
        Trans(w, s, c, Config(kc(x.r), x.h));
      }
    }
  }

  /** The frames a turn registers never hold the unlock. */
  lemma PlaceOneFrames(w: World, h: State, a: Args, pod: nat, i: nat, pf: string, rates: Rates)
    ensures NoUnlock(PlaceOne(w, h, a, pod, i, pf, rates).frames)
  {
  }

  /** What follows the placement loop when it ended with t after the closures in stack were registered. */
  ghost function Tail(w: World, a: Args, pod: nat, stack: seq<Frame>, t: Turn): Unwound {
    var pr := if t.stop.Completed? then Exec(w, t.h, Probe) else Ran(t.h, Fail);
    Unwind(w, pr.h, a, pod, stack + t.frames, ErrSet(t.stop))
  }

  lemma TailStep(w: World, a: Args, pod: nat, stack: seq<Frame>, t: Turn, rest: Turn)
    ensures Tail(w, a, pod, stack + t.frames, rest) == Tail(w, a, pod, stack, After(t.frames, t.answers, rest))
  {
    assert (stack + t.frames) + rest.frames == stack + (t.frames + rest.frames);
  }

  lemma {:induction false} PlaceFromRuns(w: World, h: State, a: Args, pod: nat, pfs: seq<PfInfo>, reqs: seq<Rates>,
                                         placed: seq<nat>, i: nat, stack: seq<Frame>) returns (p: Prog)
    requires InBounds(placed, |reqs|, |pfs|) && i <= |placed| && UnlockAtBottom(stack)
    ensures Reach(w, Config(PlaceFromP(a, pod, pfs, reqs, placed, i, stack), h),
                  Config(p, Tail(w, a, pod, stack, PlaceFrom(w, h, a, pod, pfs, reqs, placed, i)).h))
    ensures p.Do? && AtEnd(p)
    decreases |placed| - i
  {
    hide PlaceOne, Unwind, UnwindP, Reach, Exec;
    var s := Config(PlaceFromP(a, pod, pfs, reqs, placed, i, stack), h);
    if i == |placed| {
      p := LoopDoneRuns(w, h, a, pod, stack);
    } else {
      var t := PlaceOne(w, h, a, pod, i, pfs[placed[i]].name, reqs[i]);
      PlaceOneFrames(w, h, a, pod, i, pfs[placed[i]].name, reqs[i]);
      TurnRuns(w, h, a, pod, pfs, reqs, placed, i, stack, t);
      if t.stop.Completed? {
        p := PlaceFromRuns(w, t.h, a, pod, pfs, reqs, placed, i + 1, stack + t.frames);
        var rest := PlaceFrom(w, t.h, a, pod, pfs, reqs, placed, i + 1);
        TailStep(w, a, pod, stack, t, rest);
        Trans(w, s, Config(PlaceFromP(a, pod, pfs, reqs, placed, i + 1, stack + t.frames), t.h),
              Config(p, Tail(w, a, pod, stack + t.frames, rest).h));
      } else {
        p := UnwindRuns(w, t.h, a, pod, stack + t.frames, ErrSet(t.stop));
        Trans(w, s, Config(UnwindP(a, pod, stack + t.frames, ErrSet(t.stop)), t.h),
              Config(p, Unwind(w, t.h, a, pod, stack + t.frames, ErrSet(t.stop)).h));
      }
    }
  }

  lemma LoopDoneRuns(w: World, h: State, a: Args, pod: nat, stack: seq<Frame>) returns (p: Prog)
    requires UnlockAtBottom(stack)
    ensures Reach(w, Config(Do(Probe, (pr: Reply) => UnwindP(a, pod, stack, false)), h),
                  Config(p, Tail(w, a, pod, stack, Turn(h, Completed, [], [])).h))
    ensures p.Do? && AtEnd(p)
  {
    var s := Config(Do(Probe, (pr: Reply) => UnwindP(a, pod, stack, false)), h);
    Here(w, s);
    var pr := Exec(w, h, Probe);
    var c := Go(w, s, s);
    p := UnwindRuns(w, pr.h, a, pod, stack, false);
    assert stack + [] == stack;
    Trans(w, s, c, Config(p, Unwind(w, pr.h, a, pod, stack, false).h));
  }

  lemma TurnRuns(w: World, h: State, a: Args, pod: nat, pfs: seq<PfInfo>, reqs: seq<Rates>, placed: seq<nat>,
                 i: nat, stack: seq<Frame>, t: Turn)
    requires InBounds(placed, |reqs|, |pfs|) && i < |placed|
    requires t == PlaceOne(w, h, a, pod, i, pfs[placed[i]].name, reqs[i])
    ensures Reach(w, Config(PlaceFromP(a, pod, pfs, reqs, placed, i, stack), h),
                  Config(if t.stop.Completed? then PlaceFromP(a, pod, pfs, reqs, placed, i + 1, stack + t.frames)
                         else UnwindP(a, pod, stack + t.frames, ErrSet(t.stop)), t.h))
  {
    var ko := (stop: Stop, frames: seq<Frame>) =>
      if stop.Completed? then PlaceFromP(a, pod, pfs, reqs, placed, i + 1, stack + frames)
      else UnwindP(a, pod, stack + frames, ErrSet(stop));
    PlaceOneRuns(w, h, a, pod, i, pfs[placed[i]].name, reqs[i], ko);
  }

  /** A run of ADD that had nothing to undo yet: only the unlock is left. */
  lemma EarlyRuns(a: Args)
    ensures AtEnd(UnwindP(a, 0, [UnlockFrame], false)) && UnwindP(a, 0, [UnlockFrame], false).Do?
  {
    var early := [UnlockFrame];
    var p := UnwindP(a, 0, early, false);
    assert early[..0] == [] && early[|early| - 1] == UnlockFrame;
    forall r ensures p.k(r) == Exit(Finished) {
      assert UnwindP(a, 0, early[..0], false) == Exit(Finished);
    }
  }

  /** ADD, run alone, arrives at its end with the effect of Add, rollback included; it dies exactly on log.Fatal. */
  lemma AddRuns(w: World, h: State, a: Args, conf: bool) returns (p: Prog)
    ensures Reach(w, Config(AddP(a, conf), h), Config(p, Add(w, h, a, conf).h))
    ensures AtEnd(p) && (p == Exit(Died) <==> Add(w, h, a, conf).exit.Fatal?) && (p.Exit? ==> p == Exit(Died))
  {
    hide AddPlaced, AddPlacedP;
    var s := Config(AddP(a, conf), h);
    Here(w, s);
    var d := Exec(w, h, PodInfo);
    var c := Go(w, s, s);
    if !d.r.Requests? {
      return c.p;
    }
    var q := Exec(w, d.h, Query);
    c := Go(w, s, c);
    if !q.r.Table? {
      return c.p;
    }
    var k := Exec(w, q.h, Place(|d.r.requests|, |q.r.table|));
    c := Go(w, s, c);
    if !k.r.Placed? {
      return c.p;
    }
    p := AddPlacedRuns(w, k.h, a, conf, q.r.table, d.r.requests, k.r.placed);
    Trans(w, s, c, Config(p, AddPlaced(w, k.h, a, conf, q.r.table, d.r.requests, k.r.placed).h));
  }

  lemma AddPlacedRuns(w: World, h: State, a: Args, conf: bool, pfs: seq<PfInfo>, reqs: seq<Rates>, placed: seq<nat>)
    returns (p: Prog)
    requires InBounds(placed, |reqs|, |pfs|)
    ensures Reach(w, Config(AddPlacedP(a, conf, pfs, reqs, placed), h),
                  Config(p, AddPlaced(w, h, a, conf, pfs, reqs, placed).h))
    ensures p.Do? && AtEnd(p) && !AddPlaced(w, h, a, conf, pfs, reqs, placed).exit.Fatal?
  {
    var s := Config(AddPlacedP(a, conf, pfs, reqs, placed), h);
    Here(w, s);
    EarlyRuns(a);
    if !conf {
      return s.p;
    }
    var o := Exec(w, h, Probe);
    var c := Go(w, s, s);
    if !o.r.Ok? || a.ns.None? {
      return c.p;
    }
    p := PlaceFromRuns(w, o.h, a, a.ns.value, pfs, reqs, placed, 0, [UnlockFrame]);
    Trans(w, s, c, Config(p, AddBody(w, o.h, a, a.ns.value, pfs, reqs, placed).h));
  }

  // ----- what no reply can make a program do -----

  /** Whatever the replies: after an unlock the process only returns. */
  greatest predicate Tame(p: Prog) {
    match p
    case Exit(_) => true
    case Do(op, k) => if op.Unlock? then forall r :: k(r) == Exit(Finished) else forall r :: Tame(k(r))
  }

  /** A continuation that is tame for every argument it can get. */
  ghost predicate TameK(k: Reply -> Prog) {
    forall r :: Tame(k(r))
  }

  lemma RenameTame(ns: Ns, cur: string, name: string, k: Reply -> Prog)
    requires TameK(k)
    ensures Tame(RenameP(ns, cur, name, k))
  {
  }

  lemma {:induction false} ScanTame(pf: string, v: nat, total: int, rates: Rates,
                                    k: (Option<nat>, seq<string>, bool) -> Prog)
    requires forall x, y, z :: Tame(k(x, y, z))
    ensures Tame(ScanP(pf, v, total, rates, k))
    decreases total - v
  {
    if v < total {
      if v < total - 1 {
        ScanTame(pf, v + 1, total, rates, k);
      }
      var p := ScanP(pf, v, total, rates, k);
      forall s ensures Tame(p.k(s)) {
        var q := p.k(s);
        if s.Ok? {
          forall d ensures Tame(q.k(d)) {
            var q' := q.k(d);
            if d.Names? && d.names != [] && |d.names| <= 2 {
              forall c ensures Tame(q'.k(c)) {
              }
            }
          }
        }
      }
    }
  }

  lemma HandRestTame(a: Args, pod: nat, i: nat, vfName: string, podIf: string, vf: nat, k: Reply -> Prog)
    requires TameK(k)
    ensures Tame(HandRestP(a, pod, i, vfName, podIf, vf, k))
  {
    var p := HandRestP(a, pod, i, vfName, podIf, vf, k);
    var kk := (fin: Reply) =>
      if !fin.Ok? then k(Fail)
      else Do(WriteFile(Key(a.cid, podIf), Record(podIf, vf, a.vlan)), k);
    forall r ensures Tame(kk(r)) {
    }
    RenameTame(Pod(pod), vfName, podIf, kk);
    forall up ensures Tame(p.k(up)) {
      if up.Ok? {
        var q := p.k(up);
        forall mv ensures Tame(q.k(mv)) {
          if mv.Ok? {
            var q' := q.k(mv);
            forall en ensures Tame(q'.k(en)) {
            }
          }
        }
      }
    }
  }

  lemma HandTame(a: Args, pod: nat, name: string, podIf: string, vf: nat, k: Reply -> Prog)
    requires TameK(k)
    ensures Tame(HandP(a, pod, name, podIf, vf, k))
  {
    var p := HandP(a, pod, name, podIf, vf, k);
    forall l: Reply ensures Tame(p.k(l)) {
      if l.Index? {
        if name != "eth0" {
          HandRestTame(a, pod, l.index, name, podIf, vf, k);
        } else {
          var q := p.k(l);
          forall d ensures Tame(q.k(d)) {
            var q' := q.k(d);
            forall n: Reply ensures Tame(q'.k(n)) {
              var vfName := Sriov(if n.Index? then n.index else 0);
              var kk := (r: Reply) => HandRestP(a, pod, l.index, vfName, podIf, vf, k);
              forall r ensures Tame(kk(r)) {
                HandRestTame(a, pod, l.index, vfName, podIf, vf, k);
              }
              RenameTame(Init, name, vfName, kk);
            }
          }
        }
      }
    }
  }

  lemma SetupTame(a: Args, pod: nat, pf: string, podIf: string, rates: Rates, k: (Option<nat>, bool) -> Prog)
    requires forall x, y :: Tame(k(x, y))
    ensures Tame(SetupP(a, pod, pf, podIf, rates, k))
  {
    var kk := (vf: Option<nat>, names: seq<string>, ok: bool) =>
      if !ok || vf.None? || |names| != 1 then k(vf, false)
      else if a.vlan == 0 then HandP(a, pod, names[0], podIf, vf.value, (b: Reply) => k(vf, b.Ok?))
      else Do(SetVlan(VfId(pf, vf.value), a.vlan), (c: Reply) =>
        if !c.Ok? then k(vf, false)
        else HandP(a, pod, names[0], podIf, vf.value, (b: Reply) => k(vf, b.Ok?)));
    forall vf: Option<nat>, names: seq<string>, ok: bool ensures Tame(kk(vf, names, ok)) {
      if ok && vf.Some? && |names| == 1 {
        var kb := (b: Reply) => k(vf, b.Ok?);
        HandTame(a, pod, names[0], podIf, vf.value, kb);
        if a.vlan != 0 {
          var q := kk(vf, names, ok);
          forall c ensures Tame(q.k(c)) {
          }
        }
      }
    }
    var p := SetupP(a, pod, pf, podIf, rates, k);
    forall m: Reply ensures Tame(p.k(m)) {
      if m.Index? {
        var q := p.k(m);
        forall t: Reply ensures Tame(q.k(t)) {
          if t.Num? {
            ScanTame(pf, 0, t.num, rates, kk);
          }
        }
      }
    }
  }

  lemma BringBackTame(pod: nat, ifName: string, k: Reply -> Prog)
    requires TameK(k)
    ensures Tame(BringBackP(pod, ifName, k))
  {
    var p := BringBackP(pod, ifName, k);
    forall l: Reply ensures Tame(p.k(l)) {
      if l.Index? {
        var q := p.k(l);
        forall d: Reply ensures Tame(q.k(d)) {
          if d.Ok? {
            var kk := (n: Reply) =>
              if !n.Ok? then k(Fail)
              else Do(SetNs(l.index, Init), (m: Reply) => k(if m.Ok? then Index(l.index) else Fail));
            forall n: Reply ensures Tame(kk(n)) {
            }
            RenameTame(Pod(pod), ifName, Dev(l.index), kk);
          }
        }
      }
    }
  }

  lemma {:induction false} LocateTame(pf: string, v: nat, total: int, name: string, k: Reply -> Prog)
    requires TameK(k)
    ensures Tame(LocateP(pf, v, total, name, k))
    decreases total - v
  {
    if v < total {
      LocateTame(pf, v + 1, total, name, k);
    }
  }

  lemma MaybeResetVlanTame(vlan: int, pf: string, name: string, k: Reply -> Prog)
    requires TameK(k)
    ensures Tame(MaybeResetVlanP(vlan, pf, name, k))
  {
    var kk := (v: Reply) =>
      if !v.Num? || v.num < 0 then k(Fail)
      else Do(LinkByName(Init, pf), (l: Reply) =>
        if !l.Index? then k(Fail) else Do(SetVlan(VfId(pf, v.num), 0), k));
    forall v: Reply ensures Tame(kk(v)) {
      if v.Num? && v.num >= 0 {
        var q := kk(v);
        forall l: Reply ensures Tame(q.k(l)) {
        }
      }
    }
    var p := ResetVlanP(pf, name, k);
    forall t: Reply ensures Tame(p.k(t)) {
      if t.Num? {
        LocateTame(pf, 0, t.num, name, kk);
      }
    }
  }

  lemma EnterAndReturnTame(pod: nat, ifName: string, k: Reply -> Prog)
    requires TameK(k)
    ensures Tame(EnterAndReturnP(pod, ifName, k))
  {
    BringBackTame(pod, ifName, k);
    var p := EnterAndReturnP(pod, ifName, k);
    forall g: Reply ensures Tame(p.k(g)) {
    }
  }

  lemma ReleaseTame(a: Args, pod: nat, podIf: string, pf: string, vf: Option<nat>, k: Reply -> Prog)
    requires TameK(k)
    ensures Tame(ReleaseP(a, pod, podIf, pf, vf, k))
  {
    var kb := (b: Reply) =>
      if !b.Index? then k(Fail)
      else MaybeResetVlanP(a.vlan, pf, Dev(b.index), (v: Reply) =>
        if !v.Ok? then k(Fail)
        else if vf.None? then k(Ok)
        else ResetRatesP(VfId(pf, vf.value), k));
    forall b: Reply ensures Tame(kb(b)) {
      if b.Index? {
        var kv := (v: Reply) =>
          if !v.Ok? then k(Fail)
          else if vf.None? then k(Ok)
          else ResetRatesP(VfId(pf, vf.value), k);
        forall v: Reply ensures Tame(kv(v)) {
        }
        MaybeResetVlanTame(a.vlan, pf, Dev(b.index), kv);
      }
    }
    EnterAndReturnTame(pod, podIf, kb);
    var p := ReleaseP(a, pod, podIf, pf, vf, k);
    forall c: Reply ensures Tame(p.k(c)) {
      var q := p.k(c);
      forall rm: Reply ensures Tame(q.k(rm)) {
      }
    }
  }

  lemma FreeVfTame(vlan: int, found: Option<VfId>, dev: string, k: DelExit -> Prog)
    requires forall x :: Tame(k(x))
    ensures Tame(FreeVfP(vlan, found, dev, k))
  {
    var kv := (v: Reply) =>
      if !v.Ok? then k(Done(false))
      else if found.None? then Do(Probe, (p: Reply) => k(if p.Ok? then Crashed else Done(false)))
      else ResetRatesP(found.value, (r: Reply) => k(Done(r.Ok?)));
    forall v: Reply ensures Tame(kv(v)) {
      if v.Ok? && found.Some? {
        var q := kv(v);
        forall e: Reply ensures Tame(q.k(e)) {
        }
      }
    }
    MaybeResetVlanTame(vlan, if found.Some? then found.value.pf else "", dev, kv);
  }

  lemma ReleaseCustomTame(a: Args, pod: nat, ifc: Iface, pfs: seq<PfInfo>, k: DelExit -> Prog)
    requires forall x :: Tame(k(x))
    ensures Tame(ReleaseCustomP(a, pod, ifc, pfs, k))
  {
    var kb := (b: Reply) =>
      if !b.Index? then k(Done(false))
      else FreeVfP(a.vlan, FindMac(pfs, ifc.mac), Dev(b.index), k);
    forall b: Reply ensures Tame(kb(b)) {
      if b.Index? {
        FreeVfTame(a.vlan, FindMac(pfs, ifc.mac), Dev(b.index), k);
      }
    }
    EnterAndReturnTame(pod, ifc.name, kb);
    var p := ReleaseCustomP(a, pod, ifc, pfs, k);
    forall o: Reply ensures Tame(p.k(o)) {
      if o.Ok? {
        var q := p.k(o);
        forall c: Reply ensures Tame(q.k(c)) {
          var q' := q.k(c);
          forall rm: Reply ensures Tame(q'.k(rm)) {
          }
        }
      }
    }
  }

  lemma {:induction false} DelLoopTame(a: Args, pod: nat, ifaces: seq<Iface>, pfs: seq<PfInfo>, k: DelExit -> Prog)
    requires forall x :: Tame(k(x))
    ensures Tame(DelLoopP(a, pod, ifaces, pfs, k))
    decreases |ifaces|
  {
    if ifaces != [] {
      DelLoopTame(a, pod, ifaces[1..], pfs, k);
      if IsEthName(ifaces[0].name) {
        var kx := (x: DelExit) => if x.Crashed? then k(x) else DelLoopP(a, pod, ifaces[1..], pfs, k);
        ReleaseCustomTame(a, pod, ifaces[0], pfs, kx);
      }
    }
  }

  lemma DelTame(a: Args)
    ensures Tame(DelP(a))
  {
    var kx := (x: DelExit) => DelEnd(x);
    var r := DelRestP(a);
    if a.ns.Some? {
      forall l: Reply ensures Tame(r.k(l)) {
        if l.Ifaces? {
          var q := r.k(l);
          forall t: Reply ensures Tame(q.k(t)) {
            DelLoopTame(a, a.ns.value, l.ifaces, if t.Table? then t.table else [], kx);
          }
        }
      }
    }
    assert Tame(r);
  }

  lemma LookupTame(pod: nat, name: string, k: Reply -> Prog)
    requires TameK(k)
    ensures Tame(LookupP(pod, name, k))
  {
  }

  lemma ConfigureTame(pod: nat, name: string, k: Reply -> Prog)
    requires TameK(k)
    ensures Tame(ConfigureP(pod, name, k))
  {
    var kl := (l: Reply) =>
      if !l.Index? then k(Fail)
      else Do(SetUp(l.index), (u: Reply) => if !u.Ok? then k(Fail) else Do(Probe, k));
    forall l: Reply ensures Tame(kl(l)) {
      if l.Index? {
        var q := kl(l);
        forall u: Reply ensures Tame(q.k(u)) {
        }
      }
    }
    LookupTame(pod, name, kl);
  }

  lemma {:induction false} UnwindTame(a: Args, pod: nat, stack: seq<Frame>, err: bool)
    requires UnlockAtBottom(stack)
    ensures Tame(UnwindP(a, pod, stack, err))
    decreases |stack|
  {
    var n := |stack| - 1;
    var rest := stack[..n];
    if n == 0 {
      assert rest == [] && stack[0] == stack[n];
      assert UnwindP(a, pod, rest, err) == Exit(Finished);
    } else {
      UnwindTame(a, pod, rest, true);
      UnwindTame(a, pod, rest, false);
      match stack[n]
      case IpamFrame(i) =>
      case RollbackFrame(i, pf, vf) =>
        var kl := (l: Reply) =>
          if !l.Index? then UnwindP(a, pod, rest, true)
          else ReleaseP(a, pod, Eth(i), pf, vf, (r: Reply) => UnwindP(a, pod, rest, false));
        var kr := (r: Reply) => UnwindP(a, pod, rest, false);
        ReleaseTame(a, pod, Eth(i), pf, vf, kr);
        LookupTame(pod, Eth(i), kl);
    }
  }

  lemma PlaceOneTame(a: Args, pod: nat, i: nat, pf: string, rates: Rates, k: (Stop, seq<Frame>) -> Prog)
    requires forall stop, frames | NoUnlock(frames) :: Tame(k(stop, frames))
    ensures Tame(PlaceOneP(a, pod, i, pf, rates, k))
  {
    var ks := (vf: Option<nat>, ok: bool) =>
      var back := [RollbackFrame(i, pf, vf)];
      if !ok then k(SetupFailed, back)
      else Do(IpamAdd, (r: Reply) =>
        if !r.Answer? then k(IpamFailed, back)
        else if r.ip4.None? then k(NoIp4, back)
        else ConfigureP(pod, Eth(i), (c: Reply) =>
          k(if c.Ok? then Completed else ConfigFailed, back + [IpamFrame(i)])));
    forall vf: Option<nat>, ok: bool ensures Tame(ks(vf, ok)) {
      var back := [RollbackFrame(i, pf, vf)];
      if ok {
        var q := ks(vf, ok);
        forall r: Reply ensures Tame(q.k(r)) {
          if r.Answer? && r.ip4.Some? {
            var kc := (c: Reply) => k(if c.Ok? then Completed else ConfigFailed, back + [IpamFrame(i)]);
            ConfigureTame(pod, Eth(i), kc);
          }
        }
      }
    }
    SetupTame(a, pod, pf, Eth(i), rates, ks);
  }

  lemma {:induction false} PlaceFromTame(a: Args, pod: nat, pfs: seq<PfInfo>, reqs: seq<Rates>, placed: seq<nat>,
                                         i: nat, stack: seq<Frame>)
    requires InBounds(placed, |reqs|, |pfs|) && i <= |placed| && UnlockAtBottom(stack)
    ensures Tame(PlaceFromP(a, pod, pfs, reqs, placed, i, stack))
    decreases |placed| - i
  {
    if i == |placed| {
      UnwindTame(a, pod, stack, false);
    } else {
      var ko := (stop: Stop, frames: seq<Frame>) =>
        if stop.Completed? then PlaceFromP(a, pod, pfs, reqs, placed, i + 1, stack + frames)
        else UnwindP(a, pod, stack + frames, ErrSet(stop));
      forall stop, frames: seq<Frame> | NoUnlock(frames)
        ensures Tame(ko(stop, frames))
      {
        if stop.Completed? {
          PlaceFromTame(a, pod, pfs, reqs, placed, i + 1, stack + frames);
        } else {
          UnwindTame(a, pod, stack + frames, ErrSet(stop));
        }
      }
      PlaceOneTame(a, pod, i, pfs[placed[i]].name, reqs[i], ko);
    }
  }

  lemma AddTame(a: Args, conf: bool)
    ensures Tame(AddP(a, conf))
  {
    UnwindTame(a, 0, [UnlockFrame], false);
    var p := AddP(a, conf);
    forall d: Reply ensures Tame(p.k(d)) {
      if d.Requests? {
        var q := p.k(d);
        forall t: Reply ensures Tame(q.k(t)) {
          if t.Table? {
            var q' := q.k(t);
            forall c: Reply ensures Tame(q'.k(c)) {
              if c.Placed? && InBounds(c.placed, |d.requests|, |t.table|) {
                AddPlacedTame(a, conf, t.table, d.requests, c.placed);
              }
            }
          }
        }
      }
    }
  }

  lemma AddPlacedTame(a: Args, conf: bool, pfs: seq<PfInfo>, reqs: seq<Rates>, placed: seq<nat>)
    requires InBounds(placed, |reqs|, |pfs|)
    ensures Tame(AddPlacedP(a, conf, pfs, reqs, placed))
  {
    UnwindTame(a, 0, [UnlockFrame], false);
    if a.ns.Some? {
      PlaceFromTame(a, a.ns.value, pfs, reqs, placed, 0, [UnlockFrame]);
    }
    if conf {
      var p := AddPlacedP(a, conf, pfs, reqs, placed);
      forall o: Reply ensures Tame(p.k(o)) {
      }
    }
  }
}
