/** What ADD and DEL do to a host: one specification function per routine of the plugin. */
module Lifecycle {
  import opened Text
  import opened Host
  import Types020

  /** The caller's side of one ADD or DEL: container, pod namespace, configured vlan and IPAM type. */
  datatype Args = Args(cid: string, ns: Option<nat>, vlan: int, ipam: bool)

  /** renameLink: find by name, then rename what was found. */
  ghost function Rename(w: World, h: State, ns: Ns, cur: string, name: string): Ran {
    var l := Exec(w, h, LinkByName(ns, cur));
    if !l.r.Index? then Ran(l.h, Fail) else Exec(w, l.h, SetName(l.r.index, name))
  }

  // ----- setupVF -----

  /** vf is what the returned pointer points at, None for a nil pointer; names is the chosen directory. */
  datatype Scanned = Scanned(h: State, vf: Option<nat>, names: seq<string>, ok: bool)

  /** The VF loop from number v on. Past the end (a total below one) the default number 0 is returned. */
  ghost function Scan(w: World, h: State, pf: string, v: nat, total: int, rates: Rates): Scanned
    decreases total - v
  {
    if v >= total then Scanned(h, Some(0), [], false)
    else
      var id := VfId(pf, v);
      var s := Exec(w, h, Lstat(id));
      if !s.r.Ok? then
        if v == total - 1 then Scanned(s.h, None, [], false) else Scan(w, s.h, pf, v + 1, total, rates)
      else
        var d := Exec(w, s.h, ReadDir(id));
        if !d.r.Names? then Scanned(d.h, None, [], false)
        else if d.r.names == [] then
          if v == total - 1 then Scanned(d.h, None, [], false) else Scan(w, d.h, pf, v + 1, total, rates)
        else if |d.r.names| > 2 then Scanned(d.h, None, [], false)
        else
          var p := Exec(w, d.h, PciAddr(id));
          if !p.r.Ok? then Scanned(p.h, None, [], false)
          else
            var r := Exec(w, p.h, SetRates(id, rates));
            Scanned(r.h, Some(v), d.r.names, r.r.Ok?)
  }

  datatype SetupOut = SetupOut(h: State, vf: Option<nat>, ok: bool)

  /** Raise the link, move it into the pod, give it its name there, save the record. */
  ghost function HandRest(w: World, h: State, a: Args, pod: nat, i: nat, vfName: string, podIf: string, vf: nat): Ran {
    var up := Exec(w, h, SetUp(i));
    if !up.r.Ok? then Ran(up.h, Fail)
    else
      var mv := Exec(w, up.h, SetNs(i, Pod(pod)));
      if !mv.r.Ok? then Ran(mv.h, Fail)
      else
        var en := Exec(w, mv.h, Probe);
        if !en.r.Ok? then Ran(en.h, Fail)
        else
          var fin := Rename(w, en.h, Pod(pod), vfName, podIf);
          if !fin.r.Ok? then Ran(fin.h, Fail)
          else Exec(w, fin.h, WriteFile(Key(a.cid, podIf), Record(podIf, vf, a.vlan)))
  }

  /** The chosen link on its way into the pod; one called eth0 is first renamed, whether or not that works. */
  ghost function Hand(w: World, h: State, a: Args, pod: nat, name: string, podIf: string, vf: nat): Ran {
    var l := Exec(w, h, LinkByName(Init, name));
    if !l.r.Index? then Ran(l.h, Fail)
    else if name != "eth0" then HandRest(w, l.h, a, pod, l.r.index, name, podIf, vf)
    else
      var d := Exec(w, l.h, SetDown(l.r.index));
      var n := Exec(w, d.h, Random);
      var vfName := Sriov(n.r.index);
      HandRest(w, Rename(w, n.h, Init, name, vfName).h, a, pod, l.r.index, vfName, podIf, vf)
  }

  /** The resource checks after the scan, the vlan, and the hand-over. */
  ghost function AfterScan(w: World, s: Scanned, a: Args, pod: nat, pf: string, podIf: string): SetupOut {
    if !s.ok || s.vf.None? || |s.names| != 1 then SetupOut(s.h, s.vf, false)
    else
      var vf := s.vf.value;
      var c := if a.vlan != 0 then Exec(w, s.h, SetVlan(VfId(pf, vf), a.vlan)) else Ran(s.h, Ok);
      if !c.r.Ok? then SetupOut(c.h, s.vf, false)
      else
        var b := Hand(w, c.h, a, pod, s.names[0], podIf, vf);
        SetupOut(b.h, s.vf, b.r.Ok?)
  }

  ghost function Setup(w: World, h: State, a: Args, pod: nat, pf: string, podIf: string, rates: Rates): SetupOut {
    var m := Exec(w, h, LinkByName(Init, pf));
    if !m.r.Index? then SetupOut(m.h, None, false)
    else
      var t := Exec(w, m.h, NumVfs(pf));
      if !t.r.Num? then SetupOut(t.h, None, false)
      else
        AfterScan(w, Scan(w, t.h, pf, 0, t.r.num, rates), a, pod, pf, podIf)
  }

  // ----- release -----

  /** getNetConf: the record is read, and its file removed whether or not that worked. */
  ghost function Consume(w: World, h: State, key: string): Ran {
    var d := Exec(w, h, ReadFile(key));
    Ran(Exec(w, d.h, RemoveFile(key)).h, d.r)
  }

  /** Down, rename to dev<index>, move to the initial namespace; the answer is the link's index. */
  ghost function BringBack(w: World, h: State, pod: nat, ifName: string): Ran {
    var l := Exec(w, h, LinkByName(Pod(pod), ifName));
    if !l.r.Index? then Ran(l.h, Fail)
    else
      var i := l.r.index;
      var d := Exec(w, l.h, SetDown(i));
      if !d.r.Ok? then Ran(d.h, Fail)
      else
        var n := Rename(w, d.h, Pod(pod), ifName, Dev(i));
        if !n.r.Ok? then Ran(n.h, Fail)
        else
          var m := Exec(w, n.h, SetNs(i, Init));
          if !m.r.Ok? then Ran(m.h, Fail) else Ran(m.h, Index(i))
  }

  /** The name scan of resetVfVlan. Any failure other than "not there" counts as found. */
  ghost function Locate(w: World, h: State, pf: string, v: nat, total: int, name: string): Ran
    decreases total - v
  {
    if v >= total then Ran(h, Fail)
    else
      var s := Exec(w, h, StatLink(VfId(pf, v), name));
      if s.r.Absent? then Locate(w, s.h, pf, v + 1, total, name) else Ran(s.h, Num(v))
  }

  ghost function ResetVlan(w: World, h: State, pf: string, name: string): Ran {
    var t := Exec(w, h, NumVfs(pf));
    if !t.r.Num? then Ran(t.h, Fail)
    else
      var v := Locate(w, t.h, pf, 0, t.r.num, name);
      if !v.r.Num? || v.r.num < 0 then Ran(v.h, Fail)
      else
        var l := Exec(w, v.h, LinkByName(Init, pf));
        if !l.r.Index? then Ran(l.h, Fail) else Exec(w, l.h, SetVlan(VfId(pf, v.r.num), 0))
  }

  /** The vlan part of both releases, inside the initial namespace. */
  ghost function MaybeResetVlan(w: World, h: State, vlan: int, pf: string, name: string): Ran {
    if vlan == 0 then Ran(h, Ok)
    else
      var e := Exec(w, h, Probe);
      if !e.r.Ok? then Ran(e.h, Fail) else ResetVlan(w, e.h, pf, name)
  }

  ghost function ResetRates(w: World, h: State, id: VfId): Ran {
    var e := Exec(w, h, Probe);
    if !e.r.Ok? then Ran(e.h, Fail) else Exec(w, e.h, SetRates(id, Rates(0, 0)))
  }

  /** Getting the current namespace, entering the pod's, and bringing the link back. */
  ghost function EnterAndReturn(w: World, h: State, pod: nat, ifName: string): Ran {
    var g := Exec(w, h, Probe);
    if !g.r.Ok? then Ran(g.h, Fail)
    else
      var e := Exec(w, g.h, Probe);
      if !e.r.Ok? then Ran(e.h, Fail) else BringBack(w, e.h, pod, ifName)
  }

  /** releaseVF, the rollback's release: the VF number comes from the setup. */
  ghost function Release(w: World, h: State, a: Args, pod: nat, podIf: string, pf: string, vf: Option<nat>): Ran {
    var c := Consume(w, h, Key(a.cid, podIf));
    if !c.r.Data? then Ran(c.h, Fail)
    else
      var b := EnterAndReturn(w, c.h, pod, podIf);
      if !b.r.Index? then Ran(b.h, Fail)
      else
        var v := MaybeResetVlan(w, b.h, a.vlan, pf, Dev(b.r.index));
        if !v.r.Ok? then Ran(v.h, Fail)
        else if vf.None? then Ran(v.h, Ok)
        else ResetRates(w, v.h, VfId(pf, vf.value))
  }

  datatype DelExit = Done(ok: bool) | Crashed

  datatype DelOut = DelOut(h: State, exit: DelExit)

  /** Resetting the VF that was found by address; dereferencing a nil one is a panic. */
  ghost function FreeVf(w: World, h: State, vlan: int, found: Option<VfId>, dev: string): DelOut {
    var v := MaybeResetVlan(w, h, vlan, if found.Some? then found.value.pf else "", dev);
    if !v.r.Ok? then DelOut(v.h, Done(false))
    else if found.None? then
      var p := Exec(w, v.h, Probe);
      DelOut(p.h, if p.r.Ok? then Crashed else Done(false))
    else
      var r := ResetRates(w, v.h, found.value);
      DelOut(r.h, Done(r.r.Ok?))
  }

  /** releaseVFCustom, DEL's release: the VF is found by hardware address; without one the process panics. */
  ghost function ReleaseCustom(w: World, h: State, a: Args, pod: nat, ifc: Iface, pfs: seq<PfInfo>): DelOut {
    var o := Exec(w, h, Probe);
    if !o.r.Ok? then DelOut(o.h, Done(false))
    else
      var c := Consume(w, o.h, Key(a.cid, ifc.name));
      if !c.r.Data? then DelOut(c.h, Done(false))
      else
        var found := FindMac(pfs, ifc.mac);
        var b := EnterAndReturn(w, c.h, pod, ifc.name);
        if !b.r.Index? then DelOut(b.h, Done(false))
        else FreeVf(w, b.h, a.vlan, found, Dev(b.r.index))
  }

  // ----- cmdDel -----

  /** The loop over the interface snapshot; release errors are only logged. */
  ghost function DelLoop(w: World, h: State, a: Args, pod: nat, ifaces: seq<Iface>, pfs: seq<PfInfo>): DelOut
    decreases |ifaces|
  {
    if ifaces == [] then DelOut(h, Done(true))
    else if !IsEthName(ifaces[0].name) then DelLoop(w, h, a, pod, ifaces[1..], pfs)
    else
      var r := ReleaseCustom(w, h, a, pod, ifaces[0], pfs);
      if r.exit.Crashed? then r else DelLoop(w, r.h, a, pod, ifaces[1..], pfs)
  }

  /** cmdDel between the acquisition and the release of the lock. */
  ghost function Del(w: World, h: State, a: Args): DelOut {
    var d := if a.ipam then Exec(w, h, IpamDel) else Ran(h, Ok);
    if !d.r.Ok? then DelOut(d.h, Done(false))
    else if a.ns.None? then DelOut(d.h, Done(true))
    else
      var l := Exec(w, d.h, ListNs(Pod(a.ns.value)));
      if !l.r.Ifaces? then DelOut(l.h, Done(false))
      else
        var q := Exec(w, l.h, Query);
        DelLoop(w, q.h, a, a.ns.value, l.r.ifaces, if q.r.Table? then q.r.table else [])
  }

  // ----- cmdAdd -----

  /** A deferred closure. The unlock is registered first, hence at the bottom of every stack. */
  datatype Frame =
    | UnlockFrame
    | RollbackFrame(i: nat, pf: string, vf: Option<nat>)
    | IpamFrame(i: nat)

  /** What the unwinding of one stack did, in order. */
  datatype Action = Released(i: nat) | LeaseDropped(i: nat)

  datatype Unwound = Unwound(h: State, actions: seq<Action>)

  /** The state after one closure: the host, the shared err, what was done. */
  datatype Popped = Popped(h: State, err: bool, actions: seq<Action>)

  /** Is eth<i> in the pod? The answer is no as well when the namespace cannot be entered. */
  ghost function Lookup(w: World, h: State, pod: nat, name: string): Ran {
    var e := Exec(w, h, Probe);
    if !e.r.Ok? then Ran(e.h, Fail) else Exec(w, e.h, LinkByName(Pod(pod), name))
  }

  /** One deferred closure. A rollback overwrites err with the outcome of its lookup. */
  ghost function Pop(w: World, h: State, a: Args, pod: nat, frame: Frame, err: bool): Popped {
    match frame
    case UnlockFrame => Popped(h, err, [])
    case IpamFrame(i) =>
      if !err then Popped(h, err, []) else Popped(Exec(w, h, IpamDel).h, err, [LeaseDropped(i)])
    case RollbackFrame(i, pf, vf) =>
      if !err then Popped(h, err, [])
      else
        var l := Lookup(w, h, pod, Eth(i));
        if !l.r.Index? then Popped(l.h, true, [])
        else Popped(Release(w, l.h, a, pod, Eth(i), pf, vf).h, false, [Released(i)])
  }

  /** Running the deferred closures from the last registered to the first; they share err. */
  ghost function Unwind(w: World, h: State, a: Args, pod: nat, stack: seq<Frame>, err: bool): Unwound
    decreases |stack|
  {
    if stack == [] then Unwound(h, [])
    else
      var p := Pop(w, h, a, pod, stack[|stack| - 1], err);
      Then(p.actions, Unwind(w, p.h, a, pod, stack[..|stack| - 1], p.err))
  }

  /** What is left to unwind seen together with what was already done. */
  ghost function Then(done: seq<Action>, u: Unwound): Unwound {
    Unwound(u.h, done + u.actions)
  }

  lemma ThenThen(x: seq<Action>, y: seq<Action>, u: Unwound)
    ensures Then(x, Then(y, u)) == Then(x + y, u)
    ensures Then([], u) == u
  {
    assert x + (y + u.actions) == (x + y) + u.actions;
  }

  /** ipam.ConfigureIface in the pod: look the interface up, raise it, add address and routes. */
  ghost function Configure(w: World, h: State, pod: nat, name: string): Ran {
    var l := Lookup(w, h, pod, name);
    if !l.r.Index? then Ran(l.h, Fail)
    else
      var u := Exec(w, l.h, SetUp(l.r.index));
      if !u.r.Ok? then Ran(u.h, Fail) else Exec(w, u.h, Probe)
  }

  /** How the placement loop ended, with the shared err at that moment. */
  datatype Stop = Completed | SetupFailed | IpamFailed | NoIp4 | ConfigFailed

  predicate ErrSet(s: Stop) {
    s.SetupFailed? || s.IpamFailed? || s.ConfigFailed?
  }

  /** One turn of the loop: how it ended, the closures it registered, the IPAM answer it got. */
  datatype Turn = Turn(h: State, stop: Stop, frames: seq<Frame>, answers: seq<Types020.IPConfig>)

  ghost function PlaceOne(w: World, h: State, a: Args, pod: nat, i: nat, pf: string, rates: Rates): Turn {
    var s := Setup(w, h, a, pod, pf, Eth(i), rates);
    var back := [RollbackFrame(i, pf, s.vf)];
    if !s.ok then Turn(s.h, SetupFailed, back, [])
    else
      var r := Exec(w, s.h, IpamAdd);
      if !r.r.Answer? then Turn(r.h, IpamFailed, back, [])
      else if r.r.ip4.None? then Turn(r.h, NoIp4, back, [])
      else
        var c := Configure(w, r.h, pod, Eth(i));
        if !c.r.Ok? then Turn(c.h, ConfigFailed, back + [IpamFrame(i)], [])
        else Turn(c.h, Completed, back + [IpamFrame(i)], [r.r.ip4.value])
  }

  /** A turn seen together with what earlier turns left. */
  ghost function After(frames: seq<Frame>, answers: seq<Types020.IPConfig>, t: Turn): Turn {
    t.(frames := frames + t.frames, answers := answers + t.answers)
  }

  /** The placement loop from the i-th interface on. */
  ghost function PlaceFrom(w: World, h: State, a: Args, pod: nat, pfs: seq<PfInfo>, reqs: seq<Rates>,
                           placed: seq<nat>, i: nat): Turn
    requires InBounds(placed, |reqs|, |pfs|) && i <= |placed|
    decreases |placed| - i
  {
    if i == |placed| then Turn(h, Completed, [], [])
    else
      var one := PlaceOne(w, h, a, pod, i, pfs[placed[i]].name, reqs[i]);
      if !one.stop.Completed? then one
      else After(one.frames, one.answers, PlaceFrom(w, one.h, a, pod, pfs, reqs, placed, i + 1))
  }

  lemma AfterNothing(t: Turn)
    ensures After([], [], t) == t
  {
  }

  lemma AfterAfter(frames: seq<Frame>, answers: seq<Types020.IPConfig>, s: Turn, t: Turn)
    ensures After(frames, answers, After(s.frames, s.answers, t)) == After(frames + s.frames, answers + s.answers, t)
  {
    assert frames + (s.frames + t.frames) == (frames + s.frames) + t.frames;
    assert answers + (s.answers + t.answers) == (answers + s.answers) + t.answers;
  }

  lemma PlaceStep(w: World, h: State, a: Args, pod: nat, pfs: seq<PfInfo>, reqs: seq<Rates>, placed: seq<nat>,
                  i: nat, frames: seq<Frame>, answers: seq<Types020.IPConfig>)
    requires InBounds(placed, |reqs|, |pfs|) && i < |placed|
    ensures var one := PlaceOne(w, h, a, pod, i, pfs[placed[i]].name, reqs[i]);
            After(frames, answers, PlaceFrom(w, h, a, pod, pfs, reqs, placed, i)) ==
            if !one.stop.Completed? then After(frames, answers, one)
            else After(frames + one.frames, answers + one.answers,
                       PlaceFrom(w, one.h, a, pod, pfs, reqs, placed, i + 1))
  {
    var one := PlaceOne(w, h, a, pod, i, pfs[placed[i]].name, reqs[i]);
    if one.stop.Completed? {
      AfterAfter(frames, answers, one, PlaceFrom(w, one.h, a, pod, pfs, reqs, placed, i + 1));
    }
  }

  datatype AddExit = Fatal | Returned(ok: bool, stop: Stop, actions: seq<Action>, answers: seq<Types020.IPConfig>)

  datatype AddOut = AddOut(h: State, exit: AddExit)

  const EARLY := Returned(false, Completed, [], [])

  /** The placement loop, the print and the unwinding. The print's error does not reach the shared err. */
  ghost function AddBody(w: World, h: State, a: Args, pod: nat, pfs: seq<PfInfo>, reqs: seq<Rates>,
                         placed: seq<nat>): AddOut
    requires InBounds(placed, |reqs|, |pfs|)
  {
    var p := PlaceFrom(w, h, a, pod, pfs, reqs, placed, 0);
    var pr := if p.stop.Completed? then Exec(w, p.h, Probe) else Ran(p.h, Fail);
    var u := Unwind(w, pr.h, a, pod, [UnlockFrame] + p.frames, ErrSet(p.stop));
    AddOut(u.h, Returned(pr.r.Ok?, p.stop, u.actions, p.answers))
  }

  /** cmdAdd once every interface has a place; conf says whether loadConf accepts the configuration. */
  ghost function AddPlaced(w: World, h: State, a: Args, conf: bool, pfs: seq<PfInfo>, reqs: seq<Rates>,
                           placed: seq<nat>): AddOut
    requires InBounds(placed, |reqs|, |pfs|)
  {
    if !conf then AddOut(h, EARLY)
    else
      var o := Exec(w, h, Probe);
      if !o.r.Ok? || a.ns.None? then AddOut(o.h, EARLY)
      else AddBody(w, o.h, a, a.ns.value, pfs, reqs, placed)
  }

  /** cmdAdd between the acquisition and the release of the lock. */
  ghost function Add(w: World, h: State, a: Args, conf: bool): AddOut {
    var p := Exec(w, h, PodInfo);
    if !p.r.Requests? then AddOut(p.h, Fatal)
    else
      var q := Exec(w, p.h, Query);
      if !q.r.Table? then AddOut(q.h, Fatal)
      else
        var k := Exec(w, q.h, Place(|p.r.requests|, |q.r.table|));
        if !k.r.Placed? then AddOut(k.h, Fatal)
        else AddPlaced(w, k.h, a, conf, q.r.table, p.r.requests, k.r.placed)
  }
}
