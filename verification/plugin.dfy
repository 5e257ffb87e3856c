/** The plugin's routines as they run: loops, early returns, and a host and a configuration changed in place. */
module Plugin {
  import opened Text
  import opened Host
  import opened Lifecycle
  import CniTypes
  import Current
  import Merge
  import AnyAdd
  import Types020

  /** The host as an object. Everything outside the process is reached through Call. */
  class Machine {
    var links: Links
    var vfCfg: map<VfId, VfCfg>
    var store: map<string, Record>
    var clock: nat
    const totals: map<string, int>
    const vfLinks: VfMap
    const world: World

    function Get(): State
      reads this
    {
      State(links, totals, vfLinks, vfCfg, store, clock)
    }

    ghost predicate Valid()
      reads this
    {
      UniqueNames(links)
    }

    constructor (s: State, w: World)
      requires UniqueNames(s.links)
      ensures Valid() && Get() == s && world == w
    {
      links, vfCfg, store, clock, totals, vfLinks := s.links, s.vfCfg, s.store, s.clock, s.totals, s.vfLinks;
      world := w;
    }

    method Lookup(ns: Ns, name: string) returns (r: Reply)
      requires Valid()
      ensures r == if Find(links, ns, name).Some? then Index(Find(links, ns, name).value) else Fail
    {
      if i :| i in links && At(links, i, ns, name) {
        FindUnique(links, i, ns, name);
        r := Index(i);
      } else {
        r := Fail;
      }
    }

    /** The calls that change a link. */
    method ChangeLink(op: Op) returns (r: Reply)
      requires Valid() && (op.SetUp? || op.SetDown? || op.SetName? || op.SetNs?) && clock > 0 && world(clock - 1).ok
      modifies this`links
      ensures Valid()
      ensures Ran(Get(), r) == Exec(world, old(Get()).(clock := clock - 1), op)
    {
      var i := op.link;
      if i !in links {
        return Fail;
      }
      var l := links[i];
      match op {
        case SetUp(_) => l := l.(up := true);
        case SetDown(_) => l := l.(up := false);
        case SetName(_, name) =>
          if l.up || exists j | j in links :: j != i && At(links, j, l.ns, name) {
            return Fail;
          }
          l := l.(name := name);
        case SetNs(_, ns) =>
          if exists j | j in links :: j != i && At(links, j, ns, l.name) {
            return Fail;
          }
          l := l.(ns := ns, up := false);
      }
      links := links[i := l];
      r := Ok;
    }

    predicate Changes(op: Op) {
      || op.SetRates? || op.SetVlan? || op.SetUp? || op.SetDown? || op.SetName? || op.SetNs?
      || op.WriteFile? || op.RemoveFile?
    }

    /** The calls that only ask. */
    method Ask(op: Op) returns (r: Reply)
      requires Valid() && !Changes(op) && !op.Random? && clock > 0 && world(clock - 1).ok
      ensures Ran(Get(), r) == Exec(world, Get().(clock := clock - 1), op)
    {
      var f := world(clock - 1);
      match op
      case LinkByName(ns, name) => r := Lookup(ns, name);
      case NumVfs(pf) => r := if pf in totals then Num(totals[pf]) else Fail;
      case Lstat(id) => r := if id in vfLinks then Ok else Fail;
      case ReadDir(id) => r := if id in vfLinks then Names(NamesIn(links, vfLinks[id])) else Fail;
      case StatLink(id, name) => r := if name in NetDir(Get(), id) then Ok else Absent;
      case PciAddr(id) => r := if id in vfLinks then Ok else Fail;
      case ReadFile(key) => r := if key in store then Data(store[key]) else Fail;
      case IpamAdd => r := Answer(f.answer);
      case PodInfo => r := Requests(f.requests);
      case Query => r := Table(f.table);
      case Place(wanted, pfs) => r := if InBounds(f.placed, wanted, pfs) then Placed(f.placed) else Fail;
      case ListNs(ns) => r := if Enumerates(links, ns, f.order) then Ifaces(Listing(links, f.order)) else Fail;
      case _ => r := Ok;
    }

    /** One call into the kernel, a file or another program. */
    method Call(op: Op) returns (r: Reply)
      requires Valid()
      modifies this
      ensures Valid()
      ensures Ran(Get(), r) == Exec(world, old(Get()), op)
    {
      var f := world(clock);
      clock := clock + 1;
      if op.Random? {
        return Index(f.random % 9999);
      }
      if !f.ok {
        return Fail;
      }
      if !Changes(op) {
        r := Ask(op);
        return;
      }
      r := Ok;
      if op.SetRates? {
        if op.id in vfCfg {
          vfCfg := vfCfg[op.id := vfCfg[op.id].(minRate := op.rates.min, maxRate := op.rates.max)];
        }
      } else if op.SetVlan? {
        if op.id !in vfCfg {
          return Fail;
        }
        vfCfg := vfCfg[op.id := vfCfg[op.id].(vlan := op.vlan)];
      } else if op.WriteFile? {
        store := store[op.key := op.rec];
      } else if op.RemoveFile? {
        r := if op.key in store then Ok else Fail;
        store := store - {op.key};
      } else {
        r := ChangeLink(op);
      }
    }
  }

  /** The parsed configuration; setupVF records in it what it is about to save. */
  class NetConf {
    const vlan: int
    var ifname: string
    var vfid: nat

    constructor (vlan: int)
      ensures this.vlan == vlan
    {
      this.vlan, ifname, vfid := vlan, "", 0;
    }
  }

  method RenameLink(m: Machine, ns: Ns, cur: string, name: string) returns (r: Reply)
    requires m.Valid()
    modifies m
    ensures m.Valid() && Ran(m.Get(), r) == Rename(m.world, old(m.Get()), ns, cur, name)
  {
    var l := m.Call(LinkByName(ns, cur));
    if !l.Index? {
      return Fail;
    }
    r := m.Call(SetName(l.index, name));
  }

  /** The VF loop of setupVF. infos survives from turn to turn; the last number has its own exits. */
  method ScanVfs(m: Machine, pf: string, vfTotal: int, rates: Rates)
    returns (vfNum: Option<nat>, infos: seq<string>, ok: bool)
    requires m.Valid()
    modifies m
    ensures m.Valid()
    ensures Scanned(m.Get(), vfNum, infos, ok) == Scan(m.world, old(m.Get()), pf, 0, vfTotal, rates)
  {
    infos := [];
    var vf: nat := 0;
    while vf <= vfTotal - 1
      invariant m.Valid() && infos == []
      invariant Scan(m.world, old(m.Get()), pf, 0, vfTotal, rates)
             == Scan(m.world, m.Get(), pf, vf, vfTotal, rates)
      decreases vfTotal - vf
    {
      var id := VfId(pf, vf);
      var s := m.Call(Lstat(id));
      if !s.Ok? {
        if vf == vfTotal - 1 {
          return None, [], false;
        }
        vf := vf + 1;
        continue;
      }
      var d := m.Call(ReadDir(id));
      if !d.Names? {
        return None, [], false;
      }
      infos := d.names;
      if |infos| == 0 && vf == vfTotal - 1 {
        return None, [], false;
      }
      if |infos| == 0 && vf != vfTotal - 1 {
        vf := vf + 1;
        continue;
      }
      if |infos| <= 2 {
        var p := m.Call(PciAddr(id));
        if !p.Ok? {
          return None, [], false;
        }
        var r := m.Call(SetRates(id, rates));
        return Some(vf), infos, r.Ok?;
      } else {
        return None, [], false;
      }
    }
    return Some(0), infos, false;
  }

  /** The second half of setupVF: into the pod, renamed there, recorded in the configuration and saved. */
  method HandOver(m: Machine, conf: NetConf, a: Args, pod: nat, name: string, podIf: string, vf: nat)
    returns (r: Reply)
    requires m.Valid() && conf.vlan == a.vlan
    modifies m, conf
    ensures m.Valid() && Ran(m.Get(), r) == Hand(m.world, old(m.Get()), a, pod, name, podIf, vf)
  {
    conf.ifname, conf.vfid := podIf, vf;
    var l := m.Call(LinkByName(Init, name));
    if !l.Index? {
      return Fail;
    }
    var vfName := name;
    if name == "eth0" {
      var _ := m.Call(SetDown(l.index));
      var n := m.Call(Random);
      vfName := Sriov(n.index);
      var _ := RenameLink(m, Init, name, vfName);
    }
    var u := m.Call(SetUp(l.index));
    if !u.Ok? {
      return Fail;
    }
    var mv := m.Call(SetNs(l.index, Pod(pod)));
    if !mv.Ok? {
      return Fail;
    }
    var e := m.Call(Probe);
    if !e.Ok? {
      return Fail;
    }
    var fin := RenameLink(m, Pod(pod), vfName, podIf);
    if !fin.Ok? {
      return Fail;
    }
    r := m.Call(WriteFile(Key(a.cid, conf.ifname), Record(conf.ifname, conf.vfid, conf.vlan)));
  }

  method SetupVF(m: Machine, conf: NetConf, a: Args, pod: nat, pf: string, podIf: string, rates: Rates)
    returns (vfNum: Option<nat>, ok: bool)
    requires m.Valid() && conf.vlan == a.vlan
    modifies m, conf
    ensures m.Valid()
    ensures SetupOut(m.Get(), vfNum, ok) == Setup(m.world, old(m.Get()), a, pod, pf, podIf, rates)
  {
    var master := m.Call(LinkByName(Init, pf));
    if !master.Index? {
      return None, false;
    }
    var t := m.Call(NumVfs(pf));
    if !t.Num? {
      return None, false;
    }
    var infos, done;
    vfNum, infos, done := ScanVfs(m, pf, t.num, rates);
    // an error, nothing picked, or a shared VF, which needs the L2 mode
    if !done || vfNum.None? || |infos| != 1 {
      return vfNum, false;
    }
    if conf.vlan != 0 {
      var v := m.Call(SetVlan(VfId(pf, vfNum.value), conf.vlan));
      if !v.Ok? {
        return vfNum, false;
      }
    }
    var b := HandOver(m, conf, a, pod, infos[0], podIf, vfNum.value);
    return vfNum, b.Ok?;
  }

  /** getNetConf with its deferred removal. */
  method GetNetConf(m: Machine, cid: string, ifName: string) returns (r: Reply)
    requires m.Valid()
    modifies m
    ensures m.Valid() && Ran(m.Get(), r) == Consume(m.world, old(m.Get()), Key(cid, ifName))
  {
    r := m.Call(ReadFile(Key(cid, ifName)));
    var _ := m.Call(RemoveFile(Key(cid, ifName)));
  }

  method ReturnLink(m: Machine, pod: nat, ifName: string) returns (r: Reply)
    requires m.Valid()
    modifies m
    ensures m.Valid() && Ran(m.Get(), r) == BringBack(m.world, old(m.Get()), pod, ifName)
  {
    var l := m.Call(LinkByName(Pod(pod), ifName));
    if !l.Index? {
      return Fail;
    }
    var d := m.Call(SetDown(l.index));
    if !d.Ok? {
      return Fail;
    }
    var n := RenameLink(m, Pod(pod), ifName, Dev(l.index));
    if !n.Ok? {
      return Fail;
    }
    var mv := m.Call(SetNs(l.index, Init));
    return if mv.Ok? then Index(l.index) else Fail;
  }

  method EnterAndReturnLink(m: Machine, pod: nat, ifName: string) returns (r: Reply)
    requires m.Valid()
    modifies m
    ensures m.Valid() && Ran(m.Get(), r) == EnterAndReturn(m.world, old(m.Get()), pod, ifName)
  {
    var g := m.Call(Probe);
    if !g.Ok? {
      return Fail;
    }
    var e := m.Call(Probe);
    if !e.Ok? {
      return Fail;
    }
    r := ReturnLink(m, pod, ifName);
  }

  method ResetVfVlan(m: Machine, pf: string, name: string) returns (r: Reply)
    requires m.Valid()
    modifies m
    ensures m.Valid() && Ran(m.Get(), r) == ResetVlan(m.world, old(m.Get()), pf, name)
  {
    var t := m.Call(NumVfs(pf));
    if !t.Num? || t.num <= 0 {
      return Fail;
    }
    var vf: nat := 0;
    var idFound := false;
    ghost var h0 := m.Get();
    while vf < t.num
      invariant m.Valid() && !idFound
      invariant Locate(m.world, h0, pf, 0, t.num, name) == Locate(m.world, m.Get(), pf, vf, t.num, name)
    {
      var s := m.Call(StatLink(VfId(pf, vf), name));
      if !s.Absent? {
        idFound := true;
        break;
      }
      vf := vf + 1;
    }
    if !idFound {
      return Fail;
    }
    var l := m.Call(LinkByName(Init, pf));
    if !l.Index? {
      return Fail;
    }
    r := m.Call(SetVlan(VfId(pf, vf), 0));
  }

  method ResetVlanInInit(m: Machine, vlan: int, pf: string, name: string) returns (r: Reply)
    requires m.Valid()
    modifies m
    ensures m.Valid() && Ran(m.Get(), r) == MaybeResetVlan(m.world, old(m.Get()), vlan, pf, name)
  {
    if vlan == 0 {
      return Ok;
    }
    var e := m.Call(Probe);
    if !e.Ok? {
      return Fail;
    }
    r := ResetVfVlan(m, pf, name);
  }

  method ResetRatesInInit(m: Machine, id: VfId) returns (r: Reply)
    requires m.Valid()
    modifies m
    ensures m.Valid() && Ran(m.Get(), r) == ResetRates(m.world, old(m.Get()), id)
  {
    var e := m.Call(Probe);
    if !e.Ok? {
      return Fail;
    }
    r := m.Call(SetRates(id, Rates(0, 0)));
  }

  method ReleaseVF(m: Machine, a: Args, pod: nat, podIf: string, pf: string, vf: Option<nat>) returns (r: Reply)
    requires m.Valid()
    modifies m
    ensures m.Valid() && Ran(m.Get(), r) == Release(m.world, old(m.Get()), a, pod, podIf, pf, vf)
  {
    var c := GetNetConf(m, a.cid, podIf);
    if !c.Data? {
      return Fail;
    }
    var b := EnterAndReturnLink(m, pod, podIf);
    if !b.Index? {
      return Fail;
    }
    var v := ResetVlanInInit(m, a.vlan, pf, Dev(b.index));
    if !v.Ok? {
      return Fail;
    }
    if vf.None? {
      return Ok;
    }
    r := ResetRatesInInit(m, VfId(pf, vf.value));
  }

  method FindAssociatedMac(vfs: seq<VfInfo>, mac: nat) returns (r: Option<nat>)
    ensures r == FindVf(vfs, mac)
  {
    for i := 0 to |vfs|
      invariant FindVf(vfs, mac) == FindVf(vfs[i..], mac)
    {
      if vfs[i].mac == mac {
        return Some(vfs[i].num);
      }
    }
    return None;
  }

  method FindFunction(pfs: seq<PfInfo>, mac: nat) returns (r: Option<VfId>)
    ensures r == FindMac(pfs, mac)
  {
    for i := 0 to |pfs|
      invariant FindMac(pfs, mac) == FindMac(pfs[i..], mac)
    {
      var v := FindAssociatedMac(pfs[i].vfs, mac);
      if v.Some? {
        return Some(VfId(pfs[i].name, v.value));
      }
    }
    return None;
  }

  method ReleaseVFCustom(m: Machine, a: Args, pod: nat, ifc: Iface, pfs: seq<PfInfo>) returns (exit: DelExit)
    requires m.Valid()
    modifies m
    ensures m.Valid() && DelOut(m.Get(), exit) == ReleaseCustom(m.world, old(m.Get()), a, pod, ifc, pfs)
  {
    var o := m.Call(Probe);
    if !o.Ok? {
      return Done(false);
    }
    var c := GetNetConf(m, a.cid, ifc.name);
    if !c.Data? {
      return Done(false);
    }
    var found := FindFunction(pfs, ifc.mac);
    var foundPf := if found.Some? then found.value.pf else "";
    var b := EnterAndReturnLink(m, pod, ifc.name);
    if !b.Index? {
      return Done(false);
    }
    var v := ResetVlanInInit(m, a.vlan, foundPf, Dev(b.index));
    if !v.Ok? {
      return Done(false);
    }
    if found.None? {
      // the nil VF is dereferenced once the initial namespace is entered
      var p := m.Call(Probe);
      return if p.Ok? then Crashed else Done(false);
    }
    var r := ResetRatesInInit(m, found.value);
    return Done(r.Ok?);
  }

  method CmdDel(m: Machine, a: Args) returns (exit: DelExit)
    requires m.Valid()
    modifies m
    ensures m.Valid() && DelOut(m.Get(), exit) == Del(m.world, old(m.Get()), a)
  {
    if a.ipam {
      var d := m.Call(IpamDel);
      if !d.Ok? {
        return Done(false);
      }
    }
    if a.ns.None? {
      return Done(true);
    }
    var l := m.Call(ListNs(Pod(a.ns.value)));
    if !l.Ifaces? {
      return Done(false);
    }
    var q := m.Call(Query);
    var pfs := if q.Table? then q.table else [];
    ghost var h0 := m.Get();
    for i := 0 to |l.ifaces|
      invariant m.Valid()
      invariant DelLoop(m.world, h0, a, a.ns.value, l.ifaces, pfs)
             == DelLoop(m.world, m.Get(), a, a.ns.value, l.ifaces[i..], pfs)
    {
      if IsEthName(l.ifaces[i].name) {
        var x := ReleaseVFCustom(m, a, a.ns.value, l.ifaces[i], pfs);
        if x.Crashed? {
          return Crashed;
        }
      }
      assert l.ifaces[i..][1..] == l.ifaces[i + 1..];
    }
    return Done(true);
  }

  method LookupInPod(m: Machine, pod: nat, name: string) returns (r: Reply)
    requires m.Valid()
    modifies m
    ensures m.Valid() && Ran(m.Get(), r) == Lifecycle.Lookup(m.world, old(m.Get()), pod, name)
  {
    var e := m.Call(Probe);
    if !e.Ok? {
      return Fail;
    }
    r := m.Call(LinkByName(Pod(pod), name));
  }

  method ConfigureIface(m: Machine, pod: nat, name: string) returns (r: Reply)
    requires m.Valid()
    modifies m
    ensures m.Valid() && Ran(m.Get(), r) == Configure(m.world, old(m.Get()), pod, name)
  {
    var l := LookupInPod(m, pod, name);
    if !l.Index? {
      return Fail;
    }
    var u := m.Call(SetUp(l.index));
    if !u.Ok? {
      return Fail;
    }
    r := m.Call(Probe);
  }

  method RunClosure(m: Machine, a: Args, pod: nat, frame: Frame, failed: bool)
    returns (err: bool, actions: seq<Action>)
    requires m.Valid()
    modifies m
    ensures m.Valid() && Popped(m.Get(), err, actions) == Pop(m.world, old(m.Get()), a, pod, frame, failed)
  {
    err, actions := failed, [];
    match frame
    case UnlockFrame =>
    case IpamFrame(i) =>
      if err {
        var _ := m.Call(IpamDel);
        actions := [LeaseDropped(i)];
      }
    case RollbackFrame(i, pf, vf) =>
      if err {
        var l := LookupInPod(m, pod, Eth(i));
        err := !l.Index?;
        if !err {
          var _ := ReleaseVF(m, a, pod, Eth(i), pf, vf);
          actions := [Released(i)];
        }
      }
  }

  /** Popping the deferred closures; the closure variables are the frames, err is shared. */
  method RunDeferred(m: Machine, a: Args, pod: nat, frames: seq<Frame>, failed: bool) returns (actions: seq<Action>)
    requires m.Valid()
    modifies m
    ensures m.Valid() && Unwound(m.Get(), actions) == Unwind(m.world, old(m.Get()), a, pod, frames, failed)
  {
    var stack, err := frames, failed;
    actions := [];
    ThenThen([], [], Unwind(m.world, m.Get(), a, pod, stack, err));
    while stack != []
      invariant m.Valid()
      invariant Unwind(m.world, old(m.Get()), a, pod, frames, failed)
             == Then(actions, Unwind(m.world, m.Get(), a, pod, stack, err))
      decreases |stack|
    {
      var done;
      err, done := RunClosure(m, a, pod, stack[|stack| - 1], err);
      stack := stack[..|stack| - 1];
      ThenThen(actions, done, Unwind(m.world, m.Get(), a, pod, stack, err));
      actions := actions + done;
    }
    assert actions + [] == actions;
  }

  /** Setup, IPAM and configuration of one interface. */
  method PlaceInterface(m: Machine, conf: NetConf, a: Args, pod: nat, i: nat, pf: string, rates: Rates)
    returns (stop: Stop, frames: seq<Frame>, answers: seq<Types020.IPConfig>)
    requires m.Valid() && conf.vlan == a.vlan
    modifies m, conf
    ensures m.Valid()
    ensures Turn(m.Get(), stop, frames, answers) == PlaceOne(m.world, old(m.Get()), a, pod, i, pf, rates)
    ensures |answers| == if stop.Completed? then 1 else 0
  {
    var vfNum, done := SetupVF(m, conf, a, pod, pf, Eth(i), rates);
    frames := [RollbackFrame(i, pf, vfNum)];
    if !done {
      return SetupFailed, frames, [];
    }
    var r := m.Call(IpamAdd);
    if !r.Answer? {
      return IpamFailed, frames, [];
    }
    if r.ip4.None? {
      return NoIp4, frames, [];
    }
    frames := frames + [IpamFrame(i)];
    var c := ConfigureIface(m, pod, Eth(i));
    if !c.Ok? {
      return ConfigFailed, frames, [];
    }
    return Completed, frames, [r.ip4.value];
  }

  /** The result object, null before the first merge, holds what the answers so far add up to. */
  ghost predicate Sums(finalResult: Current.Result?, answers: seq<Types020.IPConfig>, dns: CniTypes.DNS)
    reads finalResult
  {
    Merge.Accumulated(answers, dns) == if finalResult == null then None else Some(finalResult.Get())
  }

  /** One turn of the placement loop. */
  method TakeTurn(m: Machine, conf: NetConf, a: Args, pod: nat, i: nat, pf: string, rates: Rates, dns: CniTypes.DNS,
                  before: Current.Result?, ghost answers: seq<Types020.IPConfig>)
    returns (stop: Stop, frames: seq<Frame>, got: seq<Types020.IPConfig>, finalResult: Current.Result?)
    requires m.Valid() && conf.vlan == a.vlan && Sums(before, answers, dns) && |answers| == i
    modifies m, conf, if before == null then {} else {before}
    ensures m.Valid()
    ensures Turn(m.Get(), stop, frames, got) == PlaceOne(m.world, old(m.Get()), a, pod, i, pf, rates)
    ensures |got| == if stop.Completed? then 1 else 0
    ensures Sums(finalResult, answers + got, dns)
    ensures finalResult == before || fresh(finalResult)
  {
    hide PlaceOne, Merge.Accumulated, Merge.Extend, Exec;
    stop, frames, got := PlaceInterface(m, conf, a, pod, i, pf, rates);
    finalResult := before;
    if stop.Completed? {
      finalResult := Merge.MergeResult(before, got[0], dns, Eth(i));
      Merge.AccumulatedStep(answers, got[0], dns);
      assert got == [got[0]];
    } else {
      assert answers + got == answers;
    }
  }

  /** The placement loop with the result it accumulates. */
  method PlaceAll(m: Machine, conf: NetConf, a: Args, pod: nat, pfs: seq<PfInfo>, reqs: seq<Rates>,
                  placed: seq<nat>, dns: CniTypes.DNS)
    returns (stop: Stop, stack: seq<Frame>, answers: seq<Types020.IPConfig>, finalResult: Current.Result?)
    requires m.Valid() && conf.vlan == a.vlan && InBounds(placed, |reqs|, |pfs|)
    modifies m, conf
    ensures m.Valid()
    ensures Turn(m.Get(), stop, stack, answers) == PlaceFrom(m.world, old(m.Get()), a, pod, pfs, reqs, placed, 0)
    ensures Sums(finalResult, answers, dns) && (finalResult != null ==> fresh(finalResult))
  {
    stop, stack, answers, finalResult := Completed, [], [], null;
    var i := 0;
    AfterNothing(PlaceFrom(m.world, m.Get(), a, pod, pfs, reqs, placed, 0));
    while i < |placed|
      invariant 0 <= i <= |placed| && m.Valid() && |answers| == i && stop.Completed?
      invariant PlaceFrom(m.world, old(m.Get()), a, pod, pfs, reqs, placed, 0)
             == After(stack, answers, PlaceFrom(m.world, m.Get(), a, pod, pfs, reqs, placed, i))
      invariant Sums(finalResult, answers, dns) && (finalResult != null ==> fresh(finalResult))
    {
      PlaceStep(m.world, m.Get(), a, pod, pfs, reqs, placed, i, stack, answers);
      var frames, got;
      stop, frames, got, finalResult :=
        TakeTurn(m, conf, a, pod, i, pfs[placed[i]].name, reqs[i], dns, finalResult, answers);
      stack, answers := stack + frames, answers + got;
      if !stop.Completed? {
        return;
      }
      i := i + 1;
    }
    assert stack + [] == stack && answers + [] == answers;
  }

  /** cmdAdd from the placement loop to its return: the loop, the print, the deferred closures. */
  method PlaceAndReturn(m: Machine, conf: NetConf, a: Args, pod: nat, pfs: seq<PfInfo>, reqs: seq<Rates>,
                        placed: seq<nat>, dns: CniTypes.DNS)
    returns (exit: AddExit, result: Current.Result?)
    requires m.Valid() && conf.vlan == a.vlan && InBounds(placed, |reqs|, |pfs|)
    modifies m, conf
    ensures m.Valid()
    ensures AddOut(m.Get(), exit) == AddBody(m.world, old(m.Get()), a, pod, pfs, reqs, placed)
    ensures result != null ==> fresh(result) && exit.Returned? && result.Get() == Merge.FinalValue(exit.answers, dns)
    ensures result != null ==>
              AnyAdd.LoopPrints(m.world, old(m.Get()), a, pod, pfs, reqs, placed, dns, result.Get())
    ensures exit.Returned? && exit.ok ==> result != null
  {
    hide AnyAdd.LoopPrints, PlaceFrom, Unwind;
    AnyAdd.PrintsWhatIpamSaid(m.world, m.Get(), a, pod, pfs, reqs, placed, dns);
    var stop, stack, answers, finalResult := PlaceAll(m, conf, a, pod, pfs, reqs, placed, dns);
    var printed := Fail;
    result := null;
    if stop == Completed {
      if finalResult == null {
        finalResult := new Current.Result(Current.Value(Current.IMPLEMENTED, [], [], [], CniTypes.NO_DNS));
      }
      result := finalResult;
      printed := m.Call(Probe);
    }
    var actions := RunDeferred(m, a, pod, [UnlockFrame] + stack, ErrSet(stop));
    exit := Returned(printed.Ok?, stop, actions, answers);
  }

  /** cmdAdd once every interface has a place. result is what it prints, null when it returns earlier. */
  method AddWithPlaces(m: Machine, conf: NetConf, a: Args, confOk: bool, pfs: seq<PfInfo>, reqs: seq<Rates>,
                       placed: seq<nat>, dns: CniTypes.DNS)
    returns (exit: AddExit, result: Current.Result?)
    requires m.Valid() && conf.vlan == a.vlan && InBounds(placed, |reqs|, |pfs|)
    modifies m, conf
    ensures m.Valid()
    ensures AddOut(m.Get(), exit) == AddPlaced(m.world, old(m.Get()), a, confOk, pfs, reqs, placed)
    ensures result != null ==> fresh(result) && exit.Returned? && result.Get() == Merge.FinalValue(exit.answers, dns)
    ensures result != null ==>
              && a.ns.Some?
              && var t := old(m.Get());
                 AnyAdd.LoopPrints(m.world, t.(clock := t.clock + 1), a, a.ns.value, pfs, reqs, placed, dns,
                                   result.Get())
    ensures exit.Returned? && exit.ok ==> result != null
  {
    hide AnyAdd.LoopPrints, Merge.FinalValue, AddBody;
    if !confOk {
      return EARLY, null;
    }
    var o := m.Call(Probe);
    if !o.Ok? || a.ns.None? {
      return EARLY, null;
    }
    exit, result := PlaceAndReturn(m, conf, a, a.ns.value, pfs, reqs, placed, dns);
  }

  /** cmdAdd once the lock is held. */
  method CmdAdd(m: Machine, conf: NetConf, a: Args, confOk: bool, dns: CniTypes.DNS)
    returns (exit: AddExit, result: Current.Result?)
    requires m.Valid() && conf.vlan == a.vlan
    modifies m, conf
    ensures m.Valid()
    ensures AddOut(m.Get(), exit) == Add(m.world, old(m.Get()), a, confOk)
    ensures result != null ==> fresh(result) && exit.Returned? && result.Get() == Merge.FinalValue(exit.answers, dns)
    ensures result != null ==> AnyAdd.Prints(m.world, old(m.Get()), a, dns, result.Get())
    ensures exit.Returned? && exit.ok ==> result != null
  {
    hide AnyAdd.LoopPrints, AnyAdd.Prints, Merge.FinalValue, AddPlaced, Find, Taken, NetDir, Listing, Enumerates;
    ghost var h0 := m.Get();
    result := null;
    var p := m.Call(PodInfo);
    if !p.Requests? {
      return Fatal, null;
    }
    var q := m.Call(Query);
    if !q.Table? {
      return Fatal, null;
    }
    var k := m.Call(Place(|p.requests|, |q.table|));
    if !k.Placed? {
      return Fatal, null;
    }
    exit, result := AddWithPlaces(m, conf, a, confOk, q.table, p.requests, k.placed, dns);
    if result != null {
      AnyAdd.PrintsThen(m.world, h0, a, dns, result.Get());
    }
  }
}
