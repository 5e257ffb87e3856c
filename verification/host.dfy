/** The host a plugin process acts on, and every call it can make there. */
module Host {
  import opened Text
  import Types020

  /** A network namespace: the initial one or the one of a pod. */
  datatype Ns = Init | Pod(id: nat)

  /** A network link; its index is its key in the host and its address never changes. */
  datatype Link = Link(ns: Ns, name: string, up: bool, mac: nat)

  /** A virtual function, by the name of its physical function and its number there. */
  datatype VfId = VfId(pf: string, num: nat)

  datatype VfCfg = VfCfg(vlan: int, minRate: nat, maxRate: nat)

  /** The part of a saved configuration that matters here. */
  datatype Record = Record(ifname: string, vfid: nat, vlan: int)

  datatype Rates = Rates(min: nat, max: nat)

  // the answer of the RDMA hardware query
  datatype VfInfo = VfInfo(num: nat, mac: nat)
  datatype PfInfo = PfInfo(name: string, vfs: seq<VfInfo>)

  /** One entry of the interface list of a namespace. */
  datatype Iface = Iface(name: string, mac: nat)

  type Links = map<nat, Link>
  type VfMap = map<VfId, seq<nat>>

  /** links, store and vfCfg change; totals and vfLinks describe hardware; clock counts calls. */
  datatype State = State(
    links: Links,
    totals: map<string, int>,
    vfLinks: VfMap,
    vfCfg: map<VfId, VfCfg>,
    store: map<string, Record>,
    clock: nat)

  /** What the environment decides about one call: whether it works, and the answers it makes up. */
  datatype Fate = Fate(
    ok: bool,
    random: nat,
    answer: Option<Types020.IPConfig>,
    requests: seq<Rates>,
    table: seq<PfInfo>,
    placed: seq<nat>,
    order: seq<nat>)

  /** The n-th call ever made on the host meets the n-th fate. */
  type World = nat -> Fate

  datatype Op =
    | LinkByName(ns: Ns, name: string)
    | NumVfs(pf: string)
    | Lstat(id: VfId)
    | ReadDir(id: VfId)
    | StatLink(id: VfId, name: string)
    | PciAddr(id: VfId)
    | SetRates(id: VfId, rates: Rates)
    | SetVlan(id: VfId, vlan: int)
    | SetUp(link: nat)
    | SetDown(link: nat)
    | SetName(link: nat, name: string)
    | SetNs(link: nat, ns: Ns)
    | Random
    | Probe
    | WriteFile(key: string, rec: Record)
    | ReadFile(key: string)
    | RemoveFile(key: string)
    | IpamAdd
    | IpamDel
    | PodInfo
    | Query
    | Place(wanted: nat, pfs: nat)
    | ListNs(ns: Ns)
    | Unlock

  datatype Reply =
    | Fail
    | Ok
    | Absent
    | Index(index: nat)
    | Num(num: int)
    | Names(names: seq<string>)
    | Data(rec: Record)
    | Answer(ip4: Option<Types020.IPConfig>)
    | Requests(requests: seq<Rates>)
    | Table(table: seq<PfInfo>)
    | Placed(placed: seq<nat>)
    | Ifaces(ifaces: seq<Iface>)

  datatype Ran = Ran(h: State, r: Reply)

  predicate At(links: Links, i: nat, ns: Ns, name: string) {
    i in links && links[i].ns == ns && links[i].name == name
  }

  ghost function Find(links: Links, ns: Ns, name: string): Option<nat> {
    if exists i :: At(links, i, ns, name) then
      var i :| At(links, i, ns, name);
      Some(i)
    else None
  }

  /** Another link than i has this name in this namespace. */
  ghost predicate Taken(links: Links, i: nat, ns: Ns, name: string) {
    exists j :: j != i && At(links, j, ns, name)
  }

  /** The entries of a net directory: those of the VF's links that are in the initial namespace. */
  function NamesIn(links: Links, ls: seq<nat>): seq<string> {
    if ls == [] then []
    else
      var rest := NamesIn(links, ls[1..]);
      if ls[0] in links && links[ls[0]].ns == Init then [links[ls[0]].name] + rest else rest
  }

  function NetDir(h: State, id: VfId): seq<string> {
    if id in h.vfLinks then NamesIn(h.links, h.vfLinks[id]) else []
  }

  predicate Enumerates(links: Links, ns: Ns, order: seq<nat>) {
    && (forall k | 0 <= k < |order| :: order[k] in links && links[order[k]].ns == ns)
    && (forall i | i in links :: links[i].ns == ns ==> i in order)
    && (forall k, m | 0 <= k < m < |order| :: order[k] != order[m])
  }

  function Listing(links: Links, order: seq<nat>): seq<Iface>
    requires forall k | 0 <= k < |order| :: order[k] in links
  {
    seq(|order|, k requires 0 <= k < |order| => Iface(links[order[k]].name, links[order[k]].mac))
  }

  /** One place per wanted interface; a slice has no more entries than an int can count. */
  predicate InBounds(placed: seq<nat>, wanted: nat, pfs: nat) {
    |placed| == wanted <= MAX_INT && forall k | 0 <= k < wanted :: placed[k] < pfs
  }

  /** One call. A call that fails, or is made on something that is not there, changes nothing. */
  ghost function Exec(w: World, h: State, op: Op): Ran {
    var f := w(h.clock);
    var t := h.(clock := h.clock + 1);
    if op.Random? then Ran(t, Index(f.random % 9999))
    else if !f.ok then Ran(t, Fail)
    else match op
      case LinkByName(ns, name) =>
        var i := Find(h.links, ns, name);
        Ran(t, if i.Some? then Index(i.value) else Fail)
      case NumVfs(pf) => Ran(t, if pf in h.totals then Num(h.totals[pf]) else Fail)
      case Lstat(id) => Ran(t, if id in h.vfLinks then Ok else Fail)
      case ReadDir(id) => Ran(t, if id in h.vfLinks then Names(NetDir(h, id)) else Fail)
      case StatLink(id, name) => Ran(t, if name in NetDir(h, id) then Ok else Absent)
      case PciAddr(id) => Ran(t, if id in h.vfLinks then Ok else Fail)
      case SetRates(id, rates) =>
        if id in h.vfCfg
        then Ran(t.(vfCfg := h.vfCfg[id := h.vfCfg[id].(minRate := rates.min, maxRate := rates.max)]), Ok)
        else Ran(t, Ok)
      case SetVlan(id, vlan) =>
        if id in h.vfCfg then Ran(t.(vfCfg := h.vfCfg[id := h.vfCfg[id].(vlan := vlan)]), Ok)
        else Ran(t, Fail)
      case SetUp(i) =>
        if i in h.links then Ran(t.(links := h.links[i := h.links[i].(up := true)]), Ok) else Ran(t, Fail)
      case SetDown(i) =>
        if i in h.links then Ran(t.(links := h.links[i := h.links[i].(up := false)]), Ok) else Ran(t, Fail)
      case SetName(i, name) =>
        if i in h.links && !h.links[i].up && !Taken(h.links, i, h.links[i].ns, name)
        then Ran(t.(links := h.links[i := h.links[i].(name := name)]), Ok)
        else Ran(t, Fail)
      case SetNs(i, ns) =>
        if i in h.links && !Taken(h.links, i, ns, h.links[i].name)
        then Ran(t.(links := h.links[i := h.links[i].(ns := ns, up := false)]), Ok)
        else Ran(t, Fail)
      case Probe => Ran(t, Ok)
      case WriteFile(key, rec) => Ran(t.(store := h.store[key := rec]), Ok)
      case ReadFile(key) => Ran(t, if key in h.store then Data(h.store[key]) else Fail)
      case RemoveFile(key) => Ran(t.(store := h.store - {key}), if key in h.store then Ok else Fail)
      case IpamAdd => Ran(t, Answer(f.answer))
      case IpamDel => Ran(t, Ok)
      case PodInfo => Ran(t, Requests(f.requests))
      case Query => Ran(t, Table(f.table))
      case Place(wanted, pfs) => Ran(t, if InBounds(f.placed, wanted, pfs) then Placed(f.placed) else Fail)
      case ListNs(ns) =>
        Ran(t, if Enumerates(h.links, ns, f.order) then Ifaces(Listing(h.links, f.order)) else Fail)
      case Unlock => Ran(t, Ok)
  }

  /** FindAssociatedMac on one physical function. */
  function FindVf(vfs: seq<VfInfo>, mac: nat): Option<nat> {
    if vfs == [] then None
    else if vfs[0].mac == mac then Some(vfs[0].num)
    else FindVf(vfs[1..], mac)
  }

  /** The first table entry with this address. */
  function FindMac(pfs: seq<PfInfo>, mac: nat): Option<VfId> {
    if pfs == [] then None
    else
      var v := FindVf(pfs[0].vfs, mac);
      if v.Some? then Some(VfId(pfs[0].name, v.value)) else FindMac(pfs[1..], mac)
  }

  ghost predicate SameButClock(a: State, b: State) {
    a.(clock := b.clock) == b
  }

  // ----- assumptions about hosts -----

  ghost predicate UniqueNames(links: Links) {
    forall i, j | i in links && j in links ::
      links[i].ns == links[j].ns && links[i].name == links[j].name ==> i == j
  }

  /** In this namespace the name dev<k> is only ever worn by the link with index k. */
  ghost predicate DevOk(links: Links, ns: Ns) {
    forall i, k: nat | i in links && links[i].ns == ns && links[i].name == Dev(k) :: k == i
  }

  /** Every VF has its own single link, its number is in range and its configuration exists. */
  ghost predicate Wired(links: Links, vfLinks: VfMap, vfCfg: map<VfId, VfCfg>, totals: map<string, int>) {
    && vfCfg.Keys == vfLinks.Keys
    && (forall id | id in vfLinks :: |vfLinks[id]| == 1 && vfLinks[id][0] in links)
    && (forall a, b | a in vfLinks && b in vfLinks && vfLinks[a] == vfLinks[b] :: a == b)
    && (forall id | id in vfLinks :: id.pf in totals && id.num < totals[id.pf])
  }

  /** The host invariant. */
  ghost predicate Inv(h: State) {
    && UniqueNames(h.links)
    && DevOk(h.links, Init)
    && Wired(h.links, h.vfLinks, h.vfCfg, h.totals)
  }

  lemma FindUnique(links: Links, i: nat, ns: Ns, name: string)
    requires UniqueNames(links) && At(links, i, ns, name)
    ensures Find(links, ns, name) == Some(i)
  {
    assert At(links, i, ns, name);
  }

  lemma FindIsAt(links: Links, ns: Ns, name: string)
    ensures Find(links, ns, name).Some? ==> At(links, Find(links, ns, name).value, ns, name)
    ensures Find(links, ns, name).None? ==> forall i :: !At(links, i, ns, name)
  {
  }

  lemma SingleNetDir(h: State, id: VfId)
    requires id in h.vfLinks && |h.vfLinks[id]| == 1 && h.vfLinks[id][0] in h.links
    ensures var l := h.links[h.vfLinks[id][0]];
            NetDir(h, id) == if l.ns == Init then [l.name] else []
  {
    var ls := h.vfLinks[id];
    assert ls[1..] == [];
    assert NamesIn(h.links, ls[1..]) == [];
  }
}
