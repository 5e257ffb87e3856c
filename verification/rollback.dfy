/** What the deferred closures of a failed ADD undo, exactly. */
module Rollback {
  import opened Text
  import opened Host
  import opened Lifecycle
  import opened HostInvariant
  import opened Reclaim
  import opened Placement
  import opened Progress
  import opened SetupLaw

  // ----- what is on the stack -----

  /** The closures registered from turn base on: that of the setup, then that of the lease, turn by turn. */
  ghost predicate Ladder(frames: seq<Frame>, base: nat) {
    forall q | 0 <= q < |frames| ::
      if q % 2 == 0 then frames[q].RollbackFrame? && frames[q].i == base + q / 2
      else frames[q] == IpamFrame(base + q / 2)
  }

  /** How many closures the last turn registered. */
  function LastTurn(s: Stop): nat {
    match s
    case Completed => 0
    case ConfigFailed => 2
    case _ => 1
  }

  lemma LadderJoin(one: seq<Frame>, rest: seq<Frame>, base: nat)
    requires Ladder(one, base) && |one| == 2 && Ladder(rest, base + 1)
    ensures Ladder(one + rest, base)
  {
    var all := one + rest;
    forall q | 0 <= q < |all|
      ensures if q % 2 == 0 then all[q].RollbackFrame? && all[q].i == base + q / 2
              else all[q] == IpamFrame(base + q / 2)
    {
      if q >= 2 {
        assert all[q] == rest[q - 2] && q % 2 == (q - 2) % 2 && q / 2 == (q - 2) / 2 + 1;
      }
    }
  }

  lemma OneLadder(w: World, h: State, a: Args, pod: nat, i: nat, pf: string, rates: Rates)
    ensures var one := PlaceOne(w, h, a, pod, i, pf, rates);
            && Ladder(one.frames, i) && |one.answers| == (if one.stop.Completed? then 1 else 0)
            && |one.frames| == (if one.stop.Completed? then 2 else LastTurn(one.stop))
  {
    hide Setup, Configure, Exec;
  }

  lemma {:induction false} PlaceFromLadder(w: World, h: State, a: Args, pod: nat, pfs: seq<PfInfo>, reqs: seq<Rates>,
                                           placed: seq<nat>, i: nat)
    requires InBounds(placed, |reqs|, |pfs|) && i <= |placed|
    ensures var p := PlaceFrom(w, h, a, pod, pfs, reqs, placed, i);
            && Ladder(p.frames, i) && |p.frames| == 2 * |p.answers| + LastTurn(p.stop)
            && (if p.stop.Completed? then i + |p.answers| == |placed| else i + |p.answers| < |placed|)
    decreases |placed| - i
  {
    hide PlaceOne;
    if i < |placed| {
      var one := PlaceOne(w, h, a, pod, i, pfs[placed[i]].name, reqs[i]);
      OneLadder(w, h, a, pod, i, pfs[placed[i]].name, reqs[i]);
      if one.stop.Completed? {
        PlaceFromLadder(w, one.h, a, pod, pfs, reqs, placed, i + 1);
        LadderJoin(one.frames, PlaceFrom(w, one.h, a, pod, pfs, reqs, placed, i + 1).frames, i);
      }
    }
  }

  // ----- unwinding -----

  /** The leases of the turns below m, from the last down to turn i. */
  function Drops(m: nat, i: nat): seq<Action> {
    if m <= i then [] else [LeaseDropped(m - 1)] + Drops(m - 1, i)
  }

  lemma {:induction false} UnwindQuiet(w: World, h: State, a: Args, pod: nat, stack: seq<Frame>)
    ensures Unwind(w, h, a, pod, stack, false) == Unwound(h, [])
    decreases |stack|
  {
    if stack != [] {
      UnwindQuiet(w, h, a, pod, stack[..|stack| - 1]);
    }
  }

  /** found is the last of the first n interfaces that is in the pod, unless a call that failed hid a later one. */
  ghost predicate LastFound(w: World, h: State, pod: nat, n: nat, found: Option<nat>, to: nat) {
    && (found.Some? ==> found.value < n && Find(h.links, Pod(pod), Eth(found.value)).Some?)
    && forall j: nat | j < n && (found.Some? ==> found.value < j) && Find(h.links, Pod(pod), Eth(j)).Some? ::
         SomeFailed(w, h.clock, to)
  }

  /** Leases are dropped down to the interface found, which is released; nothing below it is undone. */
  ghost predicate Undone(w: World, h: State, a: Args, pod: nat, frames: seq<Frame>, u: Unwound, found: Option<nat>,
      at: State) {
    && Ladder(frames, 0)
    && SameButClock(at, h) && at.clock >= h.clock
    && LastFound(w, h, pod, (|frames| + 1) / 2, found, at.clock)
    && match found
       case None => u == Unwound(at, Drops(|frames| / 2, 0))
       case Some(i) =>
         2 * i < |frames| &&
         u == Unwound(Release(w, at, a, pod, Eth(i), frames[2 * i].pf, frames[2 * i].vf).h,
                      Drops(|frames| / 2, i) + [Released(i)])
  }

  datatype Searched = Searched(found: Option<nat>, at: State)

  /** The walk down the closures with err set: the interface at which it stops, and the host at that moment. */
  ghost function Search(w: World, h: State, pod: nat, frames: seq<Frame>): Searched
    decreases |frames|
  {
    if frames == [] then Searched(None, h)
    else
      var rest := frames[..|frames| - 1];
      match frames[|frames| - 1]
      case UnlockFrame => Search(w, h, pod, rest)
      case IpamFrame(_) => Search(w, Exec(w, h, IpamDel).h, pod, rest)
      case RollbackFrame(i, _, _) =>
        var l := Lookup(w, h, pod, Eth(i));
        if l.r.Index? then Searched(Some(i), l.h) else Search(w, l.h, pod, rest)
  }

  lemma SearchStep(w: World, h: State, a: Args, pod: nat, frames: seq<Frame>)
    requires Ladder(frames, 0) && frames != []
    ensures var q := |frames| - 1;
            var p := Pop(w, h, a, pod, frames[q], true);
            Search(w, h, pod, frames) ==
            if q % 2 == 0 && !p.err then Searched(Some(q / 2), Lookup(w, h, pod, Eth(q / 2)).h)
            else Search(w, p.h, pod, frames[..q])
  {
    hide Release, Lookup, Exec, Eth;
  }

  lemma {:induction false} UnwindExact(w: World, h: State, a: Args, pod: nat, frames: seq<Frame>)
    returns (found: Option<nat>, at: State)
    requires Ladder(frames, 0)
    ensures Undone(w, h, a, pod, frames, Unwind(w, h, a, pod, [UnlockFrame] + frames, true), found, at)
    ensures Search(w, h, pod, frames) == Searched(found, at)
    decreases |frames|
  {
    hide Undone, Pop, Ladder, Search;
    if frames == [] {
      found, at := None, h;
      UnwindBottom(w, h, a, pod);
      SearchEnd(w, h, pod);
    } else {
      var q := |frames| - 1;
      var p := Pop(w, h, a, pod, frames[q], true);
      UnwindTop(w, h, a, pod, frames);
      LadderDown(frames);
      SearchStep(w, h, a, pod, frames);
      if q % 2 == 0 && !p.err {
        found, at := Some(q / 2), Lookup(w, h, pod, Eth(q / 2)).h;
        UndoneHit(w, h, a, pod, frames);
      } else {
        found, at := UnwindExact(w, p.h, a, pod, frames[..q]);
        var u := Unwind(w, p.h, a, pod, [UnlockFrame] + frames[..q], true);
        if q % 2 == 1 {
          UndoneDrop(w, h, a, pod, frames, u, found, at);
        } else {
          UndoneMiss(w, h, a, pod, frames, u, found, at);
        }
      }
    }
  }

  lemma SearchEnd(w: World, h: State, pod: nat)
    ensures Search(w, h, pod, []) == Searched(None, h)
  {
  }

  lemma UnwindBottom(w: World, h: State, a: Args, pod: nat)
    ensures Undone(w, h, a, pod, [], Unwind(w, h, a, pod, [UnlockFrame] + [], true), None, h)
  {
    assert ([UnlockFrame] + [])[..0] == [];
  }

  lemma UnwindTop(w: World, h: State, a: Args, pod: nat, frames: seq<Frame>)
    requires frames != []
    ensures var q := |frames| - 1;
            var p := Pop(w, h, a, pod, frames[q], true);
            Unwind(w, h, a, pod, [UnlockFrame] + frames, true) ==
            Then(p.actions, Unwind(w, p.h, a, pod, [UnlockFrame] + frames[..q], p.err))
  {
    hide Pop;
    var stack := [UnlockFrame] + frames;
    assert stack[..|stack| - 1] == [UnlockFrame] + frames[..|frames| - 1];
  }

  lemma LadderDown(frames: seq<Frame>)
    requires Ladder(frames, 0) && frames != []
    ensures var q := |frames| - 1;
            && Ladder(frames[..q], 0)
            && if q % 2 == 0 then frames[q].RollbackFrame? && frames[q].i == q / 2 else frames[q] == IpamFrame(q / 2)
  {
  }

  lemma UndoneHit(w: World, h: State, a: Args, pod: nat, frames: seq<Frame>)
    requires Ladder(frames, 0) && frames != [] && (|frames| - 1) % 2 == 0
    requires !Pop(w, h, a, pod, frames[|frames| - 1], true).err
    ensures var q := |frames| - 1;
            Undone(w, h, a, pod, frames, Unwind(w, h, a, pod, [UnlockFrame] + frames, true),
                   Some(q / 2), Lookup(w, h, pod, Eth(q / 2)).h)
  {
    hide Release, Lookup, Eth, Find, Unwind;
    var q := |frames| - 1;
    UnwindTop(w, h, a, pod, frames);
    LookupStep(w, h, pod, Eth(q / 2));
    var p := Pop(w, h, a, pod, frames[q], true);
    UnwindQuiet(w, p.h, a, pod, [UnlockFrame] + frames[..q]);
    assert Drops(q / 2, q / 2) + [Released(q / 2)] == [Released(q / 2)];
  }

  lemma UndoneDrop(w: World, h: State, a: Args, pod: nat, frames: seq<Frame>, u: Unwound, found: Option<nat>, at: State)
    requires Ladder(frames, 0) && frames != [] && (|frames| - 1) % 2 == 1
    requires var p := Pop(w, h, a, pod, frames[|frames| - 1], true);
             Undone(w, p.h, a, pod, frames[..|frames| - 1], u, found, at)
    ensures Undone(w, h, a, pod, frames, Then([LeaseDropped((|frames| - 1) / 2)], u), found, at)
    ensures Pop(w, h, a, pod, frames[|frames| - 1], true).actions == [LeaseDropped((|frames| - 1) / 2)]
    ensures Pop(w, h, a, pod, frames[|frames| - 1], true).err
  {
    hide Release, Exec, Eth, Find;
    var q := |frames| - 1;
    DropStep(w, h);
    FoundLater(w, h, Exec(w, h, IpamDel).h, pod, q / 2 + 1, found, at.clock);
    if found.Some? {
      var i := found.value;
      assert [LeaseDropped(q / 2)] + (Drops(q / 2, i) + [Released(i)]) == Drops(q / 2 + 1, i) + [Released(i)];
    }
  }

  lemma UndoneMiss(w: World, h: State, a: Args, pod: nat, frames: seq<Frame>, u: Unwound, found: Option<nat>, at: State)
    requires Ladder(frames, 0) && frames != [] && (|frames| - 1) % 2 == 0
    ensures var p := Pop(w, h, a, pod, frames[|frames| - 1], true);
            p.err && Undone(w, p.h, a, pod, frames[..|frames| - 1], u, found, at) ==>
              p.actions == [] && Undone(w, h, a, pod, frames, Then([], u), found, at)
  {
    hide Release, Lookup, Eth, Find;
    var q := |frames| - 1;
    if !Pop(w, h, a, pod, frames[q], true).err
       || !Undone(w, Pop(w, h, a, pod, frames[q], true).h, a, pod, frames[..q], u, found, at) {
      return;
    }
    LookupStep(w, h, pod, Eth(q / 2));
    NotFound(w, h, Lookup(w, h, pod, Eth(q / 2)).h, pod, q / 2, found, at.clock);
    assert [] + u.actions == u.actions;
  }

  lemma DropStep(w: World, h: State)
    ensures Exec(w, h, IpamDel).h == h.(clock := h.clock + 1)
  {
  }

  lemma LookupStep(w: World, h: State, pod: nat, name: string)
    ensures var l := Lookup(w, h, pod, name);
            && SameButClock(l.h, h) && l.h.clock > h.clock
            && (l.r.Index? ==> Find(h.links, Pod(pod), name).Some?)
            && (!l.r.Index? && Find(h.links, Pod(pod), name).Some? ==> SomeFailed(w, h.clock, l.h.clock))
  {
    if !w(h.clock).ok {
    } else if !w(h.clock + 1).ok {
      assert Lookup(w, h, pod, name).h.clock == h.clock + 2;
    }
  }

  lemma FoundLater(w: World, h: State, t: State, pod: nat, n: nat, found: Option<nat>, to: nat)
    requires SameButClock(t, h) && t.clock >= h.clock && LastFound(w, t, pod, n, found, to)
    ensures LastFound(w, h, pod, n, found, to)
  {
    hide Find, Eth;
    if SomeFailed(w, t.clock, to) {
      assert SomeFailed(w, h.clock, to);
    }
  }

  lemma NotFound(w: World, h: State, t: State, pod: nat, n: nat, found: Option<nat>, to: nat)
    requires SameButClock(t, h) && to >= t.clock >= h.clock && LastFound(w, t, pod, n, found, to)
    requires Find(h.links, Pod(pod), Eth(n)).Some? ==> SomeFailed(w, h.clock, t.clock)
    ensures LastFound(w, h, pod, n + 1, found, to)
  {
    hide Find, Eth;
    FoundLater(w, h, t, pod, n, found, to);
    if SomeFailed(w, h.clock, t.clock) {
      assert SomeFailed(w, h.clock, to);
    }
  }

  // ----- cmdAdd -----

  /**
   A failed ADD undoes this and no more: walking down from the interface it failed on, each registered lease
   is dropped until an eth-name is found in the pod; that one interface is released, and the walk's err is
   gone with it. Without err (no IPv4 address, or a print that fails) nothing is undone.
   */
  lemma RollbackExact(w: World, h: State, a: Args, pod: nat, pfs: seq<PfInfo>, reqs: seq<Rates>, placed: seq<nat>)
    returns (found: Option<nat>, at: State)
    requires InBounds(placed, |reqs|, |pfs|)
    ensures var p := PlaceFrom(w, h, a, pod, pfs, reqs, placed, 0);
            var r := AddBody(w, h, a, pod, pfs, reqs, placed);
            && r.exit.Returned? && r.exit.stop == p.stop
            && |p.frames| == 2 * |p.answers| + LastTurn(p.stop)
            && (if p.stop.Completed? then |p.answers| == |placed| else |p.answers| < |placed|)
            && (p.stop.SetupFailed? || p.stop.IpamFailed? || p.stop.ConfigFailed? ==>
                  && !r.exit.ok && Undone(w, p.h, a, pod, p.frames, Unwound(r.h, r.exit.actions), found, at)
                  && Search(w, p.h, pod, p.frames) == Searched(found, at))
            && (p.stop.Completed? || p.stop.NoIp4? ==> r.exit.actions == [] && SameButClock(r.h, p.h))
  {
    hide PlaceFrom, Undone, Unwind, Ladder, Search;
    var p := PlaceFrom(w, h, a, pod, pfs, reqs, placed, 0);
    PlaceFromLadder(w, h, a, pod, pfs, reqs, placed, 0);
    found, at := None, p.h;
    if ErrSet(p.stop) {
      found, at := UnwindExact(w, p.h, a, pod, p.frames);
    } else {
      ProbeOnlyTicks(w, p.h);
      UnwindQuiet(w, if p.stop.Completed? then Exec(w, p.h, Probe).h else p.h, a, pod, [UnlockFrame] + p.frames);
    }
  }

  /** The rollback's release, when its calls work. */
  lemma ReleaseOk(w: World, h: State, a: Args, pod: nat, podIf: string, id: VfId, x: nat)
    requires Inv(h) && DevOk(h.links, Pod(pod)) && AllOk(w, h.clock) && IsEthName(podIf)
    requires At(h.links, x, Pod(pod), podIf) && Key(a.cid, podIf) in h.store
    requires id in h.vfLinks && h.vfLinks[id] == [x] && Find(h.links, Init, id.pf).Some?
    ensures SameButClock(Release(w, h, a, pod, podIf, id.pf, Some(id.num)).h, Freed(h, x, id, Key(a.cid, podIf),
        a.vlan))
  {
    hide Exec, MaybeResetVlan, ResetRates, EnterAndReturn, Consume, UniqueNames, DevOk, Dev, Find, Key, IsEthName;
    var key := Key(a.cid, podIf);
    ConsumeOk(w, h, key);
    var c := Consume(w, h, key).h;
    ConsumeKept(w, h, a.cid, podIf, pod);
    EnterAndReturnOk(w, c, pod, podIf, x);
    EnterAndReturnKept(w, c, pod, podIf, a.cid);
    var b := EnterAndReturn(w, c, pod, podIf).h;
    StillPresent(h.links, x, Back(h.links[x], x), id.pf);
    BothResets(w, b, a.vlan, id, x);
  }

  /** Giving a VF away and freeing it again: what is left of it. */
  lemma FreedAfterGiven(h: State, t: State, id: VfId, x: nat, a: Args, pod: nat, podIf: string, rates: Rates, up: bool)
    requires WasFree(h, id, x) && SameButClock(t, Given(h, id, x, a, pod, podIf, rates, up))
    ensures SameButClock(Freed(t, x, id, Key(a.cid, podIf), a.vlan), Freed(h, x, id, Key(a.cid, podIf), a.vlan))
  {
    hide Key, Dev;
    var key := Key(a.cid, podIf);
    var l := InPod(h.links[x], pod, podIf, up);
    assert h.links[x := l][x := Back(l, x)] == h.links[x := Back(h.links[x], x)];
    var c := Configured(h.vfCfg[id], a.vlan, rates);
    assert h.vfCfg[id := c][id := Reset(c, a.vlan)] == h.vfCfg[id := Reset(h.vfCfg[id], a.vlan)];
    assert h.store[key := Record(podIf, id.num, a.vlan)] - {key} == h.store - {key};
  }

  lemma PfStays(h: State, x: nat, l: Link, pf: string)
    requires Apart(h, pf) && IsVfLink(h.vfLinks, x) && Find(h.links, Init, pf).Some? && x in h.links
    ensures Find(h.links[x := l], Init, pf).Some?
  {
    var j :| At(h.links, j, Init, pf);
    assert At(h.links[x := l], j, Init, pf);
  }

  lemma GivenIsThere(h: State, t: State, id: VfId, x: nat, a: Args, pod: nat, podIf: string, rates: Rates, up: bool)
    requires WasFree(h, id, x) && Apart(h, id.pf) && SameButClock(t, Given(h, id, x, a, pod, podIf, rates, up))
    ensures At(t.links, x, Pod(pod), podIf) && Key(a.cid, podIf) in t.store && Find(t.links, Init, id.pf).Some?
  {
    assert x in h.vfLinks[id];
    PfStays(h, x, InPod(h.links[x], pod, podIf, up), id.pf);
  }

  lemma ReleaseOfGiven(w: World, h: State, t: State, a: Args, pod: nat, k: nat, id: VfId, x: nat, rates: Rates,
      up: bool)
    requires Inv(t) && DevOk(t.links, Pod(pod)) && AllOk(w, t.clock) && WasFree(h, id, x) && Apart(h, id.pf)
    requires k <= MAX_INT && SameButClock(t, Given(h, id, x, a, pod, Eth(k), rates, up))
    ensures SameButClock(Release(w, t, a, pod, Eth(k), id.pf, Some(id.num)).h, Freed(h, x, id, Key(a.cid, Eth(k)),
        a.vlan))
  {
    hide Release, Key, Eth, Find, Inv, DevOk;
    EthIsEthName(k);
    GivenIsThere(h, t, id, x, a, pod, Eth(k), rates, up);
    ReleaseOk(w, t, a, pod, Eth(k), id, x);
    FreedAfterGiven(h, t, id, x, a, pod, Eth(k), rates, up);
  }

  lemma FoundTheLast(w: World, h: State, pod: nat, k: nat, x: nat, found: Option<nat>, to: nat)
    requires LastFound(w, h, pod, k + 1, found, to) && AllOk(w, h.clock) && At(h.links, x, Pod(pod), Eth(k))
    ensures found == Some(k)
  {
    hide Eth;
    FindIsAt(h.links, Pod(pod), Eth(k));
  }

  lemma OneDrop(m: nat, k: nat)
    requires m == k || m == k + 1
    ensures Drops(m, k) == if m == k + 1 then [LeaseDropped(k)] else []
  {
  }

  /** Between PfsApart at the start and Apart now: physical functions do not move. */
  lemma ApartNow(h: State, t: State, a: Args, pod: nat, s: set<nat>, n: nat, id: VfId)
    requires Inv(h) && PfsApart(h) && id in h.vfLinks
    ensures Gave(h, t, a, pod, s, n) ==> Apart(t, id.pf)
  {
    hide UniqueNames, Named, StoreGiven, CfgGiven;
    if Gave(h, t, a, pod, s, n) {
      forall i | At(t.links, i, Init, id.pf) ensures !IsVfLink(t.vfLinks, i) {
        assert At(h.links, i, Init, id.pf);
      }
    }
  }

  /** What is left after a rollback: last is the host after the k turns before the one that failed. */
  ghost predicate OnlyLastUndone(h: State, t: State, a: Args, pod: nat, k: nat, last: State, given: set<nat>,
      id: VfId, x: nat)
    requires Inv(h)
  {
    && Gave(h, last, a, pod, given, k) && WasFree(last, id, x)
    && SameButClock(t, Freed(last, x, id, Key(a.cid, Eth(k)), a.vlan))
  }

  /** The loop ended in a failing IPAM or configuration, and from then on calls work. */
  ghost predicate FailedLate(w: World, h: State, a: Args, pod: nat, pfs: seq<PfInfo>, reqs: seq<Rates>,
      placed: seq<nat>)
    requires InBounds(placed, |reqs|, |pfs|)
  {
    var p := PlaceFrom(w, h, a, pod, pfs, reqs, placed, 0);
    (p.stop.IpamFailed? || p.stop.ConfigFailed?) && AllOk(w, p.h.clock)
  }

  /**
   An ADD that fails after the setup of turn k, with release calls that work, undoes turn k completely and
   none of the turns before it.
   */
  lemma LastTurnUndone(w: World, h: State, a: Args, pod: nat, pfs: seq<PfInfo>, reqs: seq<Rates>, placed: seq<nat>)
    returns (last: State, given: set<nat>, id: VfId, x: nat)
    requires Inv(h) && DevOk(h.links, Pod(pod)) && TempSafe(h, pod) && PfsApart(h)
        && InBounds(placed, |reqs|, |pfs|)
    ensures FailedLate(w, h, a, pod, pfs, reqs, placed) ==>
            var r := AddBody(w, h, a, pod, pfs, reqs, placed);
            var k := |PlaceFrom(w, h, a, pod, pfs, reqs, placed, 0).answers|;
            && k < |placed|
            && r.exit.actions == (if r.exit.stop.ConfigFailed? then [LeaseDropped(k)] else []) + [Released(k)]
            && OnlyLastUndone(h, r.h, a, pod, k, last, given, id, x)
  {
    hide Search, AddBody, PlaceFrom, PlaceOne, Release, Key, Eth, Find, UniqueNames, Wired, DevOk, TempSafe, Freed,
        Given, Evolves, Gave;
    var p := PlaceFrom(w, h, a, pod, pfs, reqs, placed, 0);
    last, given, id, x := h, {}, VfId("", 0), 0;
    if !FailedLate(w, h, a, pod, pfs, reqs, placed) {
      return;
    }
    var k := |p.answers|;
    GaveNothing(h, h, a, pod);
    last, given := PlaceFromGave(w, h, h, a, pod, pfs, reqs, placed, 0, {});
    TempSafeNow(h, last, a, pod, given, k);
    var pf, rates := pfs[placed[k]].name, reqs[k];
    var vf, up;
    x, vf, up := PlaceOneDone(w, last, a, pod, k, pf, rates);
    id := VfId(pf, vf);
    PlaceOneKept(w, last, a, pod, k, pf, rates);
    SameVfs(h, last, a, pod, given, k);
    ApartNow(h, last, a, pod, given, k, id);
    var found, at := RollbackExact(w, h, a, pod, pfs, reqs, placed);
    GivenIsThere(last, p.h, id, x, a, pod, Eth(k), rates, up);
    FoundTheLast(w, p.h, pod, k, x, found, at.clock);
    OneDrop(|p.frames| / 2, k);
    assert p.frames[2 * k] == p.frames[2 * k..][0];
    ReleaseOfGiven(w, last, at, a, pod, k, id, x, rates, up);
  }

  lemma SameVfs(h: State, t: State, a: Args, pod: nat, s: set<nat>, n: nat)
    requires Inv(h) && Gave(h, t, a, pod, s, n)
    ensures t.vfLinks == h.vfLinks
  {
  }

  /** After a turn that failed past its setup all links are back exactly if that turn was the first one. */
  lemma AllBackIffFirst(h: State, t: State, a: Args, pod: nat, k: nat, last: State, given: set<nat>, id: VfId, x: nat)
    requires Inv(h)
    ensures OnlyLastUndone(h, t, a, pod, k, last, given, id, x) ==>
              && (k == 0 <==> forall i | i in h.links && h.links[i].ns == Init ::
                                i in t.links && t.links[i].ns == Init)
              && (k == 0 ==> WasFree(h, id, x) && SameButClock(t, Freed(h, x, id, Key(a.cid, Eth(0)), a.vlan)))
  {
    hide UniqueNames, Wired, Key, Eth, Dev, Named, StoreGiven, CfgGiven;
    if !OnlyLastUndone(h, t, a, pod, k, last, given, id, x) {
    } else if k == 0 {
      GaveNothingMeans(h, last, a, pod, given);
    } else {
      assert given != {};
      var i :| i in given;
      assert i != x && t.links[i] == last.links[i];
    }
  }

  /** One interface: link back, down and renamed, rates 0, a configured vlan 0, no record; nothing else differs. */
  lemma OneInterfaceUndone(w: World, h: State, a: Args, pod: nat, pfs: seq<PfInfo>, reqs: seq<Rates>, placed: seq<nat>)
    returns (id: VfId, x: nat)
    requires Inv(h) && DevOk(h.links, Pod(pod)) && TempSafe(h, pod) && PfsApart(h)
    requires InBounds(placed, |reqs|, |pfs|) && |placed| == 1
    ensures FailedLate(w, h, a, pod, pfs, reqs, placed) ==>
              && WasFree(h, id, x)
              && SameButClock(AddBody(w, h, a, pod, pfs, reqs, placed).h, Freed(h, x, id, Key(a.cid, Eth(0)), a.vlan))
  {
    hide AddBody, PlaceFrom, Key, Eth, Freed, OnlyLastUndone, Inv, DevOk, TempSafe, PfsApart, FailedLate;
    var last, given;
    last, given, id, x := LastTurnUndone(w, h, a, pod, pfs, reqs, placed);
    if !FailedLate(w, h, a, pod, pfs, reqs, placed) {
      return;
    }
    AllBackIffFirst(h, AddBody(w, h, a, pod, pfs, reqs, placed).h, a, pod, 0, last, given, id, x);
  }

  // ----- a record that was never written -----

  /** Without a record the rollback's release ends before it changes anything, whichever calls work. */
  lemma NoRecordNoRollback(w: World, h: State, a: Args, pod: nat, podIf: string, pf: string, vf: Option<nat>)
    requires Key(a.cid, podIf) !in h.store
    ensures var r := Release(w, h, a, pod, podIf, pf, vf);
            r.r == Fail && SameButClock(r.h, h)
  {
    ConsumeNothing(w, h, Key(a.cid, podIf));
  }

  /**
   A VF is lost when saving the record is what fails: the link is in the pod under its eth-name by then, so
   the rollback finds it, but neither the rollback nor any DEL of this container takes it back.
   */
  lemma LostWithoutRecord(w: World, h: State, a: Args, pod: nat, x: nat, name: string, k: nat, vf: nat,
                          w': World, pf: string, vfNum: Option<nat>)
    requires UniqueNames(h.links) && At(h.links, x, Init, name) && Key(a.cid, Eth(k)) !in h.store && name != Eth(k)
    requires forall j :: !At(h.links, j, Pod(pod), name) && !At(h.links, j, Pod(pod), Eth(k))
    requires (forall c: nat | h.clock <= c < h.clock + 5 :: w(c).ok) && !w(h.clock + 5).ok
    ensures var r := HandRest(w, h, a, pod, x, name, Eth(k), vf);
            && r.r == Fail && At(r.h.links, x, Pod(pod), Eth(k))
            && SameButClock(Release(w', r.h, a, pod, Eth(k), pf, vfNum).h, r.h)
            && !Reclaimable(r.h, pod, a.cid, x)
  {
    hide Key, Eth, Release;
    UpToTheRecord(w, h, a, pod, x, name, Eth(k), vf);
    NoRecordNoRollback(w', HandRest(w, h, a, pod, x, name, Eth(k), vf).h, a, pod, Eth(k), pf, vfNum);
  }

  lemma UpToTheRecord(w: World, h: State, a: Args, pod: nat, x: nat, name: string, podIf: string, vf: nat)
    requires UniqueNames(h.links) && At(h.links, x, Init, name)
    requires forall j :: !At(h.links, j, Pod(pod), name) && !At(h.links, j, Pod(pod), podIf)
    requires (forall c: nat | h.clock <= c < h.clock + 5 :: w(c).ok) && !w(h.clock + 5).ok
    ensures var r := HandRest(w, h, a, pod, x, name, podIf, vf);
            r.r == Fail && At(r.h.links, x, Pod(pod), podIf) && r.h.store == h.store
  {
    hide Key, Exec, Rename;
    var mv := h.links[x := Link(Pod(pod), name, false, h.links[x].mac)];
    var en := h.(clock := h.clock + 3, links := mv);
    IntoThePod(w, h, x, pod);
    assert forall j | j != x :: At(mv, j, Pod(pod), name) == At(h.links, j, Pod(pod), name);
    assert forall j | j != x :: At(mv, j, Pod(pod), podIf) == At(h.links, j, Pod(pod), podIf);
    RenameAlone(w, en, Pod(pod), name, podIf, x);
    FailedWrite(w, Rename(w, en, Pod(pod), name, podIf).h, Key(a.cid, podIf), Record(podIf, vf, a.vlan));
  }

  lemma FailedWrite(w: World, h: State, key: string, rec: Record)
    requires !w(h.clock).ok
    ensures Exec(w, h, WriteFile(key, rec)) == Ran(h.(clock := h.clock + 1), Fail)
  {
  }
}
