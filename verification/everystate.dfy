/**
 The host invariant in every state of every run, also halfway through a body. A body cut off after some
 calls leaves the host as the same body does whose later calls all fail, and for those the invariant is known.
 */
module EveryState {
  import opened Text
  import opened Host
  import opened Lifecycle
  import opened Programs
  import opened HostInvariant
  import opened Lock
  import opened Commands

  /** The world in which every call from this moment on fails. */
  ghost function Cut(w: World, moment: nat): World {
    (n: nat) => if n < moment then w(n) else w(n).(ok := false)
  }

  lemma FailingCall(w: World, h: State, op: Op)
    requires !w(h.clock).ok
    ensures SameButClock(Exec(w, h, op).h, h)
  {
  }

  lemma ExecTicks(w: World, h: State, op: Op)
    ensures Exec(w, h, op).h.clock == h.clock + 1
  {
  }

  lemma {:induction false} ClockGrows(w: World, c: Config, n: nat)
    ensures Steps(w, c, n).h.clock >= c.h.clock
    decreases n
  {
    if n > 0 {
      ClockGrows(w, Step(w, c), n - 1);
      if c.p.Do? {
        ExecTicks(w, c.h, c.p.op);
      }
    }
  }

  /** Until the cut nothing differs. */
  lemma {:induction false} CutAgrees(w: World, c: Config, n: nat, moment: nat)
    requires Steps(w, c, n).h.clock <= moment
    ensures Steps(Cut(w, moment), c, n) == Steps(w, c, n)
    decreases n
  {
    if n > 0 {
      var d := Step(w, c);
      ClockGrows(w, d, n - 1);
      if c.p.Do? && !c.p.op.Unlock? {
        ExecTicks(w, c.h, c.p.op);
        SameFate(w, Cut(w, moment), c.h, c.p.op);
      }
      CutAgrees(w, d, n - 1, moment);
    }
  }

  lemma SameFate(w: World, w': World, h: State, op: Op)
    requires w(h.clock) == w'(h.clock)
    ensures Exec(w, h, op) == Exec(w', h, op)
  {
  }

  /** After the cut nothing changes. */
  lemma {:induction false} Frozen(w: World, c: Config, n: nat)
    requires forall m: nat | m >= c.h.clock :: !w(m).ok
    ensures SameButClock(Steps(w, c, n).h, c.h)
    decreases n
  {
    if n > 0 {
      var d := Step(w, c);
      if c.p.Do? && !c.p.op.Unlock? {
        ExecTicks(w, c.h, c.p.op);
        FailingCall(w, c.h, c.p.op);
      }
      Frozen(w, d, n - 1);
    }
  }

  lemma CutRun(w: World, c: Config, n: nat, w': World, m: nat)
    requires w' == Cut(w, Steps(w, c, n).h.clock) && Stuck(Steps(w', c, m))
    ensures SameButClock(Steps(w', c, m).h, Steps(w, c, n).h)
  {
    var s := Steps(w, c, n);
    CutAgrees(w, c, n, s.h.clock);
    if m <= n {
      StepsAdd(w', c, m, n - m);
      StuckStays(w', Steps(w', c, m), n - m);
    } else {
      StepsAdd(w', c, n, m - n);
      Frozen(w', s, m - n);
    }
  }

  /** A body stopped after n calls left the host as the whole body does in a world that fails from there. */
  lemma PrefixIsFailingBody(w: World, h: State, r: Req, n: nat) returns (w': World)
    ensures w' == Cut(w, Steps(w, Config(Program(r), h), n).h.clock)
    ensures SameButClock(Effect(w', h, r), Steps(w, Config(Program(r), h), n).h)
  {
    w' := Cut(w, Steps(w, Config(Program(r), h), n).h.clock);
    var m := ProgramRuns(w', h, r);
    CutRun(w, Config(Program(r), h), n, w', m);
  }

  function ArgsOf(r: Req): Args {
    r.a
  }

  lemma EffectKept(w: World, h: State, r: Req)
    requires Inv(h)
    ensures Kept(h, Effect(w, h, r), PodOf(ArgsOf(r)), ArgsOf(r).cid)
  {
    match r
    case AddReq(a, conf) => AddKeepsInvariant(w, h, a, conf);
    case DelReq(a) => DelKeepsInvariant(w, h, a);
  }

  /** Halfway through any ADD, rollback or DEL: the invariant holds, other pods and containers are untouched. */
  lemma KeptHalfway(w: World, h: State, r: Req, n: nat)
    requires Inv(h)
    ensures Kept(h, Steps(w, Config(Program(r), h), n).h, PodOf(ArgsOf(r)), ArgsOf(r).cid)
  {
    var w' := PrefixIsFailingBody(w, h, r, n);
    EffectKept(w', h, r);
  }

  // ----- every state of every run -----

  /** In no state of the run are two bodies live: no process enters while another is inside, dead holders aside. */
  ghost predicate NeverTwo(w: World, progs: Progs, s: Sys, es: seq<Event>)
    requires s.procs.Keys <= progs.Keys
  {
    forall i: nat | i <= |es| :: AtMostOne(w, progs, s, es, i)
  }

  ghost predicate AtMostOne(w: World, progs: Progs, s: Sys, es: seq<Event>, i: nat)
    requires s.procs.Keys <= progs.Keys && i <= |es|
  {
    |Live(Play(w, progs, s, es[..i]).procs)| <= 1
  }

  /** The host is n calls of the live body away from a host with the invariant; without a live body it has it. */
  ghost predicate OnTrack(w: World, reqs: map<nat, Req>, t: Sys, base: State, n: nat) {
    && t.procs.Keys == reqs.Keys && Inv(base)
    && (Live(t.procs) == {} ==> Inv(t.h))
    && forall pid | pid in t.procs && t.procs[pid].Critical? ::
         var c := Steps(w, Config(Program(reqs[pid]), base), n); t.h == c.h && t.procs[pid].p == c.p
  }

  lemma OnTrackInv(w: World, reqs: map<nat, Req>, t: Sys, base: State, n: nat)
    requires OnTrack(w, reqs, t, base, n)
    ensures Inv(t.h)
  {
    hide Inv;
    if pid :| pid in t.procs && t.procs[pid].Critical? {
      KeptHalfway(w, base, reqs[pid], n);
      KeptIsInv(base, t.h, PodOf(ArgsOf(reqs[pid])), ArgsOf(reqs[pid]).cid);
    } else {
      assert Live(t.procs) == {};
    }
  }

  lemma KeptIsInv(h: State, t: State, pod: nat, cid: string)
    requires Kept(h, t, pod, cid)
    ensures Inv(t)
  {
  }

  lemma OnlyLive(procs: map<nat, Proc>, pid: nat, other: nat)
    requires |Live(procs)| <= 1 && pid in procs && procs[pid].Critical? && other in procs && procs[other].Critical?
    ensures other == pid
  {
    if other != pid {
      TwoMembers(Live(procs), pid, other);
    }
  }

  lemma TwoMembers(s: set<nat>, a: nat, b: nat)
    requires a in s && b in s && a != b
    ensures |s| >= 2
  {
    assert s == {a, b} + (s - {a, b});
  }

  /** One more call of a body. */
  lemma NextStep(w: World, r: Req, base: State, n: nat)
    ensures Steps(w, Config(Program(r), base), n + 1) == Step(w, Steps(w, Config(Program(r), base), n))
  {
    hide Program, Step;
    StepsAdd(w, Config(Program(r), base), n, 1);
    var c := Steps(w, Config(Program(r), base), n);
    assert Steps(w, c, 1) == Steps(w, Step(w, c), 0);
  }

  lemma OnTrackStep(w: World, reqs: map<nat, Req>, s: Sys, base: State, n: nat, e: Event)
    returns (base': State, n': nat)
    requires OnTrack(w, reqs, s, base, n) && Sane(s.procs)
    requires |Live(s.procs)| <= 1 && |Live(Next(w, ProgramsOf(reqs), s, e).procs)| <= 1
    ensures OnTrack(w, reqs, Next(w, ProgramsOf(reqs), s, e), base', n')
  {
    hide Inv, Tame, Exec, Program;
    var progs := ProgramsOf(reqs);
    var t := Next(w, progs, s, e);
    base', n' := base, n;
    OnTrackInv(w, reqs, s, base, n);
    if e.pid in s.procs {
      var me, now := s.procs[e.pid], t.procs[e.pid];
      if now.Critical? {
        forall pid | pid in t.procs && t.procs[pid].Critical? ensures pid == e.pid {
          OnlyLive(t.procs, e.pid, pid);
        }
        assert e.pid in Live(t.procs);
        if !me.Critical? {
          base', n' := s.h, 0;
        } else if e.Run? {
          NextStep(w, reqs[e.pid], base, n);
          n' := n + 1;
        }
      } else {
        assert forall pid | pid in t.procs && t.procs[pid].Critical? :: t.procs[pid] == s.procs[pid];
        assert t.h == s.h;
      }
    }
  }

  lemma {:induction false} AlwaysOnTrack(w: World, reqs: map<nat, Req>, s: Sys, es: seq<Event>)
    returns (base: State, n: nat)
    requires Fresh(reqs, s) && Inv(s.h) && NeverTwo(w, ProgramsOf(reqs), s, es)
    ensures OnTrack(w, reqs, Play(w, ProgramsOf(reqs), s, es), base, n)
    decreases |es|
  {
    hide Inv, Next, Sane, OnTrack, NeverTwo;
    var progs := ProgramsOf(reqs);
    if es == [] {
      base, n := s.h, 0;
      FreshOnTrack(w, reqs, s);
    } else {
      var m := |es| - 1;
      NeverTwoBefore(w, progs, s, es);
      base, n := AlwaysOnTrack(w, reqs, s, es[..m]);
      FreshIsInitial(reqs, s);
      AlwaysSane(w, progs, s, es[..m]);
      base, n := OnTrackStep(w, reqs, Play(w, progs, s, es[..m]), base, n, es[m]);
    }
  }

  lemma NeverTwoBefore(w: World, progs: Progs, s: Sys, es: seq<Event>)
    requires s.procs.Keys <= progs.Keys && es != [] && NeverTwo(w, progs, s, es)
    ensures NeverTwo(w, progs, s, es[..|es| - 1])
    ensures |Live(Play(w, progs, s, es[..|es| - 1]).procs)| <= 1 && |Live(Play(w, progs, s, es).procs)| <= 1
  {
    hide AtMostOne;
    var m := |es| - 1;
    AtMostOneNow(w, progs, s, es, m);
    AtMostOneNow(w, progs, s, es, |es|);
    forall i: nat | i <= m ensures AtMostOne(w, progs, s, es[..m], i) {
      AtMostOneEarlier(w, progs, s, es, m, i);
    }
  }

  lemma AtMostOneNow(w: World, progs: Progs, s: Sys, es: seq<Event>, i: nat)
    requires s.procs.Keys <= progs.Keys && i <= |es| && AtMostOne(w, progs, s, es, i)
    ensures |Live(Play(w, progs, s, es[..i]).procs)| <= 1
    ensures i == |es| ==> |Live(Play(w, progs, s, es).procs)| <= 1
  {
    hide Play;
    assert es[..|es|] == es;
  }

  lemma AtMostOneEarlier(w: World, progs: Progs, s: Sys, es: seq<Event>, m: nat, i: nat)
    requires s.procs.Keys <= progs.Keys && i <= m <= |es| && AtMostOne(w, progs, s, es, i)
    ensures AtMostOne(w, progs, s, es[..m], i)
  {
    hide Play;
    assert es[..m][..i] == es[..i];
  }

  lemma FreshOnTrack(w: World, reqs: map<nat, Req>, s: Sys)
    requires Fresh(reqs, s) && Inv(s.h)
    ensures OnTrack(w, reqs, s, s.h, 0)
  {
  }

  /**
   Any number of ADDs and DELs, interleaved, with crashes and takeovers: as long as no process enters while
   another body is live, the invariant holds in every state. Taking over from a dead holder does no harm.
   */
  lemma InvariantAlways(w: World, reqs: map<nat, Req>, s: Sys, es: seq<Event>)
    requires Fresh(reqs, s) && Inv(s.h) && NeverTwo(w, ProgramsOf(reqs), s, es)
    ensures Inv(Play(w, ProgramsOf(reqs), s, es).h)
  {
    hide Inv, OnTrack;
    var base, n := AlwaysOnTrack(w, reqs, s, es);
    OnTrackInv(w, reqs, Play(w, ProgramsOf(reqs), s, es), base, n);
  }

  lemma {:induction false} TakeoversOfPrefix(w: World, progs: Progs, s: Sys, es: seq<Event>, i: nat)
    requires s.procs.Keys <= progs.Keys && i <= |es|
    ensures Play(w, progs, s, es[..i]).takeovers <= Play(w, progs, s, es).takeovers
    decreases |es|
  {
    assert es[..|es|] == es;
    if i < |es| {
      var m := |es| - 1;
      assert es[..m][..i] == es[..i];
      TakeoversOfPrefix(w, progs, s, es[..m], i);
      TakeoversGrow(w, progs, Play(w, progs, s, es[..m]), es[m]);
    }
  }

  /** Without a takeover nothing more is needed: bodies cannot overlap. */
  lemma InvariantWithoutTakeover(w: World, reqs: map<nat, Req>, s: Sys, es: seq<Event>)
    requires Fresh(reqs, s) && Inv(s.h)
    requires Play(w, ProgramsOf(reqs), s, es).takeovers == 0
    ensures Inv(Play(w, ProgramsOf(reqs), s, es).h)
  {
    hide Inv;
    FreshIsInitial(reqs, s);
    forall i: nat | i <= |es| ensures AtMostOne(w, ProgramsOf(reqs), s, es, i) {
      TakeoversOfPrefix(w, ProgramsOf(reqs), s, es, i);
      CommandsOverlap(w, reqs, s, es[..i]);
    }
    InvariantAlways(w, reqs, s, es);
  }

  // ----- what holds under any overlap -----

  /** The part of the invariant that no interleaving of any programs can break. */
  ghost predicate Core(h: State, t: State) {
    && UniqueNames(t.links) && Wired(t.links, t.vfLinks, t.vfCfg, t.totals)
    && t.vfLinks == h.vfLinks && t.totals == h.totals && t.vfCfg.Keys == h.vfCfg.Keys && t.links.Keys == h.links.Keys
    && forall i | i in h.links :: t.links[i].mac == h.links[i].mac
  }

  lemma CoreStep(w: World, h: State, t: State, op: Op)
    requires Core(h, t)
    ensures Core(h, Exec(w, t, op).h)
  {
    hide Exec;
    ExecFrame(w, t, op);
    var t' := Exec(w, t, op).h;
    WiredKeys(t.links, t'.links, t.vfLinks, t.vfCfg, t'.vfCfg, t.totals);
    hide Wired;
    if t'.links != t.links {
      ChangeKeepsUnique(t, op, t');
    }
  }

  lemma ChangeKeepsUnique(h: State, op: Op, t: State)
    requires UniqueNames(h.links) && LinkChange(h, op, t)
    ensures UniqueNames(t.links)
  {
    var x := op.link;
    forall j | j in h.links && j != x ensures !(t.links[j].ns == t.links[x].ns && t.links[j].name == t.links[x].name) {
      if op.SetName? || op.SetNs? {
        assert !At(h.links, j, t.links[x].ns, t.links[x].name);
      }
    }
  }

  /**
   Any programs in any interleaving, overlap included: names stay unique, every VF keeps its one link, and the
   links and their addresses stay the same.
   */
  lemma {:induction false} CoreAlways(w: World, progs: Progs, s: Sys, es: seq<Event>)
    requires s.procs.Keys <= progs.Keys && UniqueNames(s.h.links)
    requires Wired(s.h.links, s.h.vfLinks, s.h.vfCfg, s.h.totals)
    ensures Core(s.h, Play(w, progs, s, es).h)
    decreases |es|
  {
    hide UniqueNames, Wired;
    if es != [] {
      var m := |es| - 1;
      CoreAlways(w, progs, s, es[..m]);
      hide Core;
      CoreNext(w, progs, s.h, Play(w, progs, s, es[..m]), es[m]);
    }
  }

  lemma CoreNext(w: World, progs: Progs, h: State, s: Sys, e: Event)
    requires s.procs.Keys <= progs.Keys && Core(h, s.h)
    ensures Core(h, Next(w, progs, s, e).h)
  {
    hide Core, Exec;
    if e.Run? && e.pid in s.procs && (s.procs[e.pid].Critical? || s.procs[e.pid].Unlocked?) && s.procs[e.pid].p.Do? {
      CoreStep(w, h, s.h, s.procs[e.pid].p.op);
    }
  }

  /** A pod holds a VF when the VF's link is in its namespace. */
  ghost predicate Holds(h: State, pod: nat, id: VfId) {
    id in h.vfLinks && exists i :: i in h.vfLinks[id] && i in h.links && h.links[i].ns == Pod(pod)
  }

  /** No VF has two holders, and no link serves two VFs. */
  lemma OneHolder(h: State, p: nat, q: nat, a: VfId, b: VfId)
    requires Inv(h) && Holds(h, p, a) && Holds(h, q, b)
    ensures a == b ==> p == q
    ensures a != b ==> forall i :: !(i in h.vfLinks[a] && i in h.vfLinks[b])
  {
    var x, y := h.vfLinks[a], h.vfLinks[b];
    assert x == [x[0]] && y == [y[0]];
  }

  lemma ElsewhereKept(links: Links, links': Links, vfLinks: VfMap, pod: nat, q: nat, i: nat)
    requires LinksEvolve(links, links', vfLinks, pod) && q != pod && i in links
    ensures i in links' && (links'[i].ns == Pod(q) <==> links[i].ns == Pod(q))
  {
  }

  lemma HolderOf(h: State, q: nat, id: VfId)
    requires Inv(h) && id in h.vfLinks
    ensures var i := h.vfLinks[id][0]; i in h.links && (Holds(h, q, id) <==> h.links[i].ns == Pod(q))
  {
    var ls := h.vfLinks[id];
    assert ls == [ls[0]];
  }

  lemma HoldsKept(h: State, t: State, pod: nat, cid: string, q: nat, id: VfId)
    requires Inv(h) && Kept(h, t, pod, cid) && q != pod
    ensures Holds(t, q, id) <==> Holds(h, q, id)
  {
    if id in h.vfLinks {
      hide Holds;
      HolderOf(h, q, id);
      HolderOf(t, q, id);
      ElsewhereKept(h.links, t.links, h.vfLinks, pod, q, h.vfLinks[id][0]);
    }
  }

  /** A command for one pod takes no VF from another, wherever it is stopped. */
  lemma NobodyElsesVf(w: World, h: State, r: Req, n: nat, q: nat, id: VfId)
    requires Inv(h) && q != PodOf(ArgsOf(r))
    ensures Holds(Steps(w, Config(Program(r), h), n).h, q, id) <==> Holds(h, q, id)
  {
    KeptHalfway(w, h, r, n);
    HoldsKept(h, Steps(w, Config(Program(r), h), n).h, PodOf(ArgsOf(r)), ArgsOf(r).cid, q, id);
  }
}
