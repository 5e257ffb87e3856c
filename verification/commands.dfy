/** The lock protocol with ADD and DEL as the bodies. */
module Commands {
  import opened Text
  import opened Host
  import opened Lifecycle
  import opened Programs
  import opened Lock

  datatype Req = AddReq(a: Args, conf: bool) | DelReq(a: Args)

  function Program(r: Req): Prog {
    match r
    case AddReq(a, conf) => AddP(a, conf)
    case DelReq(a) => DelP(a)
  }

  /** What the body of a request does to a host when nothing interferes. */
  ghost function Effect(w: World, h: State, r: Req): State {
    match r
    case AddReq(a, conf) => Add(w, h, a, conf).h
    case DelReq(a) => Del(w, h, a).h
  }

  /** Does the process live to unlock? */
  ghost predicate Survives(w: World, h: State, r: Req) {
    match r
    case AddReq(a, conf) => !Add(w, h, a, conf).exit.Fatal?
    case DelReq(a) => !Del(w, h, a).exit.Crashed?
  }

  lemma ProgramTame(r: Req)
    ensures Tame(Program(r))
  {
    match r
    case AddReq(a, conf) => AddTame(a, conf);
    case DelReq(a) => DelTame(a);
  }

  /** Running a request alone ends where its effect says, before its unlock unless it died. */
  lemma ProgramRuns(w: World, h: State, r: Req) returns (n: nat)
    ensures var c := Steps(w, Config(Program(r), h), n);
            c.h == Effect(w, h, r) && Stuck(c) && (Survives(w, h, r) <==> c.p.Do?)
  {
    var p;
    match r {
      case AddReq(a, conf) => p := AddRuns(w, h, a, conf);
      case DelReq(a) =>
        DelRuns(w, h, a);
        p := DelEnd(Del(w, h, a).exit);
    }
    n :| Steps(w, Config(Program(r), h), n) == Config(p, Effect(w, h, r));
  }

  lemma CompleteIsEffect(w: World, h: State, r: Req)
    ensures Complete(w, h, Program(r)) == Effect(w, h, r)
  {
    var n := ProgramRuns(w, h, r);
    StuckIsComplete(w, h, Program(r), n);
  }

  lemma Finishes(w: World, h: State, r: Req, p: Prog) returns (n: nat)
    requires p == Program(r) && Survives(w, h, r)
    ensures var q := Steps(w, Config(p, h), n).p; q.Do? && q.op.Unlock?
    ensures Complete(w, h, p) == Effect(w, h, r)
  {
    n := ProgramRuns(w, h, r);
    CompleteIsEffect(w, h, r);
  }

  ghost function ProgramsOf(reqs: map<nat, Req>): Progs {
    map pid | pid in reqs :: Program(reqs[pid])
  }

  /** The effects of these requests, one after another. */
  ghost function Effects(w: World, reqs: map<nat, Req>, h: State, order: seq<nat>): State
    requires forall pid | pid in order :: pid in reqs
    decreases |order|
  {
    if order == [] then h
    else Effect(w, Effects(w, reqs, h, order[..|order| - 1]), reqs[order[|order| - 1]])
  }

  lemma {:induction false} SerialIsEffects(w: World, reqs: map<nat, Req>, h: State, order: seq<nat>)
    requires forall pid | pid in order :: pid in reqs
    ensures Serial(w, ProgramsOf(reqs), h, order) == Effects(w, reqs, h, order)
    decreases |order|
  {
    if order != [] {
      var m := |order| - 1;
      SerialIsEffects(w, reqs, h, order[..m]);
      CompleteIsEffect(w, Effects(w, reqs, h, order[..m]), reqs[order[m]]);
    }
  }

  /** Processes that have not started, on a host, with or without a file left behind. */
  ghost predicate Fresh(reqs: map<nat, Req>, s: Sys) {
    && s.procs.Keys == reqs.Keys && s.takeovers == 0 && s.order == []
    && forall pid | pid in s.procs :: s.procs[pid] == Waiting(0)
  }

  lemma FreshIsInitial(reqs: map<nat, Req>, s: Sys)
    requires Fresh(reqs, s)
    ensures Initial(ProgramsOf(reqs), s)
  {
    forall pid | pid in reqs ensures Tame(ProgramsOf(reqs)[pid]) {
      ProgramTame(reqs[pid]);
    }
  }

  /**
   ADD and DEL in any number and any interleaving, with crashes but no takeover: the host is the effects of
   the requests in lock order, where the last request may have done only some of its calls. Once the lock
   file is gone all have done all of theirs, rollback included.
   */
  lemma CommandsSerialize(w: World, reqs: map<nat, Req>, s: Sys, es: seq<Event>) returns (n: nat)
    requires Fresh(reqs, s)
    requires Play(w, ProgramsOf(reqs), s, es).takeovers == 0
    ensures var t := Play(w, ProgramsOf(reqs), s, es);
            && (forall pid | pid in t.order :: pid in reqs)
            && (t.order == [] ==> t.h == s.h)
            && (t.order != [] ==>
                  var m := |t.order| - 1;
                  t.h == Steps(w, Config(Program(reqs[t.order[m]]), Effects(w, reqs, s.h, t.order[..m])), n).h)
            && (!t.file ==> t.h == Effects(w, reqs, s.h, t.order))
  {
    FreshIsInitial(reqs, s);
    n := Serializability(w, ProgramsOf(reqs), s, es);
    var t := Play(w, ProgramsOf(reqs), s, es);
    SerialIsEffects(w, reqs, s.h, t.order);
    if t.order != [] {
      SerialIsEffects(w, reqs, s.h, t.order[..|t.order| - 1]);
    }
  }

  /** The overlap bound for ADD and DEL, takeovers and foreign unlinks included. */
  lemma CommandsOverlap(w: World, reqs: map<nat, Req>, s: Sys, es: seq<Event>)
    requires Fresh(reqs, s)
    ensures var t := Play(w, ProgramsOf(reqs), s, es);
            |Live(t.procs)| <= t.takeovers + (if t.file then 1 else 0)
  {
    FreshIsInitial(reqs, s);
    BoundedOverlap(w, ProgramsOf(reqs), s, es);
  }

  /**
   After any run, crashes included, that has left the file behind: a waiting command that does not die itself
   recovers the lock, does its whole work on the host as the dead have left it, and the next waiter gets in.
   */
  lemma CommandsRecover(w: World, reqs: map<nat, Req>, s: Sys, past: seq<Event>, pid: nat, next: nat)
    returns (es: seq<Event>)
    requires Fresh(reqs, s) && pid in reqs && next in reqs && pid != next
    requires var t := Play(w, ProgramsOf(reqs), s, past);
             && t.file && t.procs[pid].Waiting? && t.procs[next].Waiting? && t.procs[next].fails < 300
             && Survives(w, t.h, reqs[pid])
    ensures forall e | e in es :: e.pid == pid
    ensures var f := Play(w, ProgramsOf(reqs), s, past).procs[pid].fails; f <= 300 && Opens(pid, 301 - f) <= es
    ensures var h := Play(w, ProgramsOf(reqs), s, past).h;
            var t := Play(w, ProgramsOf(reqs), s, past + es);
            && !t.file && t.h == Effect(w, h, reqs[pid])
            && Next(w, ProgramsOf(reqs), t, Open(next, true)).procs[next] == Critical(Program(reqs[next]))
  {
    hide Survives, Effect, Next, Program, Exec, Complete, Opens;
    var progs := ProgramsOf(reqs);
    var t := Play(w, progs, s, past);
    FailsBounded(w, progs, s, past, pid);
    var n := Finishes(w, t.h, reqs[pid], progs[pid]);
    es := StaleRecovery(w, progs, t, pid, t.procs[pid].fails, next, n);
    PlayOn(w, progs, s, past, es);
  }

  /** A process that still waits has failed 300 times at most. */
  lemma {:induction false} FailsBounded(w: World, progs: Progs, s: Sys, es: seq<Event>, pid: nat)
    requires s.procs.Keys <= progs.Keys && pid in s.procs && s.procs[pid] == Waiting(0)
    ensures Play(w, progs, s, es).procs[pid].Waiting? ==> Play(w, progs, s, es).procs[pid].fails <= 300
    decreases |es|
  {
    if es != [] {
      FailsBounded(w, progs, s, es[..|es| - 1], pid);
      hide Exec;
    }
  }

  /** Every log.Fatal of cmdAdd comes before the first change: only the lock file is left behind. */
  lemma FatalLeavesHost(w: World, h: State, a: Args, conf: bool)
    ensures Add(w, h, a, conf).exit.Fatal? ==> SameButClock(Add(w, h, a, conf).h, h)
  {
    var p := Exec(w, h, PodInfo);
    var q := Exec(w, p.h, Query);
    if p.r.Requests? && q.r.Table? {
      var k := Exec(w, q.h, Place(|p.r.requests|, |q.r.table|));
      if k.r.Placed? {
        PlacedIsNotFatal(w, k.h, a, conf, q.r.table, p.r.requests, k.r.placed);
      }
    }
  }

  lemma PlacedIsNotFatal(w: World, h: State, a: Args, conf: bool, pfs: seq<PfInfo>, reqs: seq<Rates>, placed: seq<nat>)
    requires InBounds(placed, |reqs|, |pfs|)
    ensures !AddPlaced(w, h, a, conf, pfs, reqs, placed).exit.Fatal?
  {
  }
}
