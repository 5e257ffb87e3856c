/**
 The shared-memory lock: any number of ADD and DEL processes on one host, interleaved call by call, with
 crashes at any point, takeovers after the timeout and unlinks of somebody else's file.
 */
module Lock {
  import opened Text
  import opened Host
  import opened Programs

  /** Five minutes of one-second retries. */
  const TRIES: nat := 60 * 5

  datatype Opened = Entered(takeover: bool) | Retry | GiveUp

  /** The next open of a process that failed this often: exclusive creation, at last the existing file. */
  function OpenOnce(fails: nat, file: bool, ok: bool): Opened {
    if fails < TRIES then (if ok && !file then Entered(false) else Retry)
    else if ok && file then Entered(true) else GiveUp
  }

  /** What one process meets at its n-th open: whether the file is there, whether the call works. */
  datatype Sight = Sight(file: bool, ok: bool)

  /**
   acquireShmMutex. opens counts the calls made. The first 300 are exclusive creations, of which the first that works
   on an absent file ends it; only then the existing file is opened, once.
   */
  method AcquireShmMutex(sights: nat -> Sight) returns (r: Opened, opens: nat)
    ensures 1 <= opens <= 301 && !r.Retry?
    ensures forall i | 0 <= i < opens - 1 :: !sights(i).ok || sights(i).file
    ensures r == Entered(false) <==> opens <= 300
    ensures r == Entered(false) ==> sights(opens - 1) == Sight(false, true)
    ensures r == Entered(true) <==> opens == 301 && sights(300) == Sight(true, true)
    ensures r == GiveUp <==> opens == 301 && sights(300) != Sight(true, true)
    ensures r == OpenOnce(opens - 1, sights(opens - 1).file, sights(opens - 1).ok)
    ensures forall i | 0 <= i < opens - 1 :: OpenOnce(i, sights(i).file, sights(i).ok) == Retry
  {
    opens := 0;
    for i := 0 to TRIES
      invariant opens == i
      invariant forall j | 0 <= j < i :: OpenOnce(j, sights(j).file, sights(j).ok) == Retry
    {
      var s := sights(i);
      opens := opens + 1;
      if s.ok && !s.file {
        return Entered(false), opens;
      }
    }
    var s := sights(TRIES);
    opens := opens + 1;
    return if s.ok && s.file then Entered(true) else GiveUp, opens;
  }

  // ----- the transition system -----

  datatype Proc = Waiting(fails: nat) | Critical(p: Prog) | Unlocked(p: Prog) | Gone

  /** order records who entered the critical section, takeovers how often that was by takeover. */
  datatype Sys = Sys(file: bool, h: State, procs: map<nat, Proc>, takeovers: nat, order: seq<nat>)

  /** ok is the outcome of the lock-file call the process makes, if it makes one. */
  datatype Event = Open(pid: nat, ok: bool) | Run(pid: nat, ok: bool) | Kill(pid: nat)

  /** The programs the processes run once they hold the lock. */
  type Progs = map<nat, Prog>

  /** One event. An unlock removes the file by name, whoever created it; death leaves the file. */
  ghost function Next(w: World, progs: Progs, s: Sys, e: Event): (t: Sys)
    requires s.procs.Keys <= progs.Keys
    ensures e.pid in s.procs ==> e.pid in t.procs && t.procs == s.procs[e.pid := t.procs[e.pid]]
    ensures e.pid !in s.procs ==> t == s
  {
    if e.pid !in s.procs then s
    else
      var me := s.procs[e.pid];
      var t := match e
        case Open(pid, ok) =>
          if !me.Waiting? then s
          else (match OpenOnce(me.fails, s.file, ok)
            case Retry => s.(procs := s.procs[pid := Waiting(me.fails + 1)])
            case GiveUp => s.(procs := s.procs[pid := Gone])
            case Entered(takeover) =>
              s.(file := true, procs := s.procs[pid := Critical(progs[pid])],
                 takeovers := s.takeovers + (if takeover then 1 else 0), order := s.order + [pid]))
        case Run(pid, ok) =>
          if !me.Critical? && !me.Unlocked? then s
          else if me.p.Exit? then s.(procs := s.procs[pid := Gone])
          else if me.p.op.Unlock? then
            var gone := ok && s.file;
            s.(file := s.file && !gone, procs := s.procs[pid := Unlocked(me.p.k(if gone then Ok else Fail))])
          else
            var x := Exec(w, s.h, me.p.op);
            var p := me.p.k(x.r);
            s.(h := x.h, procs := s.procs[pid := if me.Critical? then Critical(p) else Unlocked(p)])
        case Kill(pid) => s.(procs := s.procs[pid := Gone]);
      assert t.procs == s.procs[e.pid := t.procs[e.pid]];
      t
  }

  ghost function Play(w: World, progs: Progs, s: Sys, es: seq<Event>): (t: Sys)
    requires s.procs.Keys <= progs.Keys
    ensures t.procs.Keys == s.procs.Keys
    decreases |es|
  {
    if es == [] then s else Next(w, progs, Play(w, progs, s, es[..|es| - 1]), es[|es| - 1])
  }

  /** Nobody has tried yet; a file left by an earlier crash may lie there. */
  ghost predicate Initial(progs: Progs, s: Sys) {
    && s.procs.Keys <= progs.Keys
    && s.takeovers == 0 && s.order == []
    && (forall pid | pid in s.procs :: s.procs[pid] == Waiting(0))
    && (forall pid | pid in progs :: Tame(progs[pid]))
  }

  function Live(procs: map<nat, Proc>): set<nat> {
    set pid | pid in procs && procs[pid].Critical?
  }

  // ----- bounded overlap -----

  /** Live processes run tame programs, unlocked ones only have to return. */
  ghost predicate Sane(procs: map<nat, Proc>) {
    forall pid | pid in procs ::
      && (procs[pid].Critical? ==> Tame(procs[pid].p))
      && (procs[pid].Unlocked? ==> procs[pid].p == Exit(Finished))
  }

  lemma SaneStep(w: World, progs: Progs, s: Sys, e: Event)
    requires s.procs.Keys <= progs.Keys && Sane(s.procs)
    requires forall pid | pid in progs :: Tame(progs[pid])
    ensures Sane(Next(w, progs, s, e).procs)
  {
  }

  lemma {:induction false} AlwaysSane(w: World, progs: Progs, s: Sys, es: seq<Event>)
    requires Initial(progs, s)
    ensures Sane(Play(w, progs, s, es).procs)
    decreases |es|
  {
    if es != [] {
      AlwaysSane(w, progs, s, es[..|es| - 1]);
      SaneStep(w, progs, Play(w, progs, s, es[..|es| - 1]), es[|es| - 1]);
    }
  }

  ghost predicate Bounded(s: Sys) {
    |Live(s.procs)| <= s.takeovers + (if s.file then 1 else 0)
  }

  lemma LiveUpdate(procs: map<nat, Proc>, pid: nat, x: Proc)
    requires pid in procs
    ensures |Live(procs[pid := x])| ==
            |Live(procs)| + (if x.Critical? then 1 else 0) - (if procs[pid].Critical? then 1 else 0)
  {
    var live, after := Live(procs), Live(procs[pid := x]);
    Without(live, pid);
    Without(after, pid);
    forall p ensures p in live - {pid} <==> p in after - {pid} {
    }
    assert live - {pid} == after - {pid};
  }

  lemma Without(s: set<nat>, x: nat)
    ensures |s| == |s - {x}| + (if x in s then 1 else 0)
  {
    if x in s {
      assert s == (s - {x}) + {x};
    } else {
      assert s == s - {x};
    }
  }

  lemma BoundedStep(w: World, progs: Progs, s: Sys, e: Event)
    requires s.procs.Keys <= progs.Keys && Bounded(s) && Sane(s.procs)
    ensures Bounded(Next(w, progs, s, e))
  {
    if e.pid in s.procs {
      LiveUpdate(s.procs, e.pid, Next(w, progs, s, e).procs[e.pid]);
    }
  }

  /** In every reachable state there are at most as many live bodies as takeovers, plus one for the file. */
  lemma {:induction false} BoundedOverlap(w: World, progs: Progs, s: Sys, es: seq<Event>)
    requires Initial(progs, s)
    ensures Bounded(Play(w, progs, s, es))
    decreases |es|
  {
    if es == [] {
      assert Live(s.procs) == {};
    } else {
      BoundedOverlap(w, progs, s, es[..|es| - 1]);
      AlwaysSane(w, progs, s, es[..|es| - 1]);
      BoundedStep(w, progs, Play(w, progs, s, es[..|es| - 1]), es[|es| - 1]);
    }
  }

  /** Without a takeover at most one body is live, and only while the lock file exists. */
  lemma MutualExclusion(w: World, progs: Progs, s: Sys, es: seq<Event>, p: nat, q: nat)
    requires Initial(progs, s)
    requires Play(w, progs, s, es).takeovers == 0
    requires p in Live(Play(w, progs, s, es).procs) && q in Live(Play(w, progs, s, es).procs)
    ensures p == q && Play(w, progs, s, es).file
  {
    BoundedOverlap(w, progs, s, es);
    var live := Live(Play(w, progs, s, es).procs);
    var others := live - {p};
    assert live == others + {p};
    assert |others| == 0;
    assert q !in others;
  }

  /** A second live body exists only after a takeover: one that waits is let in by one that crashed or is slow. */
  lemma OverlapNeedsTakeover(w: World, progs: Progs, s: Sys, es: seq<Event>, p: nat, q: nat)
    requires Initial(progs, s) && p != q
    requires p in Live(Play(w, progs, s, es).procs) && q in Live(Play(w, progs, s, es).procs)
    ensures Play(w, progs, s, es).takeovers > 0
  {
    if Play(w, progs, s, es).takeovers == 0 {
      MutualExclusion(w, progs, s, es, p, q);
    }
  }

  // ----- serializability -----

  /** No call is left to make before the unlock. */
  predicate Stuck(c: Config) {
    c.p.Exit? || c.p.op.Unlock?
  }

  lemma {:induction false} StuckStays(w: World, c: Config, n: nat)
    requires Stuck(c)
    ensures Steps(w, c, n) == c
    decreases n
  {
    if n > 0 {
      StuckStays(w, c, n - 1);
    }
  }

  /** Two points of a run at which no call is left to make before the unlock are the same point. */
  lemma StuckUnique(w: World, c: Config, m: nat, n: nat)
    requires Stuck(Steps(w, c, m)) && Stuck(Steps(w, c, n))
    ensures Steps(w, c, m) == Steps(w, c, n)
  {
    if m <= n {
      StepsAdd(w, c, m, n - m);
      StuckStays(w, Steps(w, c, m), n - m);
    } else {
      StepsAdd(w, c, n, m - n);
      StuckStays(w, Steps(w, c, n), m - n);
    }
  }

  /** The host after a program ran alone as far as it goes before its unlock. */
  ghost function Complete(w: World, h: State, p: Prog): State {
    if exists n: nat :: Stuck(Steps(w, Config(p, h), n)) then
      var n: nat :| Stuck(Steps(w, Config(p, h), n));
      Steps(w, Config(p, h), n).h
    else h
  }

  lemma StuckIsComplete(w: World, h: State, p: Prog, n: nat)
    requires Stuck(Steps(w, Config(p, h), n))
    ensures Complete(w, h, p) == Steps(w, Config(p, h), n).h
  {
    var m: nat :| Stuck(Steps(w, Config(p, h), m)) && Complete(w, h, p) == Steps(w, Config(p, h), m).h;
    StuckUnique(w, Config(p, h), m, n);
  }

  /** The bodies of these processes, one after another. */
  ghost function Serial(w: World, progs: Progs, h: State, order: seq<nat>): State
    requires forall pid | pid in order :: pid in progs
    decreases |order|
  {
    if order == [] then h
    else Complete(w, Serial(w, progs, h, order[..|order| - 1]), progs[order[|order| - 1]])
  }

  /** The last body of the order after n calls, the ones before it completed. */
  ghost function Partial(w: World, progs: Progs, h: State, order: seq<nat>, n: nat): Config
    requires order != [] && forall pid | pid in order :: pid in progs
  {
    var m := |order| - 1;
    Steps(w, Config(progs[order[m]], Serial(w, progs, h, order[..m])), n)
  }

  /** The host is where the last process to enter left it after n calls; without a file, it is complete. */
  ghost predicate Serialized(w: World, progs: Progs, h0: State, s: Sys, n: nat)
    requires s.procs.Keys <= progs.Keys
  {
    && (forall pid | pid in s.order :: pid in s.procs)
    && (s.order == [] ==> s.h == h0)
    && (s.order != [] ==>
          var last := s.order[|s.order| - 1];
          && s.h == Partial(w, progs, h0, s.order, n).h
          && (s.procs[last].Critical? ==> s.procs[last].p == Partial(w, progs, h0, s.order, n).p)
          && (s.procs[last].Unlocked? ==> s.h == Serial(w, progs, h0, s.order)))
    && (forall pid | pid in s.procs && s.procs[pid].Critical? ::
          s.file && s.order != [] && pid == s.order[|s.order| - 1])
    && (!s.file ==> s.h == Serial(w, progs, h0, s.order))
  }

  lemma SerializedOpen(w: World, progs: Progs, h0: State, s: Sys, n: nat, pid: nat, ok: bool) returns (n': nat)
    requires s.procs.Keys <= progs.Keys && Serialized(w, progs, h0, s, n)
    requires Next(w, progs, s, Open(pid, ok)).takeovers == s.takeovers
    ensures Serialized(w, progs, h0, Next(w, progs, s, Open(pid, ok)), n')
  {
    hide Exec, Complete;
    var t := Next(w, progs, s, Open(pid, ok));
    n' := n;
    if pid in s.procs && s.procs[pid].Waiting? && OpenOnce(s.procs[pid].fails, s.file, ok).Entered? {
      n' := 0;
      assert t.order[..|t.order| - 1] == s.order;
      assert Partial(w, progs, h0, t.order, 0) == Config(progs[pid], Serial(w, progs, h0, s.order));
    }
  }

  /** One more call of the live body. */
  lemma SerializedCall(w: World, progs: Progs, h0: State, s: Sys, n: nat, pid: nat, ok: bool)
    requires s.procs.Keys <= progs.Keys && Serialized(w, progs, h0, s, n)
    requires pid in s.procs && s.procs[pid].Critical? && s.procs[pid].p.Do? && !s.procs[pid].p.op.Unlock?
    ensures Serialized(w, progs, h0, Next(w, progs, s, Run(pid, ok)), n + 1)
  {
    var m := |s.order| - 1;
    var before := Config(progs[pid], Serial(w, progs, h0, s.order[..m]));
    StepsAdd(w, before, n, 1);
    var c := Steps(w, before, n);
    assert Steps(w, c, 1) == Steps(w, Step(w, c), 0);
  }

  /** The end of the live body: by its unlock, or by dying. */
  lemma SerializedEnd(w: World, progs: Progs, h0: State, s: Sys, n: nat, pid: nat, ok: bool)
    requires s.procs.Keys <= progs.Keys && Serialized(w, progs, h0, s, n)
    requires pid in s.procs && s.procs[pid].Critical? && (s.procs[pid].p.Exit? || s.procs[pid].p.op.Unlock?)
    ensures Serialized(w, progs, h0, Next(w, progs, s, Run(pid, ok)), n)
  {
    var m := |s.order| - 1;
    StuckIsComplete(w, Serial(w, progs, h0, s.order[..m]), progs[pid], n);
  }

  /** Every event that is no takeover keeps a run serial. */
  lemma SerializedStep(w: World, progs: Progs, h0: State, s: Sys, n: nat, e: Event) returns (n': nat)
    requires s.procs.Keys <= progs.Keys && Sane(s.procs) && Serialized(w, progs, h0, s, n)
    requires Next(w, progs, s, e).takeovers == s.takeovers
    ensures Serialized(w, progs, h0, Next(w, progs, s, e), n')
  {
    n' := n;
    if e.Open? {
      n' := SerializedOpen(w, progs, h0, s, n, e.pid, e.ok);
    } else if e.Run? && e.pid in s.procs && s.procs[e.pid].Critical? {
      if s.procs[e.pid].p.Do? && !s.procs[e.pid].p.op.Unlock? {
        SerializedCall(w, progs, h0, s, n, e.pid, e.ok);
        n' := n + 1;
      } else {
        SerializedEnd(w, progs, h0, s, n, e.pid, e.ok);
      }
    }
  }

  lemma TakeoversGrow(w: World, progs: Progs, s: Sys, e: Event)
    requires s.procs.Keys <= progs.Keys
    ensures s.takeovers <= Next(w, progs, s, e).takeovers
  {
  }

  /**
   Every run without a takeover is serial: the host is the bodies one after another in lock order, the
   last of them possibly only in part; whenever the lock file is absent, all of them completely.
   */
  lemma {:induction false} Serializability(w: World, progs: Progs, s: Sys, es: seq<Event>) returns (n: nat)
    requires Initial(progs, s)
    requires Play(w, progs, s, es).takeovers == 0
    ensures Serialized(w, progs, s.h, Play(w, progs, s, es), n)
    decreases |es|
  {
    if es == [] {
      return 0;
    }
    var es' := es[..|es| - 1];
    var before := Play(w, progs, s, es');
    TakeoversGrow(w, progs, before, es[|es| - 1]);
    n := Serializability(w, progs, s, es');
    AlwaysSane(w, progs, s, es');
    n := SerializedStep(w, progs, s.h, before, n, es[|es| - 1]);
  }

  // ----- stale files -----

  /** n opens of one process in a row. */
  function Opens(pid: nat, n: nat): seq<Event> {
    seq(n, _ => Open(pid, true))
  }

  lemma PlayMore(w: World, progs: Progs, s: Sys, es: seq<Event>, e: Event)
    requires s.procs.Keys <= progs.Keys
    ensures Play(w, progs, s, es + [e]) == Next(w, progs, Play(w, progs, s, es), e)
  {
    assert (es + [e])[..|es|] == es;
  }

  /** Against a file nobody removes, every open up to the 300th fails and changes nothing else. */
  lemma {:induction false} WaitOnStale(w: World, progs: Progs, s: Sys, pid: nat, f: nat, n: nat)
    requires s.procs.Keys <= progs.Keys && pid in s.procs && s.procs[pid] == Waiting(f) && s.file && f + n <= 300
    ensures Play(w, progs, s, Opens(pid, n)) == s.(procs := s.procs[pid := Waiting(f + n)])
    decreases n
  {
    hide Play, Next, Opens;
    if n == 0 {
      NoOpens(w, progs, s, pid, f);
    } else {
      WaitOnStale(w, progs, s, pid, f, n - 1);
      OneMoreOpen(pid, n - 1);
      PlayMore(w, progs, s, Opens(pid, n - 1), Open(pid, true));
      RefusedAgain(w, progs, s, pid, f + n - 1);
    }
  }

  lemma NoOpens(w: World, progs: Progs, s: Sys, pid: nat, f: nat)
    requires s.procs.Keys <= progs.Keys && pid in s.procs && s.procs[pid] == Waiting(f)
    ensures Play(w, progs, s, Opens(pid, 0)) == s.(procs := s.procs[pid := Waiting(f)])
  {
    assert Opens(pid, 0) == [];
    assert s.procs[pid := Waiting(f)] == s.procs;
  }

  lemma OneMoreOpen(pid: nat, n: nat)
    ensures Opens(pid, n + 1) == Opens(pid, n) + [Open(pid, true)]
  {
  }

  lemma RefusedAgain(w: World, progs: Progs, s: Sys, pid: nat, n: nat)
    requires s.procs.Keys <= progs.Keys && pid in s.procs && s.file && n < TRIES
    ensures Next(w, progs, s.(procs := s.procs[pid := Waiting(n)]), Open(pid, true)) ==
            s.(procs := s.procs[pid := Waiting(n + 1)])
  {
    hide Next;
    RefusedOpen(w, progs, s.(procs := s.procs[pid := Waiting(n)]), pid, n);
    assert s.procs[pid := Waiting(n)][pid := Waiting(n + 1)] == s.procs[pid := Waiting(n + 1)];
  }

  lemma RefusedOpen(w: World, progs: Progs, s: Sys, pid: nat, n: nat)
    requires s.procs.Keys <= progs.Keys && pid in s.procs && s.procs[pid] == Waiting(n) && s.file && n < TRIES
    ensures Next(w, progs, s, Open(pid, true)) == s.(procs := s.procs[pid := Waiting(n + 1)])
  {
  }

  /** The open after those takes the file over. */
  lemma TakeOver(w: World, progs: Progs, s: Sys, pid: nat, f: nat)
    requires s.procs.Keys <= progs.Keys && pid in s.procs && s.procs[pid] == Waiting(f) && s.file && f <= 300
    ensures Play(w, progs, s, Opens(pid, 301 - f)) ==
            s.(procs := s.procs[pid := Critical(progs[pid])], takeovers := s.takeovers + 1, order := s.order + [pid])
  {
    hide Play, Opens;
    var n := TRIES - f;
    WaitOnStale(w, progs, s, pid, f, n);
    OneMoreOpen(pid, n);
    PlayMore(w, progs, s, Opens(pid, n), Open(pid, true));
    assert s.procs[pid := Waiting(TRIES)][pid := Critical(progs[pid])] == s.procs[pid := Critical(progs[pid])];
  }

  /** The open after 300 failures is the last: if it does not enter, the process is gone, and nothing else changes. */
  lemma LastOpen(w: World, progs: Progs, s: Sys, pid: nat, ok: bool)
    requires s.procs.Keys <= progs.Keys && pid in s.procs && s.procs[pid] == Waiting(300)
    ensures var t := Next(w, progs, s, Open(pid, ok));
            if ok && s.file
            then t == s.(procs := s.procs[pid := Critical(progs[pid])], takeovers := s.takeovers + 1,
                         order := s.order + [pid])
            else t == s.(procs := s.procs[pid := Gone])
  {
  }

  /** Before that an open enters exactly if it works and there is no file, which it creates; else it has failed. */
  lemma EarlyOpen(w: World, progs: Progs, s: Sys, pid: nat, f: nat, ok: bool)
    requires s.procs.Keys <= progs.Keys && pid in s.procs && s.procs[pid] == Waiting(f) && f < 300
    ensures var t := Next(w, progs, s, Open(pid, ok));
            if ok && !s.file
            then t == s.(file := true, procs := s.procs[pid := Critical(progs[pid])], order := s.order + [pid])
            else t == s.(procs := s.procs[pid := Waiting(f + 1)])
  {
  }

  predicate AtUnlock(x: Proc) {
    (x.Critical? || x.Unlocked?) && x.p.Do? && x.p.op.Unlock?
  }

  /** The file goes only by an unlock that works, and comes only by a creation; the dead leave it where it is. */
  lemma FileLaw(w: World, progs: Progs, s: Sys, e: Event)
    requires s.procs.Keys <= progs.Keys && e.pid in s.procs
    ensures var t := Next(w, progs, s, e);
            && (s.file ==> (!t.file <==> e.Run? && e.ok && AtUnlock(s.procs[e.pid])))
            && (!s.file ==> (t.file <==> e.Open? && e.ok && s.procs[e.pid].Waiting? && s.procs[e.pid].fails < 300))
            && (e.Kill? ==> t == s.(procs := s.procs[e.pid := Gone]))
            && (t.h != s.h ==> e.Run? && !AtUnlock(s.procs[e.pid]))
  {
  }

  /** Running one live process, alone, for n calls or to the point before its unlock. */
  lemma {:induction false} RunAlone(w: World, progs: Progs, s: Sys, es: seq<Event>, pid: nat, n: nat, q: Config)
    returns (more: seq<Event>)
    requires s.procs.Keys <= progs.Keys
    requires var t := Play(w, progs, s, es);
             pid in t.procs && t.procs[pid].Critical? && Steps(w, Config(t.procs[pid].p, t.h), n) == q
    ensures var t := Play(w, progs, s, es);
            Play(w, progs, s, es + more) == t.(h := q.h, procs := t.procs[pid := Critical(q.p)])
    ensures forall e | e in more :: e == Run(pid, true)
    decreases n
  {
    var t := Play(w, progs, s, es);
    var c := Config(t.procs[pid].p, t.h);
    if n == 0 || Stuck(c) {
      if Stuck(c) {
        StuckStays(w, c, n);
      }
      assert es + [] == es;
      assert t.procs[pid := Critical(q.p)] == t.procs;
      return [];
    }
    hide Play, Exec;
    var e := Run(pid, true);
    PlayMore(w, progs, s, es, e);
    var rest := RunAlone(w, progs, s, es + [e], pid, n - 1, q);
    more := [e] + rest;
    assert es + more == es + [e] + rest;
    assert t.procs[pid := Critical(c.p.k(Exec(w, t.h, c.p.op).r))][pid := Critical(q.p)] ==
        t.procs[pid := Critical(q.p)];
  }

  lemma {:induction false} PlayOn(w: World, progs: Progs, s: Sys, es: seq<Event>, more: seq<Event>)
    requires s.procs.Keys <= progs.Keys
    ensures Play(w, progs, s, es + more) == Play(w, progs, Play(w, progs, s, es), more)
    decreases |more|
  {
    if more == [] {
      assert es + more == es;
    } else {
      var m := |more| - 1;
      PlayOn(w, progs, s, es, more[..m]);
      PlayMore(w, progs, s, es + more[..m], more[m]);
      assert es + more == (es + more[..m]) + [more[m]];
    }
  }

  /**
   Recovery from a stale file, in any state in which it lies there, whoever has died: a waiter that has failed f
   times is refused until its 300th failure, enters with the next open, does its body on the host as it finds
   it, and its unlock makes the next creation of another waiter succeed.
   */
  lemma StaleRecovery(w: World, progs: Progs, s: Sys, pid: nat, f: nat, next: nat, n: nat) returns (es: seq<Event>)
    requires s.procs.Keys <= progs.Keys && s.file && pid in s.procs && next in s.procs && next != pid
    requires s.procs[pid] == Waiting(f) && f <= 300 && s.procs[next].Waiting? && s.procs[next].fails < 300
    requires var q := Steps(w, Config(progs[pid], s.h), n).p; q.Do? && q.op.Unlock?
    ensures Opens(pid, 301 - f) <= es
    ensures forall e | e in es :: e.pid == pid
    ensures var t := Play(w, progs, s, es);
            && !t.file && t.h == Complete(w, s.h, progs[pid])
            && Next(w, progs, t, Open(next, true)).procs[next] == Critical(progs[next])
  {
    hide Exec, Next;
    TakeOver(w, progs, s, pid, f);
    StuckIsComplete(w, s.h, progs[pid], n);
    var opens := Opens(pid, TRIES + 1 - f);
    var q := Steps(w, Config(progs[pid], s.h), n);
    var more := RunAlone(w, progs, s, opens, pid, n, q);
    es := opens + more + [Run(pid, true)];
    UnlockAfter(w, progs, s, opens + more, pid, next);
  }

  /** A live process at its unlock lets a waiting process in. */
  lemma UnlockAfter(w: World, progs: Progs, s: Sys, es: seq<Event>, pid: nat, next: nat)
    requires s.procs.Keys <= progs.Keys && pid in s.procs && next in s.procs && next != pid
    requires var t := Play(w, progs, s, es);
             && t.file && t.procs[pid].Critical? && t.procs[pid].p.Do? && t.procs[pid].p.op.Unlock?
             && t.procs[next].Waiting? && t.procs[next].fails < 300
    ensures var t := Play(w, progs, s, es + [Run(pid, true)]);
            && !t.file && t.h == Play(w, progs, s, es).h
            && Next(w, progs, t, Open(next, true)).procs[next] == Critical(progs[next])
  {
    PlayMore(w, progs, s, es, Run(pid, true));
  }
}
