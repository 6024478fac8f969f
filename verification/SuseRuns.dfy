/** Runs of the scheduler over the requests of many programs, and what every reachable state keeps. */
module SuseRuns {
  import opened Basics
  import opened MapSums
  import opened Suse
  import opened SuseThreads

  datatype Event =
    | Connect(pid: int)
    | Create(pid: int, tid: int)
    | Take
    | Grant
    | Schedule(pid: int, burst: int, order: seq<Thread>)
    | WaitOn(pid: int, tid: int, sem: string)
    | SignalOn(pid: int, sem: string)
    | JoinOn(pid: int, target: int)
    | CloseOf(pid: int, tid: int)
    | Leave(pid: int)

  /** What a run has done so far. `drift` counts, per program, its threads woken by signals of other
      programs minus the threads of other programs its own signals woke. */
  datatype Log = Log(
    created: set<Key>, admitted: nat, closed: nat, left: nat,
    blocked: map<string, seq<Key>>, woken: map<string, seq<Key>>,
    bursts: map<Key, seq<int>>, drift: map<int, int>)

  datatype History = History(now: State, log: Log)

  /** When a step can be taken: a connection is new, a thread id is new in its program, and the
      request does not make the server follow a null pointer. */
  ghost predicate Enabled(h: History, e: Event) {
    var s := h.now;
    !s.halted &&
    match e
    case Connect(pid) => pid !in s.programs
    case Create(pid, tid) => pid in s.programs && Key(pid, tid) !in h.log.created
    case Take => s.arrivals != [] && s.taken.None?
    case Grant => s.taken.Some? && s.permits > 0 && s.taken.value.pid in s.programs
    case Schedule(pid, burst, order) => CanSchedule(s, pid, order)
    case WaitOn(pid, tid, sem) => CanWait(s, pid, sem)
    case SignalOn(pid, sem) => CanSignal(s, pid, sem)
    case JoinOn(pid, target) => true
    case CloseOf(pid, tid) => CanClose(s, pid, tid)
    case Leave(pid) => pid in s.programs
  }

  ghost function Apply(h: History, e: Event): State
    requires Enabled(h, e)
  {
    var s := h.now;
    match e
    case Connect(pid) => AddProgram(s, pid)
    case Create(pid, tid) => CreateThread(s, pid, tid)
    case Take => TakeNew(s)
    case Grant => Admit(s)
    case Schedule(pid, burst, order) => ScheduleNext(s, pid, burst, order).0
    case WaitOn(pid, tid, sem) => Wait(s, pid, tid, sem)
    case SignalOn(pid, sem) => Signal(s, pid, sem)
    case JoinOn(pid, target) => Join(s, pid, target)
    case CloseOf(pid, tid) => Close(s, pid, tid)
    case Leave(pid) => Disconnect(s, pid)
  }

  predicate Blocks(s: State, pid: int, tid: int, sem: string) {
    && sem in s.semaphores && s.semaphores[sem].value <= 0
    && pid in s.programs && s.programs[pid].exec.Some? && s.programs[pid].exec.value.tid == tid
  }

  predicate Wakes(s: State, sem: string) {
    && sem in s.semaphores && s.semaphores[sem].value + 1 <= s.semaphores[sem].max
    && sem in s.waiting && s.waiting[sem] != []
  }

  function Bump(m: map<int, int>, k: int, amount: int): map<int, int> {
    m[k := Entry(m, k, 0) + amount]
  }

  ghost function Logged(h: History, e: Event): Log
    requires Enabled(h, e)
  {
    var s, l := h.now, h.log;
    match e
    case Create(pid, tid) =>
      l.(created := l.created + {Key(pid, tid)}, bursts := l.bursts[Key(pid, tid) := []])
    case Grant => l.(admitted := l.admitted + 1)
    case Schedule(pid, burst, order) =>
      if s.programs[pid].exec.Some? then
        var k := s.programs[pid].exec.value.Id();
        l.(bursts := l.bursts[k := Entry(l.bursts, k, []) + [burst]])
      else l
    case WaitOn(pid, tid, sem) =>
      if Blocks(s, pid, tid, sem) then
        l.(blocked := l.blocked[sem := Entry(l.blocked, sem, []) + [s.programs[pid].exec.value.Id()]])
      else l
    case SignalOn(pid, sem) =>
      if Wakes(s, sem) then
        var t := s.waiting[sem][0];
        l.(woken := l.woken[sem := Entry(l.woken, sem, []) + [t.Id()]],
           drift := Bump(Bump(l.drift, t.pid, 1), pid, -1))
      else l
    case CloseOf(pid, tid) =>
      if s.programs[pid].exec.value.tid == tid then l.(closed := l.closed + 1) else l
    case Leave(pid) => l.(left := l.left + 1)
    case _ => l
  }

  ghost function Next(h: History, e: Event): History
    requires Enabled(h, e)
  {
    History(Apply(h, e), Logged(h, e))
  }

  /** last is reached from h by the requests es. */
  ghost predicate Run(h: History, es: seq<Event>, last: History)
    decreases |es|
  {
    if es == [] then h == last
    else Enabled(h, es[0]) && Run(Next(h, es[0]), es[1..], last)
  }

  ghost predicate Connected(es: seq<Event>) {
    forall e :: e in es ==> !e.Leave?
  }

  const EMPTY_LOG := Log({}, 0, 0, 0, map[], map[], map[], map[])

  ghost function Start(semaphores: map<string, Semaphore>, maxMultiprog: int, alpha: real): History {
    History(Initial(semaphores, maxMultiprog, alpha), EMPTY_LOG)
  }

  // ================= thread partition =================

  /** The threads of the state are exactly the created ones, each in one place and once. */
  ghost predicate Partition(h: History) {
    && Shape(h.now)
    && Distinct(Threads(h.now))
    && Known(Threads(h.now), h.log.created)
  }

  ghost predicate Known(ts: multiset<Thread>, created: set<Key>) {
    && (forall t :: t in ts ==> t.Id() in created)
    && (forall k :: k in created ==> exists t :: t in ts && t.Id() == k)
  }

  lemma {:induction false} StartPartition(semaphores: map<string, Semaphore>, maxMultiprog: int, alpha: real)
    requires maxMultiprog >= 0
    ensures Partition(Start(semaphores, maxMultiprog, alpha))
    ensures Active(Start(semaphores, maxMultiprog, alpha).now) == multiset{}
  {
    EmptyQueues(map sem | sem in semaphores :: []);
  }

  lemma {:induction false} EmptyQueues(m: map<string, seq<Thread>>)
    requires forall sem :: sem in m ==> m[sem] == []
    ensures Sum(m, Listed) == multiset{}
    decreases |m|
  {
    if m != map[] {
      var k :| k in m;
      SumTake(m, Listed, k);
      EmptyQueues(m - {k});
    }
  }

  lemma ScheduleThreads(s: State, pid: int, burst: int, order: seq<Thread>)
    requires Shape(s) && CanSchedule(s, pid, order)
    ensures Shape(ScheduleNext(s, pid, burst, order).0)
    ensures s.programs[pid].exec.Some? ==>
      var t := s.programs[pid].exec.value;
      t in Threads(s)
      && Threads(ScheduleNext(s, pid, burst, order).0)
        == Threads(s) - multiset{t} + multiset{Reestimated(s.alpha, t, burst)}
    ensures s.programs[pid].exec.None? ==> Threads(ScheduleNext(s, pid, burst, order).0) == Threads(s)
  {
    hide Sum, Active, Inactive, Shape, ScheduleNext, IsSorting;
    ScheduleKeeps(s, pid, burst, order);
    ReestimateReplaces(s, pid, burst);
  }

  /** How one step changes the threads: one is new, one is aged, or all stay. */
  lemma StepThreads(h: History, e: Event)
    requires Partition(h) && Enabled(h, e) && !e.Leave?
    ensures Shape(Apply(h, e))
    ensures e.Create? ==> Threads(Apply(h, e)) == Threads(h.now) + multiset{Thread(e.pid, e.tid, 0.0, 0)}
    ensures e.Schedule? && h.now.programs[e.pid].exec.Some? ==>
      var t := h.now.programs[e.pid].exec.value;
      t in Threads(h.now)
      && Threads(Apply(h, e)) == Threads(h.now) - multiset{t} + multiset{Reestimated(h.now.alpha, t, e.burst)}
    ensures !e.Create? && !(e.Schedule? && h.now.programs[e.pid].exec.Some?) ==> Threads(Apply(h, e)) == Threads(h.now)
  {
    hide Sum, Active, Inactive, Shape, Distinct, MoveToReady, Release, Wake, ScheduleNext, IsSorting, Join, Wait;
    var s := h.now;
    match e
    case Connect(pid) => AddProgramKeeps(s, pid); AddProgramShape(s, pid);
    case Create(pid, tid) => CreateAdds(s, pid, tid); CreateShape(s, pid, tid);
    case Take => TakeKeeps(s);
    case Grant => AdmitKeeps(s);
    case Schedule(pid, burst, order) => ScheduleThreads(s, pid, burst, order);
    case WaitOn(pid, tid, sem) => WaitKeeps(s, pid, tid, sem); WaitShape(s, pid, tid, sem);
    case SignalOn(pid, sem) => SignalKeeps(s, pid, sem);
    case JoinOn(pid, target) => JoinKeeps(s, pid, target); JoinShape(s, pid, target);
    case CloseOf(pid, tid) => CloseMoves(s, pid, tid);
  }

  lemma StepPartition(h: History, e: Event)
    requires Partition(h) && Enabled(h, e) && !e.Leave?
    ensures Partition(Next(h, e))
  {
    hide Sum, Threads, Shape, Apply, Distinct, Known, IsSorting, CanWait, CanSignal, CanClose;
    StepThreads(h, e);
    if e.Create? {
      ThreadAdded(Threads(h.now), h.log.created, Thread(e.pid, e.tid, 0.0, 0));
    } else if e.Schedule? && h.now.programs[e.pid].exec.Some? {
      var t := h.now.programs[e.pid].exec.value;
      ThreadReplaced(Threads(h.now), h.log.created, t, Reestimated(h.now.alpha, t, e.burst));
    }
  }

  lemma ThreadAdded(ts: multiset<Thread>, created: set<Key>, t: Thread)
    requires Distinct(ts) && Known(ts, created) && t.Id() !in created
    ensures Distinct(ts + multiset{t}) && Known(ts + multiset{t}, created + {t.Id()})
  {
    assert forall u :: u in ts ==> u.Id() != t.Id();
    DistinctAdd(ts, t);
    KnownAdd(ts, created, t);
  }

  lemma DistinctAdd(ts: multiset<Thread>, t: Thread)
    requires Distinct(ts) && forall u :: u in ts ==> u.Id() != t.Id()
    ensures Distinct(ts + multiset{t})
  {
  }

  lemma KnownAdd(ts: multiset<Thread>, created: set<Key>, t: Thread)
    requires Known(ts, created)
    ensures Known(ts + multiset{t}, created + {t.Id()})
  {
    forall k | k in created + {t.Id()} ensures exists u :: u in ts + multiset{t} && u.Id() == k {
      if k == t.Id() {
        assert t in ts + multiset{t};
      } else {
        var u :| u in ts && u.Id() == k;
        assert u in ts + multiset{t};
      }
    }
  }

  lemma ThreadReplaced(ts: multiset<Thread>, created: set<Key>, t: Thread, u: Thread)
    requires Distinct(ts) && Known(ts, created) && t in ts && t.Id() == u.Id()
    ensures Distinct(ts - multiset{t} + multiset{u}) && Known(ts - multiset{t} + multiset{u}, created)
  {
    DistinctReplace(ts, t, u);
    KnownReplace(ts, created, t, u);
  }

  lemma DistinctReplace(ts: multiset<Thread>, t: Thread, u: Thread)
    requires Distinct(ts) && t in ts && t.Id() == u.Id()
    ensures Distinct(ts - multiset{t} + multiset{u})
  {
    assert ts[t] == 1;
  }

  lemma KnownReplace(ts: multiset<Thread>, created: set<Key>, t: Thread, u: Thread)
    requires Known(ts, created) && t in ts && t.Id() == u.Id()
    ensures Known(ts - multiset{t} + multiset{u}, created)
  {
    forall k | k in created ensures exists v :: v in ts - multiset{t} + multiset{u} && v.Id() == k {
      var v :| v in ts && v.Id() == k;
      var w := if v == t then u else v;
      assert w in ts - multiset{t} + multiset{u} && w.Id() == k;
    }
  }

  /** Thread partition: in every reachable state each created thread is in one place, once. */
  lemma {:induction false} RunPartition(h: History, es: seq<Event>, last: History)
    requires Partition(h) && Connected(es) && Run(h, es, last)
    ensures Partition(last)
    decreases |es|
  {
    hide Partition, Enabled, Next;
    if es != [] {
      assert es[0] in es;
      StepPartition(h, es[0]);
      RunPartition(Next(h, es[0]), es[1..], last);
    }
  }

  // ---- the same in terms of places ----

  datatype Place =
    | InNew
    | AwaitingPermit
    | InReady(pid: int)
    | IsRunning(pid: int)
    | JoinedOn(pid: int, tid: int)
    | AtSemaphore(sem: string)
    | InExit(pid: int)

  ghost function Holds(s: State, p: Place): multiset<Thread> {
    match p
    case InNew => multiset(s.arrivals)
    case AwaitingPermit => Taken(s)
    case InReady(pid) => multiset(Entry(s.ready, pid, []))
    case IsRunning(pid) => if pid in s.programs then Running(s.programs[pid]) else multiset{}
    case JoinedOn(pid, tid) => if pid in s.programs then multiset(Joiners(s.programs[pid], tid)) else multiset{}
    case AtSemaphore(sem) => multiset(Entry(s.waiting, sem, []))
    case InExit(pid) => multiset(Entry(s.exited, pid, []))
  }

  /** All places of the same kind as p. */
  ghost function Kind(s: State, p: Place): multiset<Thread> {
    match p
    case InNew => multiset(s.arrivals)
    case AwaitingPermit => Taken(s)
    case InReady(pid) => Sum(s.ready, Listed)
    case IsRunning(pid) => Sum(s.programs, Running)
    case JoinedOn(pid, tid) => Sum(s.programs, Joining)
    case AtSemaphore(sem) => Sum(s.waiting, Listed)
    case InExit(pid) => Sum(s.exited, Listed)
  }

  lemma InKind(s: State, p: Place)
    ensures Holds(s, p) <= Kind(s, p) <= Threads(s)
  {
    hide Sum;
    match p
    case InNew =>
    case AwaitingPermit =>
    case InReady(pid) => SumUpdate(s.ready, Listed, pid, []);
    case IsRunning(pid) => if pid in s.programs { SumUpdate(s.programs, Running, pid, s.programs[pid]); }
    case JoinedOn(pid, tid) =>
      if pid in s.programs {
        SumUpdate(s.programs, Joining, pid, s.programs[pid]);
        SumUpdate(s.programs[pid].blocked, Listed, tid, []);
      }
    case AtSemaphore(sem) => SumUpdate(s.waiting, Listed, sem, []);
    case InExit(pid) => SumUpdate(s.exited, Listed, pid, []);
  }

  /** Two different places are disjoint parts of the whole. */
  lemma TwoPlaces(s: State, p: Place, q: Place)
    requires p != q
    ensures Holds(s, p) + Holds(s, q) <= Threads(s)
  {
    hide Sum, Holds;
    InKind(s, p);
    InKind(s, q);
    if SameKind(p, q) {
      TwoOfAKind(s, p, q);
    }
  }

  predicate SameKind(p: Place, q: Place) {
    match p
    case InNew => q.InNew?
    case AwaitingPermit => q.AwaitingPermit?
    case InReady(_) => q.InReady?
    case IsRunning(_) => q.IsRunning?
    case JoinedOn(_, _) => q.JoinedOn?
    case AtSemaphore(_) => q.AtSemaphore?
    case InExit(_) => q.InExit?
  }

  lemma TwoOfAKind(s: State, p: Place, q: Place)
    requires p != q && SameKind(p, q)
    ensures Holds(s, p) + Holds(s, q) <= Kind(s, p)
  {
    hide Sum;
    match p
    case InNew =>
    case AwaitingPermit =>
    case InReady(a) => TwoLists(s.ready, a, q.pid);
    case InExit(a) => TwoLists(s.exited, a, q.pid);
    case AtSemaphore(a) => TwoLists(s.waiting, a, q.sem);
    case IsRunning(a) =>
      if a in s.programs && q.pid in s.programs { SumTwo(s.programs, Running, a, q.pid); }
      InKind(s, p);
      InKind(s, q);
    case JoinedOn(a, t) => TwoJoins(s, a, t, q.pid, q.tid);
  }

  /** Threads in different places have different ids. */
  lemma TwoIds(s: State, p: Place, t: Thread, q: Place, u: Thread)
    requires Distinct(Threads(s)) && p != q && t in Holds(s, p) && u in Holds(s, q)
    ensures t.Id() != u.Id()
  {
    hide Holds, Threads;
    TwoPlaces(s, p, q);
    assert multiset{t, u} <= Threads(s);
    assert t == u ==> Threads(s)[t] >= 2;
  }

  lemma TwoLists<K(!new)>(m: map<K, seq<Thread>>, a: K, b: K)
    requires a != b
    ensures multiset(Entry(m, a, [])) + multiset(Entry(m, b, [])) <= Sum(m, Listed)
  {
    hide Sum;
    if a in m && b in m {
      SumTwo(m, Listed, a, b);
    } else {
      SumUpdate(m, Listed, a, []);
      SumUpdate(m, Listed, b, []);
    }
  }

  lemma TwoJoins(s: State, a: int, t: int, b: int, u: int)
    requires (a, t) != (b, u)
    ensures Holds(s, JoinedOn(a, t)) + Holds(s, JoinedOn(b, u)) <= Sum(s.programs, Joining)
  {
    hide Sum, Joining, Joiners;
    if a in s.programs && a == b {
      TwoJoinLists(s.programs[a], t, u);
      SumUpdate(s.programs, Joining, a, s.programs[a]);
    } else {
      JoinsOfTwo(s, a, t, b, u);
    }
  }

  lemma JoinsOfTwo(s: State, a: int, t: int, b: int, u: int)
    requires a in s.programs ==> a != b
    ensures Holds(s, JoinedOn(a, t)) + Holds(s, JoinedOn(b, u)) <= Sum(s.programs, Joining)
  {
    hide Sum, Joining, Joiners;
    if a in s.programs {
      JoinList(s.programs[a], t);
      SumUpdate(s.programs, Joining, a, s.programs[a]);
    }
    if b in s.programs {
      JoinList(s.programs[b], u);
      SumUpdate(s.programs, Joining, b, s.programs[b]);
    }
    if a in s.programs && b in s.programs {
      SumTwo(s.programs, Joining, a, b);
    }
  }

  lemma JoinList(p: Program, t: int)
    ensures multiset(Joiners(p, t)) <= Joining(p)
  {
    hide Sum;
    SumUpdate(p.blocked, Listed, t, []);
  }

  lemma TwoJoinLists(p: Program, t: int, u: int)
    requires t != u
    ensures multiset(Joiners(p, t)) + multiset(Joiners(p, u)) <= Joining(p)
  {
    hide Sum;
    TwoLists(p.blocked, t, u);
  }

  /** A created thread is somewhere; a thread that is somewhere is there once and nowhere else. */
  lemma OnePlace(h: History, k: Key, p: Place, t: Thread)
    requires Partition(h) && t in Holds(h.now, p) && t.Id() == k
    ensures k in h.log.created && Holds(h.now, p)[t] == 1
    ensures forall q, u :: u in Holds(h.now, q) && u.Id() == k ==> q == p && u == t
  {
    hide Sum, Threads, Holds, Shape;
    InKind(h.now, p);
    forall q, u | u in Holds(h.now, q) && u.Id() == k ensures q == p && u == t {
      InKind(h.now, q);
      if q != p {
        TwoIds(h.now, p, t, q, u);
        assert false;
      }
    }
  }

  lemma SomePlace(h: History, k: Key) returns (p: Place, t: Thread)
    requires Partition(h) && k in h.log.created
    ensures t in Holds(h.now, p) && t.Id() == k
  {
    hide Sum, Shape;
    var s := h.now;
    t :| t in Threads(s) && t.Id() == k;
    if t in multiset(s.arrivals) {
      p := InNew;
    } else if t in Taken(s) {
      p := AwaitingPermit;
    } else if t in Sum(s.ready, Listed) {
      var pid := SumWitness(s.ready, Listed, t);
      p := InReady(pid);
    } else if t in Sum(s.programs, Running) {
      var pid := SumWitness(s.programs, Running, t);
      p := IsRunning(pid);
    } else if t in Sum(s.programs, Joining) {
      var pid := SumWitness(s.programs, Joining, t);
      var tid := SumWitness(s.programs[pid].blocked, Listed, t);
      p := JoinedOn(pid, tid);
    } else if t in Sum(s.waiting, Listed) {
      var sem := SumWitness(s.waiting, Listed, t);
      p := AtSemaphore(sem);
    } else {
      var pid := SumWitness(s.exited, Listed, t);
      p := InExit(pid);
    }
  }
}
