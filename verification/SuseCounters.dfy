/** The per-program counters of SUSE against the real sizes of its lists and queues. */
module SuseCounters {
  import opened Basics
  import opened MapSums
  import opened Suse
  import opened SuseThreads
  import opened SuseRuns

  /** How many threads of a program are in a list. */
  function CountPid(q: seq<Thread>, pid: int): nat {
    if q == [] then 0 else (if q[0].pid == pid then 1 else 0) + CountPid(q[1..], pid)
  }

  lemma {:induction false} CountPush(q: seq<Thread>, t: Thread, pid: int)
    ensures CountPid(q + [t], pid) == CountPid(q, pid) + if t.pid == pid then 1 else 0
  {
    if q != [] {
      CountPush(q[1..], t, pid);
      assert (q + [t])[1..] == q[1..] + [t];
    }
  }

  /** CountPid is the number of places in the list that hold a thread of the program. */
  lemma {:induction false} CountPidIsCount(q: seq<Thread>, pid: int)
    ensures CountPid(q, pid) == |set i | 0 <= i < |q| && q[i].pid == pid|
    decreases |q|
  {
    var at := set i | 0 <= i < |q| && q[i].pid == pid;
    if q == [] {
      assert at == {};
    } else {
      var init, last := q[..|q| - 1], q[|q| - 1];
      CountPidIsCount(init, pid);
      CountPush(init, last, pid);
      assert q == init + [last];
      assert at == (set i | 0 <= i < |init| && init[i].pid == pid) + if last.pid == pid then {|q| - 1} else {};
    }
  }

  lemma {:induction false} CountNone(q: seq<Thread>, pid: int)
    requires forall t :: t in q ==> t.pid != pid
    ensures CountPid(q, pid) == 0
  {
    if q != [] {
      CountNone(q[1..], pid);
    }
  }

  ghost function CountFor(pid: int): seq<Thread> -> int {
    q => CountPid(q, pid)
  }

  /** How many threads of a program are in semaphore queues. */
  ghost function Waiters(s: State, pid: int): int {
    Total(s.waiting, CountFor(pid))
  }

  lemma {:induction false} NoWaiters(m: map<string, seq<Thread>>, pid: int)
    requires forall sem, t :: sem in m && t in m[sem] ==> t.pid != pid
    ensures Total(m, CountFor(pid)) == 0
    decreases |m|
  {
    if m != map[] {
      var sem :| sem in m;
      TotalTake(m, CountFor(pid), sem);
      CountNone(m[sem], pid);
      NoWaiters(m - {sem}, pid);
    }
  }

  ghost function InBlocked(p: Program): int {
    p.inBlocked
  }

  /** cantidadDeHilosEnNew counts the program's threads that were never admitted. */
  ghost predicate NewCounted(s: State) {
    forall pid :: pid in s.programs ==> s.programs[pid].inNew == Unadmitted(s, pid)
  }

  ghost function Unadmitted(s: State, pid: int): int {
    CountPid(s.arrivals, pid) + if s.taken.Some? && s.taken.value.pid == pid then 1 else 0
  }

  /** cantidadDeHilosEnReady is the length of the program's ready list. */
  ghost predicate ReadyCounted(s: State) {
    forall pid :: pid in s.programs ==> s.programs[pid].inReady == |Entry(s.ready, pid, [])|
  }

  /** The blocked counters of all programs add up to the number of blocked threads. */
  ghost predicate BlockedCounted(s: State) {
    Total(s.programs, InBlocked) == |Sum(s.programs, Joining)| + |Sum(s.waiting, Listed)|
  }

  /** One program's blocked counter is off by exactly its drift. */
  ghost predicate BlockedDrifts(h: History) {
    && h.log.drift.Keys <= h.now.programs.Keys
    && forall pid :: pid in h.now.programs ==>
      h.now.programs[pid].inBlocked == Blocked(h.now, pid) + Entry(h.log.drift, pid, 0)
  }

  /** How many threads of a program are blocked, in its join lists and in semaphore queues. */
  ghost function Blocked(s: State, pid: int): int
    requires pid in s.programs
  {
    |Joining(s.programs[pid])| + Waiters(s, pid)
  }

  ghost predicate Counted(h: History) {
    NewCounted(h.now) && ReadyCounted(h.now) && BlockedCounted(h.now) && BlockedDrifts(h)
  }

  lemma StartCounted(semaphores: map<string, Semaphore>, maxMultiprog: int, alpha: real)
    ensures Counted(Start(semaphores, maxMultiprog, alpha))
  {
    EmptyQueues(map sem | sem in semaphores :: []);
  }

  // ---- the new counter ----

  /** Nothing about unadmitted threads has changed. */
  ghost predicate SameNew(s: State, s': State) {
    && s'.arrivals == s.arrivals && s'.taken == s.taken && s'.programs.Keys == s.programs.Keys
    && forall pid :: pid in s.programs ==> s'.programs[pid].inNew == s.programs[pid].inNew
  }

  lemma CreateNew(s: State, pid: int, tid: int)
    requires NewCounted(s) && pid in s.programs
    ensures NewCounted(CreateThread(s, pid, tid))
  {
    forall q
      ensures CountPid(CreateThread(s, pid, tid).arrivals, q) == CountPid(s.arrivals, q) + if q == pid then 1 else 0
    {
      CountPush(s.arrivals, Thread(pid, tid, 0.0, 0), q);
    }
  }

  lemma AdmitNew(s: State)
    requires NewCounted(s) && s.taken.Some? && s.permits > 0 && s.taken.value.pid in s.programs
    ensures NewCounted(Admit(s))
  {
    hide MoveToReady;
    assert NewCounted(Granted(s));
    MoveKeepsNew(Granted(s), s.taken.value);
  }

  lemma MoveKeepsNew(s: State, t: Thread)
    requires t.pid in s.programs
    ensures SameNew(s, MoveToReady(s, t))
  {
  }

  lemma ScheduleKeepsNew(s: State, pid: int, burst: int, order: seq<Thread>)
    requires CanSchedule(s, pid, order)
    ensures SameNew(s, ScheduleNext(s, pid, burst, order).0)
  {
    hide IsSorting;
  }

  lemma SignalKeepsNew(s: State, pid: int, sem: string)
    requires CanSignal(s, pid, sem)
    ensures SameNew(s, Signal(s, pid, sem))
  {
    hide MoveToReady;
    if Wakes(s, sem) {
      MoveKeepsNew(Popped(s, sem), s.waiting[sem][0]);
    }
  }

  lemma JoinKeepsNew(s: State, pid: int, target: int)
    ensures SameNew(s, Join(s, pid, target))
  {
    hide Finished, BlockedByAny;
  }

  lemma CloseKeepsNew(s: State, pid: int, tid: int)
    requires Shape(s) && Distinct(Threads(s)) && CanClose(s, pid, tid)
    ensures SameNew(s, Close(s, pid, tid))
  {
    hide Shape, Distinct, Threads, Close, Exit, Released, SameNew;
    CloseMoves(s, pid, tid);
    if s.programs[pid].exec.value.tid == tid {
      CanReleaseAfterExit(s, pid);
      ReleasedKeepsNew(s, pid);
    } else {
      assert SameNew(s, s) by { NewItself(s); }
    }
  }

  lemma NewItself(s: State)
    ensures SameNew(s, s)
  {
  }

  lemma ReleasedKeepsNew(s: State, pid: int)
    requires pid in s.programs && s.programs[pid].exec.Some?
    requires CanRelease(Exit(s, pid), pid, s.programs[pid].exec.value.tid)
    ensures SameNew(s, Released(Exit(s, pid), pid, s.programs[pid].exec.value.tid))
  {
  }

  lemma StepNew(h: History, e: Event)
    requires Partition(h) && NewCounted(h.now) && Enabled(h, e) && !e.Leave?
    ensures NewCounted(Apply(h, e))
  {
    hide Threads, Distinct, Known, Finished, BlockedByAny, IsSorting, ScheduleNext, Signal, Join, Close, CanClose,
      CanSignal;
    var s := h.now;
    match e
    case Connect(pid) => CountNone(s.arrivals, pid);
    case Create(pid, tid) => CreateNew(s, pid, tid);
    case Take =>
    case Grant => AdmitNew(s);
    case Schedule(pid, burst, order) => ScheduleKeepsNew(s, pid, burst, order);
    case WaitOn(pid, tid, sem) =>
    case SignalOn(pid, sem) => SignalKeepsNew(s, pid, sem);
    case JoinOn(pid, target) => JoinKeepsNew(s, pid, target);
    case CloseOf(pid, tid) => CloseKeepsNew(s, pid, tid);
  }

  // ---- the ready counter ----

  lemma AdmitReady(s: State)
    requires ReadyCounted(s) && s.taken.Some? && s.permits > 0 && s.taken.value.pid in s.programs
    ensures ReadyCounted(Admit(s))
  {
    hide MoveToReady;
    assert ReadyCounted(Granted(s));
    MoveCountsReady(Granted(s), s.taken.value);
  }

  lemma MoveCountsReady(s: State, t: Thread)
    requires ReadyCounted(s) && t.pid in s.programs
    ensures ReadyCounted(MoveToReady(s, t))
  {
  }

  lemma ScheduleReady(s: State, pid: int, burst: int, order: seq<Thread>)
    requires ReadyCounted(s) && CanSchedule(s, pid, order)
    ensures ReadyCounted(ScheduleNext(s, pid, burst, order).0)
  {
    SortingKeepsEmptiness(order, s.ready[pid]);
    hide IsSorting;
    PickReady(Reestimate(s, pid, burst).(ready := s.ready[pid := order]), pid);
  }

  lemma PickReady(s: State, pid: int)
    requires ReadyCounted(s) && pid in s.programs && pid in s.ready
      && (s.programs[pid].exec.Some? || s.ready[pid] != [])
    ensures ReadyCounted(PickNext(s, pid).0)
  {
  }

  lemma WaitReady(s: State, pid: int, tid: int, sem: string)
    requires ReadyCounted(s) && CanWait(s, pid, sem)
    ensures ReadyCounted(Wait(s, pid, tid, sem))
  {
  }

  lemma SignalReady(s: State, pid: int, sem: string)
    requires ReadyCounted(s) && CanSignal(s, pid, sem)
    ensures ReadyCounted(Signal(s, pid, sem))
  {
    hide MoveToReady;
    if Wakes(s, sem) {
      assert ReadyCounted(Popped(s, sem));
      MoveKeepsNew(Popped(s, sem), s.waiting[sem][0]);
      MoveCountsReady(Popped(s, sem), s.waiting[sem][0]);
    }
  }

  lemma JoinReady(s: State, pid: int, target: int)
    requires ReadyCounted(s)
    ensures ReadyCounted(Join(s, pid, target))
  {
    hide Finished, BlockedByAny;
  }

  lemma CloseReady(s: State, pid: int, tid: int)
    requires Shape(s) && Distinct(Threads(s)) && CanClose(s, pid, tid) && ReadyCounted(s)
    ensures ReadyCounted(Close(s, pid, tid))
  {
    hide Shape, Distinct, Threads, Close, Exit, Released, ReadyCounted;
    CloseMoves(s, pid, tid);
    if s.programs[pid].exec.value.tid == tid {
      CanReleaseAfterExit(s, pid);
      ReleasedReady(s, pid);
    }
  }

  lemma ReleasedReady(s: State, pid: int)
    requires ReadyCounted(s) && pid in s.programs && s.programs[pid].exec.Some?
    requires CanRelease(Exit(s, pid), pid, s.programs[pid].exec.value.tid)
    ensures ReadyCounted(Released(Exit(s, pid), pid, s.programs[pid].exec.value.tid))
  {
  }

  lemma StepReady(h: History, e: Event)
    requires Partition(h) && ReadyCounted(h.now) && Enabled(h, e) && !e.Leave?
    ensures ReadyCounted(Apply(h, e))
  {
    hide Threads, Distinct, Known, Finished, BlockedByAny, IsSorting, ScheduleNext, Signal, Join, Close, Wait, Admit,
      CanWait, CanClose, CanSignal;
    var s := h.now;
    match e
    case Connect(pid) =>
    case Create(pid, tid) =>
    case Take =>
    case Grant => AdmitReady(s);
    case Schedule(pid, burst, order) => ScheduleReady(s, pid, burst, order);
    case WaitOn(pid, tid, sem) => WaitReady(s, pid, tid, sem);
    case SignalOn(pid, sem) => SignalReady(s, pid, sem);
    case JoinOn(pid, target) => JoinReady(s, pid, target);
    case CloseOf(pid, tid) => CloseReady(s, pid, tid);
  }

  // ---- the blocked counters ----

  /** Nothing about blocked threads has changed. */
  ghost predicate SameBlocked(s: State, s': State) {
    && s'.waiting == s.waiting && s'.programs.Keys == s.programs.Keys
    && forall pid :: pid in s.programs ==>
      s'.programs[pid].inBlocked == s.programs[pid].inBlocked && s'.programs[pid].blocked == s.programs[pid].blocked
  }

  lemma SameBlockedCounted(s: State, s': State)
    requires SameBlocked(s, s')
    ensures Total(s'.programs, InBlocked) == Total(s.programs, InBlocked)
    ensures Sum(s'.programs, Joining) == Sum(s.programs, Joining)
    ensures forall pid :: pid in s.programs ==> Blocked(s', pid) == Blocked(s, pid)
  {
    hide Sum, Total;
    forall pid | pid in s.programs
      ensures InBlocked(s'.programs[pid]) == InBlocked(s.programs[pid])
      ensures Joining(s'.programs[pid]) == Joining(s.programs[pid])
    {
    }
    TotalSame(s.programs, s'.programs, InBlocked);
    SumSame(s.programs, s'.programs, Joining);
  }

  lemma MoveKeepsBlocked(s: State, t: Thread)
    requires t.pid in s.programs
    ensures SameBlocked(s, MoveToReady(s, t))
  {
  }

  lemma AdmitKeepsBlocked(s: State)
    requires s.taken.Some? && s.permits > 0 && s.taken.value.pid in s.programs
    ensures SameBlocked(s, Admit(s))
  {
    hide MoveToReady;
    MoveKeepsBlocked(Granted(s), s.taken.value);
  }

  lemma ScheduleKeepsBlocked(s: State, pid: int, burst: int, order: seq<Thread>)
    requires CanSchedule(s, pid, order)
    ensures SameBlocked(s, ScheduleNext(s, pid, burst, order).0)
  {
    hide IsSorting, PickNext;
    SortingKeepsEmptiness(order, s.ready[pid]);
    PickKeepsBlocked(Reestimate(s, pid, burst).(ready := s.ready[pid := order]), pid);
  }

  lemma PickKeepsBlocked(s: State, pid: int)
    requires pid in s.programs && pid in s.ready && (s.programs[pid].exec.Some? || s.ready[pid] != [])
    ensures SameBlocked(s, PickNext(s, pid).0)
  {
  }

  /** The running thread of a program is in none of its join lists. */
  lemma RunningIsFree(s: State, pid: int)
    requires Shape(s) && Distinct(Threads(s)) && pid in s.programs && s.programs[pid].exec.Some?
    ensures !BlockedByAny(s.programs[pid], s.programs[pid].exec.value.tid)
  {
    hide Threads, Distinct;
    var p := s.programs[pid];
    var t := p.exec.value;
    forall k: int, u: Thread | k in p.blocked && u in p.blocked[k] ensures u.tid != t.tid {
      TwoIds(s, JoinedOn(pid, k), u, IsRunning(pid), t);
      assert u.pid == t.pid == pid;
    }
  }

  // the sum over all programs

  lemma ConnectBlocked(s: State, pid: int)
    requires BlockedCounted(s) && pid !in s.programs
    ensures BlockedCounted(AddProgram(s, pid))
  {
    hide Sum, Total;
    var q := Program(None, map[], 0, 0, 0);
    TotalUpdate(s.programs, InBlocked, pid, q);
    SumUpdate(s.programs, Joining, pid, q);
    NothingJoins(q);
  }

  lemma NothingJoins(q: Program)
    requires q.blocked == map[]
    ensures Joining(q) == multiset{}
  {
  }

  lemma WaitBlocked(s: State, pid: int, tid: int, sem: string)
    requires BlockedCounted(s) && CanWait(s, pid, sem)
    ensures BlockedCounted(Wait(s, pid, tid, sem))
  {
    hide Sum, Total;
    if sem in s.semaphores && s.semaphores[sem].value <= 0 && s.programs[pid].exec.value.tid == tid {
      var p := s.programs[pid];
      TotalUpdate(s.programs, InBlocked, pid, p.(exec := None, inBlocked := p.inBlocked + 1));
      RunningLeaves(s.programs, pid, p.(exec := None, inBlocked := p.inBlocked + 1));
      ListPush(s.waiting, sem, p.exec.value);
    }
  }

  lemma SignalBlocked(s: State, pid: int, sem: string)
    requires BlockedCounted(s) && CanSignal(s, pid, sem)
    ensures BlockedCounted(Signal(s, pid, sem))
  {
    hide Sum, Total, MoveToReady;
    if Wakes(s, sem) {
      var s1 := MoveToReady(Popped(s, sem), s.waiting[sem][0]);
      MoveKeepsBlocked(Popped(s, sem), s.waiting[sem][0]);
      SameBlockedCounted(Popped(s, sem), s1);
      ListPop(s.waiting, sem);
      var q := s1.programs[pid].(inBlocked := s1.programs[pid].inBlocked - 1);
      TotalUpdate(s1.programs, InBlocked, pid, q);
      RunningStays(s1.programs, pid, q);
    }
  }

  lemma JoinBlocked(s: State, pid: int, target: int)
    requires Shape(s) && Distinct(Threads(s)) && BlockedCounted(s)
    ensures BlockedCounted(Join(s, pid, target))
  {
    hide Sum, Total, Finished, BlockedByAny, Shape, Distinct, Threads;
    if pid in s.programs && s.programs[pid].exec.Some? && !Finished(s.exited, target) {
      var p := s.programs[pid];
      RunningIsFree(s, pid);
      var q := Join(s, pid, target).programs[pid];
      ListPush(p.blocked, target, p.exec.value);
      TotalUpdate(s.programs, InBlocked, pid, q);
      SumUpdate(s.programs, Joining, pid, q);
    }
  }

  lemma ReleasedJoining(p: Program, tid: int)
    requires tid in p.blocked
    ensures Joining(p) == Joining(p.(blocked := p.blocked[tid := []])) + multiset(p.blocked[tid])
  {
    hide Sum;
    SumUpdate(p.blocked, Listed, tid, []);
  }

  lemma CloseBlocked(s: State, pid: int, tid: int)
    requires Shape(s) && Distinct(Threads(s)) && CanClose(s, pid, tid) && BlockedCounted(s)
    ensures BlockedCounted(Close(s, pid, tid))
  {
    hide Sum, Total, Shape, Distinct, Threads, Release;
    CloseMoves(s, pid, tid);
    var p := s.programs[pid];
    if p.exec.value.tid == tid {
      var q := Close(s, pid, tid).programs[pid];
      assert Close(s, pid, tid).programs == s.programs[pid := q];
      TotalUpdate(s.programs, InBlocked, pid, q);
      SumUpdate(s.programs, Joining, pid, q);
      if Joiners(p, tid) != [] {
        ReleasedJoining(p, tid);
      }
    }
  }

  lemma StepBlocked(h: History, e: Event)
    requires Partition(h) && BlockedCounted(h.now) && Enabled(h, e) && !e.Leave?
    ensures BlockedCounted(Apply(h, e))
  {
    hide Sum, Total, Threads, Distinct, Known, Shape, IsSorting, ScheduleNext, Signal, Join, Close, Wait, Admit,
      AddProgram, CanWait, CanClose, CanSignal;
    var s := h.now;
    match e
    case Connect(pid) => ConnectBlocked(s, pid);
    case Create(pid, tid) => SameBlockedCounted(s, Apply(h, e));
    case Take => SameBlockedCounted(s, Apply(h, e));
    case Grant => AdmitKeepsBlocked(s); SameBlockedCounted(s, Apply(h, e));
    case Schedule(pid, burst, order) => ScheduleKeepsBlocked(s, pid, burst, order); SameBlockedCounted(s, Apply(h, e));
    case WaitOn(pid, tid, sem) => WaitBlocked(s, pid, tid, sem);
    case SignalOn(pid, sem) => SignalBlocked(s, pid, sem);
    case JoinOn(pid, target) => JoinBlocked(s, pid, target);
    case CloseOf(pid, tid) => CloseBlocked(s, pid, tid);
  }

  // each program on its own

  lemma WaitersPush(s: State, sem: string, t: Thread, pid: int)
    requires sem in s.waiting
    ensures Waiters(s.(waiting := s.waiting[sem := s.waiting[sem] + [t]]), pid)
      == Waiters(s, pid) + if t.pid == pid then 1 else 0
  {
    hide Total;
    TotalUpdate(s.waiting, CountFor(pid), sem, s.waiting[sem] + [t]);
    CountPush(s.waiting[sem], t, pid);
  }

  lemma WaitersPop(s: State, sem: string, pid: int)
    requires sem in s.waiting && s.waiting[sem] != []
    ensures Waiters(Popped(s, sem), pid) == Waiters(s, pid) - if s.waiting[sem][0].pid == pid then 1 else 0
  {
    hide Total;
    TotalUpdate(s.waiting, CountFor(pid), sem, s.waiting[sem][1..]);
  }

  lemma ConnectDrifts(h: History, pid: int)
    requires Shape(h.now) && BlockedDrifts(h) && pid !in h.now.programs
    ensures BlockedDrifts(History(AddProgram(h.now, pid), h.log))
  {
    hide Total, Sum;
    NoWaiters(h.now.waiting, pid);
    NothingJoins(Program(None, map[], 0, 0, 0));
  }

  lemma WaitDrifts(h: History, pid: int, tid: int, sem: string)
    requires Shape(h.now) && BlockedDrifts(h) && CanWait(h.now, pid, sem)
    ensures BlockedDrifts(History(Wait(h.now, pid, tid, sem), h.log))
  {
    hide Total, Sum;
    var s := h.now;
    if Blocks(s, pid, tid, sem) {
      var t := s.programs[pid].exec.value;
      var s' := Wait(s, pid, tid, sem);
      forall q | q in s.programs
        ensures s'.programs[q].inBlocked - Blocked(s', q) == s.programs[q].inBlocked - Blocked(s, q)
      {
        WaitersPush(s, sem, t, q);
        assert Joining(s'.programs[q]) == Joining(s.programs[q]);
      }
    }
  }

  lemma SignalDrifts(h: History, pid: int, sem: string)
    requires BlockedDrifts(h) && CanSignal(h.now, pid, sem) && Wakes(h.now, sem)
    ensures var s := h.now;
      BlockedDrifts(History(
        Wake(s, pid, sem), h.log.(drift := Bump(Bump(h.log.drift, s.waiting[sem][0].pid, 1), pid, -1))))
  {
    hide Total, Sum, MoveToReady;
    var s := h.now;
    var t := s.waiting[sem][0];
    var s1 := MoveToReady(Popped(s, sem), t);
    MoveKeepsBlocked(Popped(s, sem), t);
    SameBlockedCounted(Popped(s, sem), s1);
    var s' := Wake(s, pid, sem);
    forall q | q in s.programs
      ensures Blocked(s', q) == Blocked(s, q) - (if t.pid == q then 1 else 0)
      ensures s'.programs[q].inBlocked == s.programs[q].inBlocked - (if pid == q then 1 else 0)
    {
      WaitersPop(s, sem, q);
      assert Joining(s'.programs[q]) == Joining(s.programs[q]);
    }
  }

  lemma JoinDrifts(h: History, pid: int, target: int)
    requires Shape(h.now) && Distinct(Threads(h.now)) && BlockedDrifts(h)
    ensures BlockedDrifts(History(Join(h.now, pid, target), h.log))
  {
    hide Total, Sum, Finished, BlockedByAny, Shape, Distinct, Threads;
    var s := h.now;
    if pid in s.programs && s.programs[pid].exec.Some? && !Finished(s.exited, target) {
      RunningIsFree(s, pid);
      ListPush(s.programs[pid].blocked, target, s.programs[pid].exec.value);
    }
  }

  lemma CloseDrifts(h: History, pid: int, tid: int)
    requires Shape(h.now) && Distinct(Threads(h.now)) && CanClose(h.now, pid, tid) && BlockedDrifts(h)
    ensures BlockedDrifts(History(Close(h.now, pid, tid), h.log))
  {
    hide Total, Sum, Shape, Distinct, Threads, Release;
    var s := h.now;
    CloseMoves(s, pid, tid);
    if s.programs[pid].exec.value.tid == tid && Joiners(s.programs[pid], tid) != [] {
      ReleasedJoining(s.programs[pid], tid);
    }
  }

  lemma SameDrifts(h: History, s': State)
    requires BlockedDrifts(h) && SameBlocked(h.now, s')
    ensures BlockedDrifts(History(s', h.log))
  {
    hide Total, Sum;
    SameBlockedCounted(h.now, s');
  }

  lemma StepDrifts(h: History, e: Event)
    requires Partition(h) && BlockedDrifts(h) && Enabled(h, e) && !e.Leave?
    ensures BlockedDrifts(Next(h, e))
  {
    hide Sum, Total, Threads, Distinct, Known, Shape, IsSorting, ScheduleNext, Wake, Join, Close, Wait, Admit,
      AddProgram, CanWait, CanClose, Bump, Blocked;
    var s := h.now;
    match e
    case Connect(pid) => ConnectDrifts(h, pid);
    case Create(pid, tid) => SameDrifts(h, Apply(h, e));
    case Take => SameDrifts(h, Apply(h, e));
    case Grant => AdmitKeepsBlocked(s); SameDrifts(h, Apply(h, e));
    case Schedule(pid, burst, order) => ScheduleKeepsBlocked(s, pid, burst, order); SameDrifts(h, Apply(h, e));
    case WaitOn(pid, tid, sem) => WaitDrifts(h, pid, tid, sem);
    case SignalOn(pid, sem) =>
      if Wakes(s, sem) { SignalDrifts(h, pid, sem); } else { SameDrifts(h, Apply(h, e)); }
    case JoinOn(pid, target) => JoinDrifts(h, pid, target);
    case CloseOf(pid, tid) => CloseDrifts(h, pid, tid);
  }

  /** Counter conservation over every run without disconnects. */
  lemma {:induction false} RunCounted(h: History, es: seq<Event>, last: History)
    requires Partition(h) && Counted(h) && Connected(es) && Run(h, es, last)
    ensures Counted(last)
    decreases |es|
  {
    hide Partition, Enabled, Apply, Logged, NewCounted, ReadyCounted, BlockedCounted, BlockedDrifts;
    if es != [] {
      assert es[0] in es;
      StepPartition(h, es[0]);
      StepNew(h, es[0]);
      StepReady(h, es[0]);
      StepBlocked(h, es[0]);
      StepDrifts(h, es[0]);
      RunCounted(Next(h, es[0]), es[1..], last);
    }
  }

  /** Every signal of the run that wakes a thread wakes one of the signalling program. */
  ghost predicate OwnSignals(h: History, es: seq<Event>)
    decreases |es|
  {
    es != [] && Enabled(h, es[0]) ==>
      && (es[0].SignalOn? && Wakes(h.now, es[0].sem) ==> h.now.waiting[es[0].sem][0].pid == es[0].pid)
      && OwnSignals(Next(h, es[0]), es[1..])
  }

  ghost predicate NoDrift(h: History) {
    forall pid :: Entry(h.log.drift, pid, 0) == 0
  }

  lemma StepNoDrift(h: History, e: Event)
    requires NoDrift(h) && Enabled(h, e)
    requires e.SignalOn? && Wakes(h.now, e.sem) ==> h.now.waiting[e.sem][0].pid == e.pid
    ensures NoDrift(Next(h, e))
  {
    hide Apply, CanSchedule, CanSignal, CanWait, CanClose, Bump;
    if e.SignalOn? && Wakes(h.now, e.sem) {
      BumpBack(h.log.drift, e.pid);
    }
  }

  lemma BumpBack(m: map<int, int>, k: int)
    ensures forall q :: Entry(Bump(Bump(m, k, 1), k, -1), q, 0) == Entry(m, q, 0)
  {
  }

  lemma {:induction false} RunNoDrift(h: History, es: seq<Event>, last: History)
    requires NoDrift(h) && Run(h, es, last) && OwnSignals(h, es)
    ensures NoDrift(last)
    decreases |es|
  {
    if es != [] {
      StepNoDrift(h, es[0]);
      RunNoDrift(Next(h, es[0]), es[1..], last);
    }
  }

  /** When signals wake only the signaller's own threads, each program's blocked counter is exact. */
  lemma OwnSignalsCount(semaphores: map<string, Semaphore>, maxMultiprog: int, alpha: real, es: seq<Event>,
      last: History, pid: int)
    requires maxMultiprog >= 0 && Connected(es) && Run(Start(semaphores, maxMultiprog, alpha), es, last)
    requires OwnSignals(Start(semaphores, maxMultiprog, alpha), es) && pid in last.now.programs
    ensures last.now.programs[pid].inBlocked == Blocked(last.now, pid)
  {
    hide Run, OwnSignals, Blocked, Partition, NewCounted, ReadyCounted, BlockedCounted;
    var h := Start(semaphores, maxMultiprog, alpha);
    StartPartition(semaphores, maxMultiprog, alpha);
    StartCounted(semaphores, maxMultiprog, alpha);
    RunCounted(h, es, last);
    RunNoDrift(h, es, last);
  }
}
