/** What every reachable state of the scheduler keeps about joins, semaphores and permits. */
module SuseSafety {
  import opened Basics
  import opened MapSums
  import opened Suse
  import opened SuseThreads
  import opened SuseRuns

  // ================= no lost join =================

  /** The thread with this id is in the list. */
  ghost predicate Ended(list: seq<Thread>, tid: int) {
    exists t :: t in list && t.tid == tid
  }

  /** No thread waits for a thread of its program that has already finished. */
  ghost predicate NoLostJoin(s: State) {
    forall pid, tid :: pid in s.programs && Joiners(s.programs[pid], tid) != [] ==>
      !Ended(Entry(s.exited, pid, []), tid)
  }

  /** Join lists and exit lists are as before; a new program has none. */
  ghost predicate SameJoins(s: State, s': State) {
    && s'.exited == s.exited
    && forall pid, tid :: pid in s'.programs && Joiners(s'.programs[pid], tid) != [] ==>
      pid in s.programs && Joiners(s.programs[pid], tid) != []
  }

  lemma MoveSameJoins(s: State, t: Thread)
    requires t.pid in s.programs
    ensures SameJoins(s, MoveToReady(s, t)) && t.pid in MoveToReady(s, t).programs
      && MoveToReady(s, t).programs.Keys == s.programs.Keys
  {
  }

  lemma AdmitSameJoins(s: State)
    requires s.taken.Some? && s.permits > 0 && s.taken.value.pid in s.programs
    ensures SameJoins(s, Admit(s))
  {
    hide MoveToReady;
    MoveSameJoins(Granted(s), s.taken.value);
  }

  lemma SignalSameJoins(s: State, pid: int, sem: string)
    requires CanSignal(s, pid, sem)
    ensures SameJoins(s, Signal(s, pid, sem))
  {
    hide MoveToReady;
    if Wakes(s, sem) {
      MoveSameJoins(Popped(s, sem), s.waiting[sem][0]);
    }
  }

  lemma ScheduleSameJoins(s: State, pid: int, burst: int, order: seq<Thread>)
    requires CanSchedule(s, pid, order)
    ensures SameJoins(s, ScheduleNext(s, pid, burst, order).0)
  {
    hide IsSorting;
  }

  lemma JoinNotLost(s: State, pid: int, target: int)
    requires NoLostJoin(s)
    ensures NoLostJoin(Join(s, pid, target))
  {
    hide BlockedByAny;
    var s' := Join(s, pid, target);
    if s' != s {
      assert !Ended(Entry(s.exited, pid, []), target);
    }
    forall q, tid | q in s'.programs && Joiners(s'.programs[q], tid) != []
      ensures !Ended(Entry(s'.exited, q, []), tid)
    {
      assert (q, tid) == (pid, target) || Joiners(s.programs[q], tid) != [];
    }
  }

  lemma CloseNotLost(s: State, pid: int, tid: int)
    requires Shape(s) && Distinct(Threads(s)) && CanClose(s, pid, tid) && NoLostJoin(s)
    ensures NoLostJoin(Close(s, pid, tid))
  {
    hide Shape, Distinct, Threads, Close, Exit, NoLostJoin;
    CloseMoves(s, pid, tid);
    if s.programs[pid].exec.value.tid == tid {
      CanReleaseAfterExit(s, pid);
      ReleasedNotLost(s, pid);
    }
  }

  lemma ReleasedNotLost(s: State, pid: int)
    requires NoLostJoin(s) && pid in s.programs && s.programs[pid].exec.Some?
    requires CanRelease(Exit(s, pid), pid, s.programs[pid].exec.value.tid)
    ensures NoLostJoin(Released(Exit(s, pid), pid, s.programs[pid].exec.value.tid))
  {
    hide Ended;
    var t := s.programs[pid].exec.value;
    var s' := Released(Exit(s, pid), pid, t.tid);
    forall q, k | q in s'.programs && Joiners(s'.programs[q], k) != [] ensures !Ended(Entry(s'.exited, q, []), k) {
      assert Joiners(s.programs[q], k) != [];
      if q == pid {
        PushTid(Entry(s.exited, q, []), t, k);
      }
    }
  }

  lemma PushTid(list: seq<Thread>, t: Thread, tid: int)
    requires !Ended(list, tid) && t.tid != tid
    ensures !Ended(list + [t], tid)
  {
  }

  lemma StepNoLostJoin(h: History, e: Event)
    requires Partition(h) && NoLostJoin(h.now) && Enabled(h, e) && !e.Leave?
    ensures NoLostJoin(Apply(h, e))
  {
    hide Threads, Distinct, Known, Shape, Admit, ScheduleNext, Signal, Close, Join, IsSorting, CanSignal, CanClose,
      Ended;
    var s := h.now;
    match e
    case Connect(pid) => assert SameJoins(s, AddProgram(s, pid));
    case Create(pid, tid) => assert SameJoins(s, CreateThread(s, pid, tid));
    case Take => assert SameJoins(s, TakeNew(s));
    case Grant => AdmitSameJoins(s);
    case Schedule(pid, burst, order) => ScheduleSameJoins(s, pid, burst, order);
    case WaitOn(pid, tid, sem) => assert SameJoins(s, Wait(s, pid, tid, sem));
    case SignalOn(pid, sem) => SignalSameJoins(s, pid, sem);
    case JoinOn(pid, target) => JoinNotLost(s, pid, target);
    case CloseOf(pid, tid) => CloseNotLost(s, pid, tid);
  }

  /** When a thread closes itself, the threads joined on it are ready after that step, in the order
      they joined, nobody is left joined on it, and it is in the exit list of its program. */
  lemma CloseWakesJoiners(h: History, pid: int, tid: int)
    requires Partition(h) && Enabled(h, CloseOf(pid, tid)) && h.now.programs[pid].exec.value.tid == tid
    ensures ClosedAndWoken(h.now, Apply(h, CloseOf(pid, tid)), pid, tid)
  {
    hide Threads, Distinct, Known, Shape, Close, Release, Exit, Released, ClosedAndWoken;
    CloseMoves(h.now, pid, tid);
    CanReleaseAfterExit(h.now, pid);
    RunningReady(h.now, pid);
    ReleasedWakes(h.now, pid);
  }

  ghost predicate ClosedAndWoken(s: State, s': State, pid: int, tid: int) {
    && pid in s.programs && pid in s'.programs && pid in s.ready && pid in s'.ready
    && s'.ready[pid] == s.ready[pid] + Joiners(s.programs[pid], tid)
    && Joiners(s'.programs[pid], tid) == []
    && Ended(Entry(s'.exited, pid, []), tid)
  }

  lemma RunningReady(s: State, pid: int)
    requires Shape(s) && pid in s.programs && s.programs[pid].exec.Some?
    ensures pid in s.ready
  {
  }

  lemma ReleasedWakes(s: State, pid: int)
    requires pid in s.programs && s.programs[pid].exec.Some? && pid in s.ready
    requires CanRelease(Exit(s, pid), pid, s.programs[pid].exec.value.tid)
    ensures var tid := s.programs[pid].exec.value.tid;
      ClosedAndWoken(s, Released(Exit(s, pid), pid, tid), pid, tid)
  {
    var t := s.programs[pid].exec.value;
    var s' := Released(Exit(s, pid), pid, t.tid);
    assert Entry(s'.exited, pid, []) == Entry(s.exited, pid, []) + [t];
    assert t in Entry(s'.exited, pid, []);
    assert s.ready[pid] + [] == s.ready[pid];
  }

  /** bloqueadoPorAlgunHilo looks at every thread of every join list of the program. */
  lemma BlockedByAnyExactly(p: Program, tid: int)
    ensures BlockedByAny(p, tid) <==> exists k :: k in p.blocked && exists t :: t in p.blocked[k] && t.tid == tid
  {
  }

  /** realizarJoin does nothing exactly when nobody runs or some program, not just the caller's, has
      finished a thread of the awaited id. */
  lemma JoinIgnoresExactly(s: State, pid: int, target: int)
    ensures Join(s, pid, target) == s
      <==> (pid !in s.programs || s.programs[pid].exec.None?
            || exists q :: q in s.exited && exists t :: t in s.exited[q] && t.tid == target)
  {
    hide BlockedByAny;
  }

  /** A thread that joins a thread of its program that has not finished waits for it exactly when no
      other program has finished a thread of that id: terminoElHilo compares ids alone. */
  lemma JoinWaitsExactly(s: State, pid: int, target: int)
    requires pid in s.programs && s.programs[pid].exec.Some?
    requires forall t :: t in Entry(s.exited, pid, []) ==> t.tid != target
    ensures var p, p' := s.programs[pid], Join(s, pid, target).programs[pid];
      (p'.exec.None? && Joiners(p', target) == Joiners(p, target) + [p.exec.value])
      <==> (forall q :: q in s.exited && q != pid ==> forall t :: t in s.exited[q] ==> t.tid != target)
  {
    hide BlockedByAny;
  }

  // ================= semaphores =================

  /** A semaphore configured with 0 <= init <= max and max >= 1 (SEM_INIT and SEM_MAX). */
  predicate WellConfigured(semaphores: map<string, Semaphore>) {
    forall sem :: sem in semaphores ==> 0 <= semaphores[sem].value <= semaphores[sem].max && 1 <= semaphores[sem].max
  }

  ghost predicate SemaphoresOk(s: State) {
    && s.waiting.Keys == s.semaphores.Keys
    && WellConfigured(s.semaphores)
    && forall sem :: sem in s.semaphores ==> s.semaphores[sem].value == 0 || s.waiting[sem] == []
  }

  /** The single number a semaphore stands for: negative when threads are waiting. */
  function Level(s: State, sem: string): int
    requires sem in s.semaphores && sem in s.waiting
  {
    s.semaphores[sem].value - |s.waiting[sem]|
  }

  /** wait takes one off the level, unless it is refused to a thread that is not running. */
  lemma WaitLowersLevel(s: State, pid: int, tid: int, sem: string)
    requires sem in s.semaphores && sem in s.waiting && CanWait(s, pid, sem) && !s.halted
    ensures Level(Wait(s, pid, tid, sem), sem) == Level(s, sem) - if Wait(s, pid, tid, sem).halted then 0 else 1
    ensures forall other :: other in s.semaphores && other in s.waiting && other != sem ==>
      Level(Wait(s, pid, tid, sem), other) == Level(s, other)
  {
  }

  /** signal raises the level by one up to the maximum exactly when the value is below the maximum,
      or the level is the maximum already. */
  lemma SignalRaisesLevel(s: State, pid: int, sem: string)
    requires sem in s.semaphores && sem in s.waiting && CanSignal(s, pid, sem)
    ensures Level(Signal(s, pid, sem), sem) == Min(Level(s, sem) + 1, s.semaphores[sem].max)
      <==> s.semaphores[sem].value < s.semaphores[sem].max || Level(s, sem) == s.semaphores[sem].max
    ensures forall other :: other in s.semaphores && other in s.waiting && other != sem ==>
      Level(Signal(s, pid, sem), other) == Level(s, other)
  {
    hide CanWake;
  }

  /** A step that touches no semaphore. */
  ghost predicate SameSemaphores(s: State, s': State) {
    s'.semaphores == s.semaphores && s'.waiting == s.waiting && s'.halted == s.halted
  }

  lemma {:induction false} ReleaseSameSemaphores(s: State, pid: int, tid: int)
    requires CanRelease(s, pid, tid)
    ensures SameSemaphores(s, Release(s, pid, tid)) && Release(s, pid, tid).permits == s.permits
    decreases |Joiners(s.programs[pid], tid)|
  {
    hide BlockedByAny;
    if Joiners(s.programs[pid], tid) != [] {
      ReleaseSameSemaphores(ReleaseOne(s, pid, tid), pid, tid);
    }
  }

  lemma OtherSteps(h: History, e: Event)
    requires Enabled(h, e) && !e.WaitOn? && !e.SignalOn?
    ensures SameSemaphores(h.now, Apply(h, e))
  {
    hide IsSorting, Finished, BlockedByAny, Release;
    if e.CloseOf? && h.now.programs[e.pid].exec.value.tid == e.tid {
      ReleaseSameSemaphores(Exit(h.now, e.pid), e.pid, e.tid);
    }
  }

  lemma WaitKeepsOk(s: State, pid: int, tid: int, sem: string)
    requires SemaphoresOk(s) && CanWait(s, pid, sem)
    ensures SemaphoresOk(Wait(s, pid, tid, sem))
  {
  }

  lemma MoveSameSemaphores(s: State, t: Thread)
    requires t.pid in s.programs
    ensures SameSemaphores(s, MoveToReady(s, t)) && MoveToReady(s, t).permits == s.permits
  {
  }

  lemma SignalKeepsOk(s: State, pid: int, sem: string)
    requires SemaphoresOk(s) && CanSignal(s, pid, sem)
    ensures SemaphoresOk(Signal(s, pid, sem))
  {
    hide MoveToReady;
    if Wakes(s, sem) {
      MoveSameSemaphores(Popped(s, sem), s.waiting[sem][0]);
    }
  }

  lemma StepSemaphores(h: History, e: Event)
    requires SemaphoresOk(h.now) && Enabled(h, e)
    ensures SemaphoresOk(Apply(h, e))
  {
    match e
    case WaitOn(pid, tid, sem) =>
      hide CanWait;
      WaitKeepsOk(h.now, pid, tid, sem);
    case SignalOn(pid, sem) =>
      hide CanSignal, Signal;
      SignalKeepsOk(h.now, pid, sem);
    case _ =>
      hide Apply;
      OtherSteps(h, e);
  }

  /** What the requests of a run make of one semaphore, seen as a single bounded number. */
  function LevelAfter(level: int, max: int, es: seq<Event>, sem: string): int
    decreases |es|
  {
    if es == [] then level
    else
      LevelAfter(
        if es[0].WaitOn? && es[0].sem == sem then level - 1
        else if es[0].SignalOn? && es[0].sem == sem then Min(level + 1, max)
        else level,
        max, es[1..], sem)
  }

  lemma StepLevel(h: History, e: Event, sem: string)
    requires SemaphoresOk(h.now) && Enabled(h, e) && sem in h.now.semaphores && !Apply(h, e).halted
    ensures sem in Apply(h, e).semaphores && sem in Apply(h, e).waiting
    ensures Apply(h, e).semaphores[sem].max == h.now.semaphores[sem].max
    ensures Level(Apply(h, e), sem) == LevelAfter(Level(h.now, sem), h.now.semaphores[sem].max, [e], sem)
  {
    var s := h.now;
    assert [e][1..] == [];
    match e
    case WaitOn(pid, tid, x) =>
      hide Level, WellConfigured, Wait, CanWait;
      WaitKeepsMax(s, pid, tid, x);
      if x in s.semaphores {
        WaitLowersLevel(s, pid, tid, x);
      }
    case SignalOn(pid, x) =>
      hide CanSignal, Signal;
      if x in s.semaphores {
        SignalRaisesLevel(s, pid, x);
      }
      SignalKeepsMax(s, pid, x);
    case _ =>
      hide Apply;
      OtherSteps(h, e);
  }

  lemma WaitKeepsMax(s: State, pid: int, tid: int, sem: string)
    requires CanWait(s, pid, sem) && s.waiting.Keys == s.semaphores.Keys
    ensures Wait(s, pid, tid, sem).semaphores.Keys == s.semaphores.Keys
    ensures Wait(s, pid, tid, sem).waiting.Keys == s.waiting.Keys
    ensures forall x :: x in s.semaphores ==> Wait(s, pid, tid, sem).semaphores[x].max == s.semaphores[x].max
    ensures sem !in s.semaphores ==> Wait(s, pid, tid, sem) == s
  {
  }

  lemma SignalKeepsMax(s: State, pid: int, sem: string)
    requires CanSignal(s, pid, sem)
    ensures Signal(s, pid, sem).semaphores.Keys == s.semaphores.Keys
    ensures s.waiting.Keys == s.semaphores.Keys ==> Signal(s, pid, sem).waiting.Keys == s.waiting.Keys
    ensures forall x :: x in s.semaphores ==> Signal(s, pid, sem).semaphores[x].max == s.semaphores[x].max
    ensures sem !in s.semaphores ==> Signal(s, pid, sem) == s
  {
    hide MoveToReady;
    if Wakes(s, sem) {
      MoveSameSemaphores(Popped(s, sem), s.waiting[sem][0]);
    }
  }

  /** Semaphore refinement over whole runs: bounds and the empty-queue rule are kept, and the
      semaphore is at the level its waits and signals alone give, whatever else happens. */
  lemma {:induction false} RunSemaphores(h: History, es: seq<Event>, last: History, sem: string)
    requires SemaphoresOk(h.now) && sem in h.now.semaphores && Run(h, es, last) && !last.now.halted
    ensures SemaphoresOk(last.now) && sem in last.now.semaphores
    ensures last.now.semaphores[sem].max == h.now.semaphores[sem].max
    ensures Level(last.now, sem) == LevelAfter(Level(h.now, sem), h.now.semaphores[sem].max, es, sem)
    decreases |es|
  {
    hide Enabled, Apply, Logged, Level;
    if es != [] {
      NotHaltedBefore(Next(h, es[0]), es[1..], last);
      StepSemaphores(h, es[0]);
      StepLevel(h, es[0], sem);
      RunSemaphores(Next(h, es[0]), es[1..], last, sem);
      assert [es[0]][1..] == [];
    }
  }

  lemma NotHaltedBefore(h: History, es: seq<Event>, last: History)
    requires Run(h, es, last) && !last.now.halted
    ensures !h.now.halted
  {
    hide Apply;
  }

  // ---- threads wake in the order they blocked ----

  function Ids(q: seq<Thread>): seq<Key> {
    seq(|q|, i requires 0 <= i < |q| => q[i].Id())
  }

  /** Who blocked on a semaphore is who was woken from it, in the same order, then who still waits. */
  ghost predicate Fifo(h: History) {
    forall sem :: sem in h.now.waiting ==>
      Entry(h.log.blocked, sem, []) == Entry(h.log.woken, sem, []) + Ids(h.now.waiting[sem])
  }

  lemma WaitFifo(h: History, pid: int, tid: int, sem: string)
    requires h.now.waiting.Keys == h.now.semaphores.Keys && Fifo(h) && Blocks(h.now, pid, tid, sem)
    ensures var t := h.now.programs[pid].exec.value.Id();
      Fifo(History(Wait(h.now, pid, tid, sem),
        h.log.(blocked := h.log.blocked[sem := Entry(h.log.blocked, sem, []) + [t]])))
  {
    var t := h.now.programs[pid].exec.value;
    assert Ids(h.now.waiting[sem] + [t]) == Ids(h.now.waiting[sem]) + [t.Id()];
  }

  lemma SignalFifo(h: History, pid: int, sem: string)
    requires Fifo(h) && CanWake(h.now, pid, sem)
    ensures var t := h.now.waiting[sem][0].Id();
      forall log: Log ::
        log.blocked == h.log.blocked && log.woken == h.log.woken[sem := Entry(h.log.woken, sem, []) + [t]] ==>
        Fifo(History(Wake(h.now, pid, sem), log))
    ensures SameSemaphores(Popped(h.now, sem), Wake(h.now, pid, sem))
  {
    hide MoveToReady;
    var q := h.now.waiting[sem];
    MoveSameSemaphores(Popped(h.now, sem), q[0]);
    assert Ids(q) == [q[0].Id()] + Ids(q[1..]);
  }

  lemma WaitWithoutBlocking(s: State, pid: int, tid: int, sem: string)
    requires CanWait(s, pid, sem) && !Blocks(s, pid, tid, sem)
    ensures Wait(s, pid, tid, sem).waiting == s.waiting
  {
  }

  lemma SignalOrNot(s: State, pid: int, sem: string)
    requires CanSignal(s, pid, sem)
    ensures if Wakes(s, sem) then CanWake(s, pid, sem) && Signal(s, pid, sem) == Wake(s, pid, sem)
      else Signal(s, pid, sem).waiting == s.waiting
  {
  }

  lemma StepFifo(h: History, e: Event)
    requires h.now.waiting.Keys == h.now.semaphores.Keys && Fifo(h) && Enabled(h, e)
    ensures Fifo(Next(h, e)) && Apply(h, e).waiting.Keys == Apply(h, e).semaphores.Keys
  {
    match e
    case WaitOn(pid, tid, sem) =>
      hide Wait, CanWait, Ids;
      WaitKeepsMax(h.now, pid, tid, sem);
      if Blocks(h.now, pid, tid, sem) {
        WaitFifo(h, pid, tid, sem);
      } else {
        WaitWithoutBlocking(h.now, pid, tid, sem);
      }
    case SignalOn(pid, sem) =>
      hide Signal, CanSignal, Wake, Bump, Ids;
      SignalKeepsMax(h.now, pid, sem);
      SignalOrNot(h.now, pid, sem);
      if Wakes(h.now, sem) {
        SignalFifo(h, pid, sem);
      }
    case _ =>
      hide Apply, CanSchedule, CanClose;
      OtherSteps(h, e);
  }

  lemma {:induction false} RunFifo(h: History, es: seq<Event>, last: History)
    requires h.now.waiting.Keys == h.now.semaphores.Keys && Fifo(h) && Run(h, es, last)
    ensures Fifo(last)
    decreases |es|
  {
    hide Enabled, Apply, Logged, Fifo;
    if es != [] {
      StepFifo(h, es[0]);
      RunFifo(Next(h, es[0]), es[1..], last);
    }
  }

  // ================= admission =================

  /** Permits: the free ones and the admitted threads not yet closed make up MAX_MULTIPROG, plus one
      for each disconnect. */
  ghost predicate Accounted(h: History, maxMultiprog: int) {
    h.now.permits + h.log.admitted - h.log.closed == maxMultiprog + h.log.left
  }

  lemma StepAccounted(h: History, e: Event, maxMultiprog: int)
    requires Accounted(h, maxMultiprog) && Enabled(h, e)
    ensures Accounted(Next(h, e), maxMultiprog)
  {
    hide IsSorting, Finished, BlockedByAny, Release, MoveToReady;
    match e
    case Grant => MoveSameSemaphores(Granted(h.now), h.now.taken.value);
    case SignalOn(pid, sem) =>
      if Wakes(h.now, sem) {
        MoveSameSemaphores(Popped(h.now, sem), h.now.waiting[sem][0]);
      }
    case CloseOf(pid, tid) =>
      if h.now.programs[pid].exec.value.tid == tid {
        ReleaseSameSemaphores(Exit(h.now, pid), pid, tid);
      }
    case _ =>
  }

  /** Over every run, disconnects included. */
  lemma {:induction false} RunAccounted(h: History, es: seq<Event>, last: History, maxMultiprog: int)
    requires Accounted(h, maxMultiprog) && Run(h, es, last)
    ensures Accounted(last, maxMultiprog)
    decreases |es|
  {
    hide Enabled, Apply, Logged, Accounted;
    if es != [] {
      StepAccounted(h, es[0], maxMultiprog);
      RunAccounted(Next(h, es[0]), es[1..], last, maxMultiprog);
    }
  }

  /** Without disconnects the admitted threads not yet closed are the active ones. */
  ghost predicate ActiveCounted(h: History) {
    |Active(h.now)| == h.log.admitted - h.log.closed
  }

  lemma StepActive(h: History, e: Event)
    requires Partition(h) && ActiveCounted(h) && Enabled(h, e) && !e.Leave?
    ensures ActiveCounted(Next(h, e))
  {
    hide Sum, Inactive, Shape, Distinct, Known, MoveToReady, Release, Wake, PickNext, IsSorting, Join, Wait, Active;
    var s := h.now;
    match e
    case Connect(pid) => AddProgramKeeps(s, pid);
    case Create(pid, tid) => CreateAdds(s, pid, tid);
    case Take => TakeKeeps(s);
    case Grant => AdmitKeeps(s);
    case Schedule(pid, burst, order) => ScheduleKeeps(s, pid, burst, order); ReestimateReplaces(s, pid, burst);
    case WaitOn(pid, tid, sem) => WaitKeeps(s, pid, tid, sem);
    case SignalOn(pid, sem) => SignalKeeps(s, pid, sem);
    case JoinOn(pid, target) => JoinKeeps(s, pid, target);
    case CloseOf(pid, tid) => CloseMoves(s, pid, tid);
  }

  lemma {:induction false} RunActive(h: History, es: seq<Event>, last: History)
    requires Partition(h) && ActiveCounted(h) && Connected(es) && Run(h, es, last)
    ensures ActiveCounted(last) && last.log.left == h.log.left
    decreases |es|
  {
    hide Partition, Enabled, Apply, ActiveCounted;
    if es != [] {
      assert es[0] in es;
      StepPartition(h, es[0]);
      StepActive(h, es[0]);
      RunActive(Next(h, es[0]), es[1..], last);
    }
  }

  /** Admission bound: without disconnects, running, ready and blocked threads of all programs
      together never exceed MAX_MULTIPROG. */
  lemma AdmissionBound(semaphores: map<string, Semaphore>, maxMultiprog: int, alpha: real, es: seq<Event>,
      last: History)
    requires maxMultiprog >= 0 && Connected(es) && Run(Start(semaphores, maxMultiprog, alpha), es, last)
    ensures last.now.permits + |Active(last.now)| == maxMultiprog && |Active(last.now)| <= maxMultiprog
  {
    hide Run, Active, Sum;
    StartPartition(semaphores, maxMultiprog, alpha);
    RunActive(Start(semaphores, maxMultiprog, alpha), es, last);
    RunAccounted(Start(semaphores, maxMultiprog, alpha), es, last, maxMultiprog);
    RunPartition(Start(semaphores, maxMultiprog, alpha), es, last);
  }

  /** No lost join, over every run without disconnects. */
  lemma {:induction false} RunNoLostJoin(h: History, es: seq<Event>, last: History)
    requires Partition(h) && NoLostJoin(h.now) && Connected(es) && Run(h, es, last)
    ensures NoLostJoin(last.now)
    decreases |es|
  {
    hide Partition, Enabled, Apply, Logged, NoLostJoin;
    if es != [] {
      assert es[0] in es;
      StepPartition(h, es[0]);
      StepNoLostJoin(h, es[0]);
      RunNoLostJoin(Next(h, es[0]), es[1..], last);
    }
  }
}
