/** Where the threads are: every step of the scheduler moves threads between places, and neither
    loses nor duplicates one. */
module SuseThreads {
  import opened Basics
  import opened MapSums
  import opened Suse

  ghost function Listed(q: seq<Thread>): multiset<Thread> {
    multiset(q)
  }

  ghost function Running(p: Program): multiset<Thread> {
    if p.exec.Some? then multiset{p.exec.value} else multiset{}
  }

  ghost function Joining(p: Program): multiset<Thread> {
    Sum(p.blocked, Listed)
  }

  ghost function Taken(s: State): multiset<Thread> {
    if s.taken.Some? then multiset{s.taken.value} else multiset{}
  }

  /** The threads that hold a permit: ready, running, in a join list or in a semaphore queue. */
  ghost function Active(s: State): multiset<Thread> {
    Sum(s.ready, Listed) + Sum(s.programs, Running) + Sum(s.programs, Joining) + Sum(s.waiting, Listed)
  }

  /** The threads that hold none: not yet admitted, or finished. */
  ghost function Inactive(s: State): multiset<Thread> {
    multiset(s.arrivals) + Taken(s) + Sum(s.exited, Listed)
  }

  /** All threads of the state, each place counted. */
  ghost function Threads(s: State): multiset<Thread> {
    Inactive(s) + Active(s)
  }

  /** A list holds threads of its own program only. */
  ghost predicate Owned(list: seq<Thread>, pid: int) {
    forall t :: t in list ==> t.pid == pid
  }

  ghost predicate Admitted(list: seq<Thread>, ready: map<int, seq<Thread>>) {
    forall t :: t in list ==> t.pid in ready
  }

  /** Dictionaries agree on their keys, and per-program structures hold threads of that program. */
  ghost predicate Shape(s: State) {
    && s.ready.Keys <= s.programs.Keys && s.exited.Keys <= s.programs.Keys && s.waiting.Keys == s.semaphores.Keys
    && (forall pid :: pid in s.programs ==> ProgramShape(s.programs[pid], pid))
    && (forall pid :: pid in s.programs && s.programs[pid].exec.Some? ==> pid in s.ready)
    && (forall pid :: pid in s.ready ==> Owned(s.ready[pid], pid))
    && (forall pid :: pid in s.exited ==> Owned(s.exited[pid], pid))
    && (forall sem :: sem in s.waiting ==> Admitted(s.waiting[sem], s.ready))
    && (forall t :: t in s.arrivals ==> t.pid in s.programs)
    && (s.taken.Some? ==> s.taken.value.pid in s.programs)
    && s.permits >= 0
  }

  ghost predicate ProgramShape(p: Program, pid: int) {
    && (p.exec.Some? ==> p.exec.value.pid == pid)
    && (forall k :: k in p.blocked ==> Owned(p.blocked[k], pid))
  }

  // ---- sums after an update of one dictionary entry ----

  /** The sums over all programs but one. */
  lemma ProgramUpdate(m: map<int, Program>, pid: int, q: Program)
    requires pid in m
    ensures Sum(m[pid := q], Running) == Running(q) + Sum(m - {pid}, Running)
    ensures Sum(m, Running) == Running(m[pid]) + Sum(m - {pid}, Running)
    ensures Sum(m[pid := q], Joining) == Joining(q) + Sum(m - {pid}, Joining)
    ensures Sum(m, Joining) == Joining(m[pid]) + Sum(m - {pid}, Joining)
  {
    hide Sum;
    SumUpdate(m, Running, pid, q);
    SumUpdate(m, Joining, pid, q);
  }

  lemma HeadTail(q: seq<Thread>)
    requires q != []
    ensures multiset(q) == multiset{q[0]} + multiset(q[1..])
  {
    assert q == [q[0]] + q[1..];
  }

  /** A list that grows by one thread. */
  lemma ListPush<K(!new)>(m: map<K, seq<Thread>>, k: K, t: Thread)
    ensures Sum(m[k := Entry(m, k, []) + [t]], Listed) == Sum(m, Listed) + multiset{t}
  {
    hide Sum;
    var list := Entry(m, k, []);
    SumUpdate(m, Listed, k, list + [t]);
    assert Listed(list + [t]) == Listed(list) + multiset{t};
  }

  /** A list that loses its first thread. */
  lemma ListPop<K(!new)>(m: map<K, seq<Thread>>, k: K)
    requires k in m && m[k] != []
    ensures Sum(m, Listed) == Sum(m[k := m[k][1..]], Listed) + multiset{m[k][0]}
  {
    hide Sum;
    SumUpdate(m, Listed, k, m[k][1..]);
    HeadTail(m[k]);
    assert Listed(m[k]) == multiset{m[k][0]} + Listed(m[k][1..]);
  }

  /** A program that changes only its counters or its running slot. */
  lemma RunningStays(m: map<int, Program>, pid: int, q: Program)
    requires pid in m && q.blocked == m[pid].blocked && q.exec == m[pid].exec
    ensures Sum(m[pid := q], Running) == Sum(m, Running) && Sum(m[pid := q], Joining) == Sum(m, Joining)
  {
    hide Sum;
    ProgramUpdate(m, pid, q);
    assert Running(q) == Running(m[pid]);
  }

  lemma RunningEnters(m: map<int, Program>, pid: int, q: Program)
    requires pid in m && q.blocked == m[pid].blocked && q.exec.Some? && m[pid].exec.None?
    ensures Sum(m[pid := q], Running) == Sum(m, Running) + multiset{q.exec.value}
    ensures Sum(m[pid := q], Joining) == Sum(m, Joining)
  {
    hide Sum;
    ProgramUpdate(m, pid, q);
    assert Running(q) == multiset{q.exec.value} && Running(m[pid]) == multiset{};
  }

  lemma RunningLeaves(m: map<int, Program>, pid: int, q: Program)
    requires pid in m && q.blocked == m[pid].blocked && q.exec.None? && m[pid].exec.Some?
    ensures Sum(m, Running) == Sum(m[pid := q], Running) + multiset{m[pid].exec.value}
    ensures Sum(m[pid := q], Joining) == Sum(m, Joining)
  {
    hide Sum;
    ProgramUpdate(m, pid, q);
    assert Running(q) == multiset{} && Running(m[pid]) == multiset{m[pid].exec.value};
  }

  lemma RunningSwaps(m: map<int, Program>, pid: int, q: Program)
    requires pid in m && q.blocked == m[pid].blocked && q.exec.Some? && m[pid].exec.Some?
    ensures m[pid].exec.value in Sum(m, Running)
    ensures Sum(m[pid := q], Running) == Sum(m, Running) - multiset{m[pid].exec.value} + multiset{q.exec.value}
    ensures Sum(m[pid := q], Joining) == Sum(m, Joining)
  {
    hide Sum;
    ProgramUpdate(m, pid, q);
    assert Running(q) == multiset{q.exec.value} && Running(m[pid]) == multiset{m[pid].exec.value};
  }

  // ---- conservation, request by request ----

  lemma AddProgramKeeps(s: State, pid: int)
    requires Shape(s) && pid !in s.programs
    ensures Inactive(AddProgram(s, pid)) == Inactive(s) && Active(AddProgram(s, pid)) == Active(s)
  {
    var q := Program(None, map[], 0, 0, 0);
    assert Joining(q) == multiset{};
    AddProgramSums(s.programs, pid, q);
  }

  lemma AddProgramSums(m: map<int, Program>, pid: int, q: Program)
    requires pid !in m && Running(q) == Joining(q) == multiset{}
    ensures Sum(m[pid := q], Running) == Sum(m, Running) && Sum(m[pid := q], Joining) == Sum(m, Joining)
  {
    hide Sum;
    SumUpdate(m, Running, pid, q);
    SumUpdate(m, Joining, pid, q);
  }

  lemma AddProgramShape(s: State, pid: int)
    requires Shape(s) && pid !in s.programs
    ensures Shape(AddProgram(s, pid))
  {
  }

  lemma CreateAdds(s: State, pid: int, tid: int)
    requires pid in s.programs
    ensures Active(CreateThread(s, pid, tid)) == Active(s)
    ensures Threads(CreateThread(s, pid, tid)) == Threads(s) + multiset{Thread(pid, tid, 0.0, 0)}
  {
    hide Sum;
    RunningStays(s.programs, pid, s.programs[pid].(inNew := s.programs[pid].inNew + 1));
  }

  lemma CreateShape(s: State, pid: int, tid: int)
    requires Shape(s) && pid in s.programs
    ensures Shape(CreateThread(s, pid, tid))
  {
  }

  lemma TakeKeeps(s: State)
    requires s.arrivals != [] && s.taken.None?
    ensures Threads(TakeNew(s)) == Threads(s) && Active(TakeNew(s)) == Active(s)
    ensures Shape(s) ==> Shape(TakeNew(s))
  {
    hide Sum;
    HeadTail(s.arrivals);
  }

  lemma MoveToReadyAdds(s: State, t: Thread)
    requires t.pid in s.programs && (t.pid !in s.ready ==> s.programs[t.pid].exec.None?)
    ensures Active(MoveToReady(s, t)) == Active(s) + multiset{t}
    ensures Inactive(MoveToReady(s, t)) == Inactive(s)
  {
    hide Sum;
    var p := s.programs[t.pid];
    if t.pid !in s.ready {
      SumUpdate(s.ready, Listed, t.pid, []);
      RunningEnters(s.programs, t.pid, p.(exec := Some(t)));
    } else {
      ListPush(s.ready, t.pid, t);
      RunningStays(s.programs, t.pid, p.(inReady := p.inReady + 1));
    }
  }

  lemma MoveToReadyShape(s: State, t: Thread)
    requires Shape(s) && t.pid in s.programs
    ensures Shape(MoveToReady(s, t)) && MoveToReady(s, t).programs.Keys == s.programs.Keys
  {
    hide ProgramShape, Admitted;
    var s' := MoveToReady(s, t);
    assert ProgramShape(s'.programs[t.pid], t.pid) by {
      SlotShape(s.programs[t.pid], s'.programs[t.pid], t);
    }
    forall sem | sem in s.waiting ensures Admitted(s.waiting[sem], s'.ready) {
      AdmittedMore(s.waiting[sem], s.ready, s'.ready);
    }
  }

  lemma AdmittedMore(list: seq<Thread>, ready: map<int, seq<Thread>>, ready': map<int, seq<Thread>>)
    requires Admitted(list, ready) && ready.Keys <= ready'.Keys
    ensures Admitted(list, ready')
  {
  }

  lemma SlotShape(p: Program, p': Program, t: Thread)
    requires ProgramShape(p, t.pid) && p'.blocked == p.blocked && (p'.exec == p.exec || p'.exec == Some(t))
    ensures ProgramShape(p', t.pid)
  {
  }

  /** The state in which planificarReady calls pasarAReady. */
  ghost function Granted(s: State): State
    requires s.taken.Some? && s.taken.value.pid in s.programs
  {
    var p := s.programs[s.taken.value.pid];
    s.(taken := None, permits := s.permits - 1,
       programs := s.programs[s.taken.value.pid := p.(inNew := p.inNew - 1)])
  }

  lemma GrantedShape(s: State)
    requires Shape(s) && s.taken.Some? && s.permits > 0
    ensures Shape(Granted(s))
  {
  }

  lemma AdmitKeeps(s: State)
    requires Shape(s) && s.taken.Some? && s.permits > 0
    ensures Shape(Admit(s)) && Inactive(s) == Inactive(Admit(s)) + multiset{s.taken.value}
    ensures Active(Admit(s)) == Active(s) + multiset{s.taken.value}
  {
    hide Sum, Shape, MoveToReady;
    var t := s.taken.value;
    GrantedShape(s);
    AdmitSums(s);
    assert t.pid in Granted(s).programs && (t.pid !in Granted(s).ready ==> Granted(s).programs[t.pid].exec.None?) by {
      ShapeMain(Granted(s), t.pid);
    }
    MoveToReadyAdds(Granted(s), t);
    MoveToReadyShape(Granted(s), t);
  }

  lemma ShapeMain(s: State, pid: int)
    requires Shape(s)
    ensures s.taken.Some? ==> s.taken.value.pid in s.programs
    ensures pid in s.programs && pid !in s.ready ==> s.programs[pid].exec.None?
  {
  }

  lemma AdmitSums(s: State)
    requires Shape(s) && s.taken.Some? && s.permits > 0
    ensures s.taken.value.pid in s.programs
    ensures Active(Granted(s)) == Active(s) && Inactive(s) == Inactive(Granted(s)) + multiset{s.taken.value}
  {
    hide Sum;
    var p := s.programs[s.taken.value.pid];
    RunningStays(s.programs, s.taken.value.pid, p.(inNew := p.inNew - 1));
  }

  /** The running thread is aged in place. */
  lemma ReestimateReplaces(s: State, pid: int, burst: int)
    requires pid in s.programs
    ensures Inactive(Reestimate(s, pid, burst)) == Inactive(s)
    ensures s.programs[pid].exec.None? ==> Reestimate(s, pid, burst) == s
    ensures s.programs[pid].exec.Some? ==>
      var t := s.programs[pid].exec.value;
      && t in Active(s)
      && Active(Reestimate(s, pid, burst)) == Active(s) - multiset{t} + multiset{Reestimated(s.alpha, t, burst)}
  {
    hide Sum;
    var p := s.programs[pid];
    if p.exec.Some? {
      RunningSwaps(s.programs, pid, p.(exec := Some(Reestimated(s.alpha, p.exec.value, burst))));
    }
  }

  lemma ReestimateShape(s: State, pid: int, burst: int)
    requires Shape(s)
    ensures Shape(Reestimate(s, pid, burst))
  {
  }

  lemma SortKeeps(s: State, pid: int, order: seq<Thread>)
    requires pid in s.ready && IsSorting(order, s.ready[pid])
    ensures Active(s.(ready := s.ready[pid := order])) == Active(s)
    ensures Inactive(s.(ready := s.ready[pid := order])) == Inactive(s)
  {
    hide Sum;
    SumUpdate(s.ready, Listed, pid, order);
  }

  lemma SortShape(s: State, pid: int, order: seq<Thread>)
    requires Shape(s) && pid in s.ready && IsSorting(order, s.ready[pid])
    ensures Shape(s.(ready := s.ready[pid := order]))
  {
    forall t | t in order ensures t.pid == pid {
      assert t in multiset(order);
      assert t in s.ready[pid];
    }
  }

  lemma PickKeeps(s: State, pid: int)
    requires pid in s.programs && pid in s.ready && (s.programs[pid].exec.Some? || s.ready[pid] != [])
    ensures Active(PickNext(s, pid).0) == Active(s)
    ensures Inactive(PickNext(s, pid).0) == Inactive(s)
  {
    hide Sum;
    if s.programs[pid].exec.Some? {
      if s.ready[pid] != [] {
        PickSwaps(s.ready, s.programs, pid);
      }
    } else {
      PickTakes(s.ready, s.programs, pid);
    }
  }

  /** The first ready thread and the running one change places. */
  lemma PickSwaps(ready: map<int, seq<Thread>>, programs: map<int, Program>, pid: int)
    requires pid in programs && pid in ready && programs[pid].exec.Some? && ready[pid] != []
    ensures var p, list := programs[pid], ready[pid];
      var programs' := programs[pid := p.(exec := Some(list[0]))];
      && Sum(ready[pid := list[1..] + [p.exec.value]], Listed) + Sum(programs', Running)
        == Sum(ready, Listed) + Sum(programs, Running)
      && Sum(programs', Joining) == Sum(programs, Joining)
  {
    hide Sum;
    var p, list := programs[pid], ready[pid];
    var popped := ready[pid := list[1..]];
    ListPop(ready, pid);
    ListPush(popped, pid, p.exec.value);
    assert popped[pid := list[1..] + [p.exec.value]] == ready[pid := list[1..] + [p.exec.value]];
    RunningSwaps(programs, pid, p.(exec := Some(list[0])));
  }

  /** The first ready thread runs. */
  lemma PickTakes(ready: map<int, seq<Thread>>, programs: map<int, Program>, pid: int)
    requires pid in programs && pid in ready && programs[pid].exec.None? && ready[pid] != []
    ensures var p, list := programs[pid], ready[pid];
      var programs' := programs[pid := p.(exec := Some(list[0]), inReady := p.inReady - 1)];
      && Sum(ready[pid := list[1..]], Listed) + Sum(programs', Running) == Sum(ready, Listed) + Sum(programs, Running)
      && Sum(programs', Joining) == Sum(programs, Joining)
  {
    hide Sum;
    ListPop(ready, pid);
    RunningEnters(programs, pid, programs[pid].(exec := Some(ready[pid][0]), inReady := programs[pid].inReady - 1));
  }

  lemma PickShape(s: State, pid: int)
    requires Shape(s) && pid in s.programs && pid in s.ready && (s.programs[pid].exec.Some? || s.ready[pid] != [])
    ensures Shape(PickNext(s, pid).0)
  {
  }

  lemma ScheduleKeeps(s: State, pid: int, burst: int, order: seq<Thread>)
    requires Shape(s) && CanSchedule(s, pid, order)
    ensures Shape(ScheduleNext(s, pid, burst, order).0)
    ensures Active(ScheduleNext(s, pid, burst, order).0) == Active(Reestimate(s, pid, burst))
    ensures Inactive(ScheduleNext(s, pid, burst, order).0) == Inactive(s)
  {
    hide Sum, Active, Inactive;
    SortingKeepsEmptiness(order, s.ready[pid]);
    ReestimateReplaces(s, pid, burst);
    ReestimateShape(s, pid, burst);
    var s1 := Reestimate(s, pid, burst);
    SortKeeps(s1, pid, order);
    SortShape(s1, pid, order);
    PickKeeps(s1.(ready := s.ready[pid := order]), pid);
    PickShape(s1.(ready := s.ready[pid := order]), pid);
  }

  lemma WaitKeeps(s: State, pid: int, tid: int, sem: string)
    requires Shape(s) && CanWait(s, pid, sem)
    ensures Inactive(Wait(s, pid, tid, sem)) == Inactive(s) && Active(Wait(s, pid, tid, sem)) == Active(s)
  {
    hide Sum;
    if sem in s.semaphores && s.semaphores[sem].value <= 0 && s.programs[pid].exec.value.tid == tid {
      var p := s.programs[pid];
      RunningLeaves(s.programs, pid, p.(exec := None, inBlocked := p.inBlocked + 1));
      ListPush(s.waiting, sem, p.exec.value);
    }
  }

  lemma WaitShape(s: State, pid: int, tid: int, sem: string)
    requires Shape(s) && CanWait(s, pid, sem)
    ensures Shape(Wait(s, pid, tid, sem))
  {
    hide ProgramShape;
    if pid in s.programs {
      StoppedShape(s.programs[pid], pid);
    }
  }

  lemma StoppedShape(p: Program, pid: int)
    requires ProgramShape(p, pid)
    ensures ProgramShape(p.(exec := None, inBlocked := p.inBlocked + 1), pid)
    ensures p.exec.Some? ==> p.exec.value.pid == pid
  {
  }

  /** The state in which sacar1HiloDeLaColaDeBloqueadosPorSemaforo calls pasarAReady. */
  ghost function Popped(s: State, sem: string): State
    requires sem in s.waiting && s.waiting[sem] != []
  {
    s.(waiting := s.waiting[sem := s.waiting[sem][1..]])
  }

  lemma PoppedShape(s: State, sem: string)
    requires Shape(s) && sem in s.waiting && s.waiting[sem] != []
    ensures Shape(Popped(s, sem)) && s.waiting[sem][0].pid in s.ready
  {
    assert s.waiting[sem][0] in s.waiting[sem];
    assert forall t :: t in s.waiting[sem][1..] ==> t in s.waiting[sem];
  }

  lemma UncountedKeeps(s: State, pid: int)
    requires pid in s.programs
    ensures var s1 := s.(programs := s.programs[pid := s.programs[pid].(inBlocked := s.programs[pid].inBlocked - 1)]);
      Active(s1) == Active(s) && Inactive(s1) == Inactive(s) && (Shape(s) ==> Shape(s1))
  {
    hide Sum;
    RunningStays(s.programs, pid, s.programs[pid].(inBlocked := s.programs[pid].inBlocked - 1));
  }

  lemma WakeKeeps(s: State, pid: int, sem: string)
    requires Shape(s) && CanWake(s, pid, sem)
    ensures Inactive(Wake(s, pid, sem)) == Inactive(s) && Active(Wake(s, pid, sem)) == Active(s)
    ensures Shape(Wake(s, pid, sem))
  {
    hide Sum, Shape, MoveToReady;
    var t := s.waiting[sem][0];
    PoppedShape(s, sem);
    ListPop(s.waiting, sem);
    assert Active(s) == Active(Popped(s, sem)) + multiset{t};
    MoveToReadyAdds(Popped(s, sem), t);
    MoveToReadyShape(Popped(s, sem), t);
    UncountedKeeps(MoveToReady(Popped(s, sem), t), pid);
  }

  lemma SignalKeeps(s: State, pid: int, sem: string)
    requires Shape(s) && CanSignal(s, pid, sem)
    ensures Shape(Signal(s, pid, sem)) && Inactive(Signal(s, pid, sem)) == Inactive(s)
    ensures Active(Signal(s, pid, sem)) == Active(s)
  {
    hide Sum;
    if sem in s.semaphores && s.semaphores[sem].value + 1 <= s.semaphores[sem].max && s.waiting[sem] != [] {
      hide Wake;
      WakeKeeps(s, pid, sem);
    }
  }

  lemma JoinKeeps(s: State, pid: int, target: int)
    ensures Inactive(Join(s, pid, target)) == Inactive(s) && Active(Join(s, pid, target)) == Active(s)
  {
    hide Sum, Finished, BlockedByAny;
    if pid in s.programs && s.programs[pid].exec.Some? && !Finished(s.exited, target) {
      var p := s.programs[pid];
      ListPush(p.blocked, target, p.exec.value);
      ProgramUpdate(s.programs, pid, Join(s, pid, target).programs[pid]);
    }
  }

  lemma JoinShape(s: State, pid: int, target: int)
    requires Shape(s)
    ensures Shape(Join(s, pid, target))
  {
    hide Finished, BlockedByAny;
  }

  // ---- closing a thread ----

  lemma ExitMoves(s: State, pid: int)
    requires pid in s.programs && s.programs[pid].exec.Some?
    ensures Inactive(Exit(s, pid)) == Inactive(s) + multiset{s.programs[pid].exec.value}
    ensures Active(s) == Active(Exit(s, pid)) + multiset{s.programs[pid].exec.value}
  {
    hide Sum;
    var p := s.programs[pid];
    RunningLeaves(s.programs, pid, p.(exec := None));
    ListPush(s.exited, pid, p.exec.value);
  }

  lemma ExitShape(s: State, pid: int)
    requires Shape(s) && pid in s.programs && s.programs[pid].exec.Some?
    ensures Shape(Exit(s, pid))
  {
  }

  /** No two places hold the same thread, and no place holds it twice. */
  ghost predicate Distinct(ts: multiset<Thread>) {
    forall t, u :: t in ts && u in ts && t.Id() == u.Id() ==> t == u && ts[t] == 1
  }

  lemma DistinctSub(ts: multiset<Thread>, us: multiset<Thread>)
    requires Distinct(ts) && us <= ts
    ensures Distinct(us)
  {
  }

  /** A thread that was first in a join list is in no other one. */
  lemma ReleasedIsFree(p: Program, pid: int, tid: int)
    requires ProgramShape(p, pid) && Distinct(Joining(p)) && Joiners(p, tid) != []
    ensures !BlockedByAny(p.(blocked := p.blocked[tid := p.blocked[tid][1..]]), p.blocked[tid][0].tid)
  {
    hide Sum;
    var t := p.blocked[tid][0];
    var rest := p.blocked[tid := p.blocked[tid][1..]];
    ListPop(p.blocked, tid);
    forall k: int, u: Thread | k in rest && u in rest[k] ensures u.tid != t.tid {
      SumUpdate(rest, Listed, k, rest[k]);
      assert u in Listed(rest[k]);
      assert u.pid == t.pid == pid;
      assert multiset{u, t} <= Joining(p);
    }
  }

  lemma JoiningIsPart(s: State, pid: int)
    requires pid in s.programs
    ensures Joining(s.programs[pid]) <= Sum(s.programs, Joining) <= Active(s) <= Threads(s)
  {
    hide Sum;
    SumUpdate(s.programs, Joining, pid, s.programs[pid]);
  }

  /** The state after every joiner of tid was made ready. */
  ghost function Released(s: State, pid: int, tid: int): State
    requires CanRelease(s, pid, tid)
  {
    var p := s.programs[pid];
    var list := Joiners(p, tid);
    if list == [] then s
    else
      s.(programs := s.programs[pid := p.(
           blocked := p.blocked[tid := []], inBlocked := p.inBlocked - |list|, inReady := p.inReady + |list|)],
         ready := s.ready[pid := s.ready[pid] + list])
  }

  /** The same for the first joiner only. */
  ghost function ReleasedOne(s: State, pid: int, tid: int): State
    requires CanRelease(s, pid, tid) && Joiners(s.programs[pid], tid) != []
  {
    var p := s.programs[pid];
    s.(programs := s.programs[pid := p.(
         blocked := p.blocked[tid := p.blocked[tid][1..]], inBlocked := p.inBlocked - 1, inReady := p.inReady + 1)],
       ready := s.ready[pid := s.ready[pid] + [p.blocked[tid][0]]])
  }

  lemma ReleasedOneKeeps(s: State, pid: int, tid: int)
    requires CanRelease(s, pid, tid) && Joiners(s.programs[pid], tid) != []
    ensures Inactive(ReleasedOne(s, pid, tid)) == Inactive(s) && Active(ReleasedOne(s, pid, tid)) == Active(s)
  {
    hide Sum;
    var p := s.programs[pid];
    ListPop(p.blocked, tid);
    ListPush(s.ready, pid, p.blocked[tid][0]);
    ProgramUpdate(s.programs, pid, ReleasedOne(s, pid, tid).programs[pid]);
  }

  lemma ReleasedOneShape(s: State, pid: int, tid: int)
    requires Shape(s) && CanRelease(s, pid, tid) && Joiners(s.programs[pid], tid) != []
    ensures Shape(ReleasedOne(s, pid, tid)) && CanRelease(ReleasedOne(s, pid, tid), pid, tid)
  {
  }

  lemma ReleaseOneMoves(s: State, pid: int, tid: int)
    requires Shape(s) && Distinct(Threads(s)) && CanRelease(s, pid, tid) && Joiners(s.programs[pid], tid) != []
    ensures ReleaseOne(s, pid, tid) == ReleasedOne(s, pid, tid)
  {
    hide Sum, BlockedByAny;
    var p := s.programs[pid];
    JoiningIsPart(s, pid);
    DistinctSub(Threads(s), Joining(p));
    ReleasedIsFree(p, pid, tid);
  }

  /** No thread taken off a join list is still blocked, so the loop makes every joiner ready, in the
      order they joined. */
  lemma {:induction false} ReleaseReleasesAll(s: State, pid: int, tid: int)
    requires Shape(s) && Distinct(Threads(s)) && CanRelease(s, pid, tid)
    ensures Release(s, pid, tid) == Released(s, pid, tid)
    ensures Shape(Release(s, pid, tid)) && Inactive(Release(s, pid, tid)) == Inactive(s)
    ensures Active(Release(s, pid, tid)) == Active(s)
    decreases |Joiners(s.programs[pid], tid)|
  {
    hide Sum, Inactive, Active, ReleaseOne;
    if Joiners(s.programs[pid], tid) != [] {
      ReleaseOneMoves(s, pid, tid);
      ReleasedOneKeeps(s, pid, tid);
      ReleasedOneShape(s, pid, tid);
      ReleaseReleasesAll(ReleasedOne(s, pid, tid), pid, tid);
      ReleasedSplits(s, pid, tid);
    }
  }

  lemma ReleasedSplits(s: State, pid: int, tid: int)
    requires Shape(s) && CanRelease(s, pid, tid) && Joiners(s.programs[pid], tid) != []
    requires CanRelease(ReleasedOne(s, pid, tid), pid, tid)
    ensures Released(ReleasedOne(s, pid, tid), pid, tid) == Released(s, pid, tid)
  {
    var p := s.programs[pid];
    var list := p.blocked[tid];
    var s1 := ReleasedOne(s, pid, tid);
    assert Joiners(s1.programs[pid], tid) == list[1..];
    assert s.ready[pid] + list == s.ready[pid] + [list[0]] + list[1..];
    assert p.blocked[tid := list[1..]][tid := []] == p.blocked[tid := []];
    assert Released(s1, pid, tid).programs[pid] == Released(s, pid, tid).programs[pid];
    assert Released(s1, pid, tid).programs == Released(s, pid, tid).programs;
    if |list| == 1 {
      assert list == [list[0]];
    }
    assert Released(s1, pid, tid).ready == Released(s, pid, tid).ready;
  }

  lemma CanReleaseAfterExit(s: State, pid: int)
    requires Shape(s) && pid in s.programs && s.programs[pid].exec.Some?
    ensures CanClose(s, pid, s.programs[pid].exec.value.tid)
    ensures CanRelease(Exit(s, pid), pid, s.programs[pid].exec.value.tid)
  {
  }

  lemma CloseMoves(s: State, pid: int, tid: int)
    requires Shape(s) && Distinct(Threads(s)) && CanClose(s, pid, tid)
    ensures Shape(Close(s, pid, tid)) && Threads(Close(s, pid, tid)) == Threads(s)
    ensures var t := s.programs[pid].exec.value;
      if t.tid == tid then
        Close(s, pid, tid) == Released(Exit(s, pid), pid, tid) && Active(s) == Active(Close(s, pid, tid)) + multiset{t}
      else Close(s, pid, tid) == s
  {
    hide Sum, Released;
    if s.programs[pid].exec.value.tid == tid {
      ExitMoves(s, pid);
      ExitShape(s, pid);
      ReleaseReleasesAll(Exit(s, pid), pid, tid);
    }
  }
}
