/** What the library calls of a program do on the other side: to the semaphores and to the places of the
    calling thread. */
module ProtocolEffects {
  import opened Basics
  import opened Suse
  import opened SuseThreads
  import opened SuseRuns
  import opened SuseSafety
  import opened SuseMoves
  import opened Protocol
  import H = Hilolay

  /** The id in the current TCB of a program. */
  ghost function Caller(sys: System, pid: int): int
    requires pid in sys.sessions
  {
    var c := sys.sessions[pid].client;
    if c.current < |c.ults| then c.ults[c.current].id else -1
  }

  /** The thread that calls is the one SUSE has running. */
  lemma CallerRuns(sys: System, pid: int)
    requires SystemOk(sys) && pid in sys.sessions && sys.sessions[pid].phase.Resting? && pid in sys.h.now.ready
    ensures pid in sys.h.now.programs && sys.h.now.programs[pid].exec.Some?
    ensures sys.h.now.programs[pid].exec.value.tid == Caller(sys, pid)
    ensures Seat(sys.h.now, IsRunning(pid)) == [sys.h.now.programs[pid].exec.value]
  {
    hide SystemOk;
    CurrentRuns(sys, pid);
  }

  /** What a caller may rely on. */
  lemma CallerState(sys: System, pid: int)
    requires SystemOk(sys) && pid in sys.sessions && sys.sessions[pid].phase.Resting? && pid in sys.h.now.ready
    ensures Shape(sys.h.now) && Distinct(Threads(sys.h.now)) && !sys.h.now.halted
    ensures sys.h.now.waiting.Keys == sys.h.now.semaphores.Keys
  {
    hide Distinct, Threads, Agrees, IdsGiven;
  }

  lemma WaitSent(sys: System, pid: int, sem: string)
    requires SystemOk(sys) && MayAct(sys, Ask(pid, WaitSem(sem)))
    ensures Served(sys, Ask(pid, WaitSem(sem))) && CanWait(sys.h.now, pid, sem)
    ensures Act(sys, Ask(pid, WaitSem(sem))).h.now == Wait(sys.h.now, pid, Caller(sys, pid), sem)
  {
    hide SystemOk, Shape, Distinct, Threads, Logged, IsSorting, CanRelease, Wait;
    hide H.Spawn, H.Yield, H.SlotOf;
    CallerState(sys, pid);
    CallerRuns(sys, pid);
    WaitServed(sys.h.now, pid, sem);
  }

  lemma SignalSent(sys: System, pid: int, sem: string)
    requires SystemOk(sys) && MayAct(sys, Ask(pid, SignalSem(sem)))
    ensures Served(sys, Ask(pid, SignalSem(sem))) && CanSignal(sys.h.now, pid, sem)
    ensures Act(sys, Ask(pid, SignalSem(sem))).h.now == Signal(sys.h.now, pid, sem)
  {
    hide SystemOk, Shape, Distinct, Threads, Logged, IsSorting, CanRelease, Signal;
    hide H.Spawn, H.Yield, H.SlotOf;
    CallerState(sys, pid);
    CallerRuns(sys, pid);
    CanSignalAny(sys.h.now, pid, sem);
  }

  lemma JoinSent(sys: System, pid: int, target: int)
    requires SystemOk(sys) && MayAct(sys, Ask(pid, JoinThread(target)))
    ensures Served(sys, Ask(pid, JoinThread(target)))
    ensures Act(sys, Ask(pid, JoinThread(target))).h.now == Join(sys.h.now, pid, target)
  {
    hide SystemOk, Shape, Distinct, Threads, Logged, IsSorting, CanRelease, Join;
    hide H.Spawn, H.Yield, H.SlotOf;
    CallerState(sys, pid);
  }

  lemma CloseSent(sys: System, pid: int, a: Action)
    requires SystemOk(sys) && MayAct(sys, a) && (a == Ask(pid, CloseSelf) || a == Return(pid))
    ensures Served(sys, a) && CanClose(sys.h.now, pid, Caller(sys, pid))
    ensures Act(sys, a).h.now == Close(sys.h.now, pid, Caller(sys, pid))
  {
    hide SystemOk, Shape, Distinct, Threads, Logged, IsSorting, CanRelease, Close;
    hide H.Spawn, H.Yield, H.SlotOf;
    CallerState(sys, pid);
    CallerRuns(sys, pid);
    CanReleaseAfterExit(sys.h.now, pid);
  }

  lemma YieldReady(s: State, pid: int, burst: int, order: seq<Thread>)
    requires CanSchedule(s, pid, order)
    ensures pid in ScheduleNext(s, pid, burst, order).0.ready
  {
    hide ScheduleNext;
    ScheduleView(s, pid, burst, order);
  }

  lemma YieldSent(sys: System, pid: int, burst: int, order: seq<Thread>)
    requires SystemOk(sys) && MayAct(sys, YieldTo(pid, burst, order))
    ensures Served(sys, YieldTo(pid, burst, order)) && CanSchedule(sys.h.now, pid, order)
    ensures var sys' := Act(sys, YieldTo(pid, burst, order));
      && sys'.h.now == ScheduleNext(sys.h.now, pid, burst, order).0 && SystemOk(sys')
      && pid in sys'.sessions && sys'.sessions[pid].phase.Resting? && pid in sys'.h.now.ready
  {
    hide Logged, ScheduleNext, IsSorting, Agrees, Partition, IdsGiven, OthersSame, H.Spawn, H.Yield, H.SlotOf;
    YieldOk(sys, pid, burst, order);
    YieldReady(sys.h.now, pid, burst, order);
  }

  /** hilolay_wait lowers the level of the semaphore by one, and its caller waits there exactly when the
      value was 0. */
  lemma WaitEffect(sys: System, pid: int, sem: string)
    requires SystemOk(sys) && MayAct(sys, Ask(pid, WaitSem(sem))) && sem in sys.h.now.semaphores
    ensures Served(sys, Ask(pid, WaitSem(sem)))
    ensures var s, s' := sys.h.now, Act(sys, Ask(pid, WaitSem(sem))).h.now;
      && sem in s.waiting && sem in s'.semaphores && sem in s'.waiting
      && Level(s', sem) == Level(s, sem) - 1
      && (forall other :: other in s.semaphores && other != sem ==>
            other in s'.semaphores && s'.semaphores[other] == s.semaphores[other])
      && Seat(s, IsRunning(pid)) != [] && Seat(s, IsRunning(pid))[0].tid == Caller(sys, pid)
      && if s.semaphores[sem].value <= 0 then Moves(s, s', IsRunning(pid), AtSemaphore(sem)) else SameBut(s, s', {})
  {
    var s, tid := sys.h.now, Caller(sys, pid);
    CallerState(sys, pid);
    CallerRuns(sys, pid);
    WaitSent(sys, pid, sem);
    hide SystemOk, Shape, Distinct, Threads, Act, Served, Caller, Seat, Moves, SameBut, Wait;
    WaitKeepsRunning(s, pid, sem);
    WaitLowersLevel(s, pid, tid, sem);
    WaitMoves(s, pid, tid, sem);
    WaitElsewhere(s, pid, tid, sem);
  }

  /** The thread that runs does not make the server exit. */
  lemma WaitKeepsRunning(s: State, pid: int, sem: string)
    requires CanWait(s, pid, sem) && pid in s.programs && s.programs[pid].exec.Some? && !s.halted
    ensures !Wait(s, pid, s.programs[pid].exec.value.tid, sem).halted
  {
  }

  lemma WaitElsewhere(s: State, pid: int, tid: int, sem: string)
    requires CanWait(s, pid, sem) && s.waiting.Keys == s.semaphores.Keys
    ensures var s' := Wait(s, pid, tid, sem);
      && s'.semaphores.Keys == s.semaphores.Keys == s'.waiting.Keys
      && forall other :: other in s.semaphores && other != sem ==> s'.semaphores[other] == s.semaphores[other]
  {
  }

  /** hilolay_signal raises the level of the semaphore by one, up to the maximum, and wakes the first thread
      that waits there, of whatever program. */
  lemma SignalEffect(sys: System, pid: int, sem: string)
    requires SystemOk(sys) && SemaphoresOk(sys.h.now) && MayAct(sys, Ask(pid, SignalSem(sem)))
    requires sem in sys.h.now.semaphores
    ensures Served(sys, Ask(pid, SignalSem(sem)))
    ensures var s, s' := sys.h.now, Act(sys, Ask(pid, SignalSem(sem))).h.now;
      && sem in s.waiting && sem in s'.semaphores && sem in s'.waiting
      && Level(s', sem) == (if Level(s, sem) < s.semaphores[sem].max then Level(s, sem) + 1 else s.semaphores[sem].max)
      && (forall other :: other in s.semaphores && other != sem ==>
            other in s'.semaphores && s'.semaphores[other] == s.semaphores[other])
      && if s.waiting[sem] != [] then Moves(s, s', AtSemaphore(sem), InReady(s.waiting[sem][0].pid))
         else SameBut(s, s', {})
  {
    var s := sys.h.now;
    CallerState(sys, pid);
    SignalSent(sys, pid, sem);
    hide SystemOk, Shape, Distinct, Threads, Act, Served, Caller, Seat, Moves, SameBut, Signal;
    SignalRaisesLevel(s, pid, sem);
    SignalMoves(s, pid, sem);
    SignalElsewhere(s, pid, sem);
  }

  lemma SignalElsewhere(s: State, pid: int, sem: string)
    requires CanSignal(s, pid, sem) && s.waiting.Keys == s.semaphores.Keys
    ensures var s' := Signal(s, pid, sem);
      && s'.semaphores.Keys == s.semaphores.Keys == s'.waiting.Keys
      && forall other :: other in s.semaphores && other != sem ==> s'.semaphores[other] == s.semaphores[other]
  {
    hide MoveToReady;
    if Wakes(s, sem) {
      MoveSameSemaphores(Popped(s, sem), s.waiting[sem][0]);
    }
  }

  /** hilolay_join moves its caller to the joiners of the target, unless some program has finished a thread
      of that id. */
  lemma JoinEffect(sys: System, pid: int, target: int)
    requires SystemOk(sys) && MayAct(sys, Ask(pid, JoinThread(target)))
    ensures Served(sys, Ask(pid, JoinThread(target)))
    ensures var s, s' := sys.h.now, Act(sys, Ask(pid, JoinThread(target))).h.now;
      && Seat(s, IsRunning(pid)) != [] && Seat(s, IsRunning(pid))[0].tid == Caller(sys, pid)
      && if forall q, t :: t in Seat(s, InExit(q)) ==> t.tid != target then
           Moves(s, s', IsRunning(pid), JoinedOn(pid, target))
         else s' == s
  {
    CallerRuns(sys, pid);
    JoinSent(sys, pid, target);
    hide SystemOk, Act, Served, Caller, Seat, Moves, Join;
    JoinMoves(sys.h.now, pid, target);
  }

  /** The end of a thread, or hilolay_return, moves the calling thread to the exit list and its joiners to
      ready. */
  lemma EndEffect(sys: System, pid: int, a: Action)
    requires SystemOk(sys) && MayAct(sys, a) && (a == Ask(pid, CloseSelf) || a == Return(pid))
    ensures Served(sys, a)
    ensures var s, s', tid := sys.h.now, Act(sys, a).h.now, Caller(sys, pid);
      && Seat(s, IsRunning(pid)) != [] && Seat(s, IsRunning(pid))[0].tid == tid
      && Seat(s', IsRunning(pid)) == [] && Seat(s', InExit(pid)) == Seat(s, InExit(pid)) + Seat(s, IsRunning(pid))
      && Seat(s', JoinedOn(pid, tid)) == []
      && Seat(s', InReady(pid)) == Seat(s, InReady(pid)) + Seat(s, JoinedOn(pid, tid))
      && SameBut(s, s', {IsRunning(pid), InExit(pid), JoinedOn(pid, tid), InReady(pid)})
  {
    CallerState(sys, pid);
    CallerRuns(sys, pid);
    CloseSent(sys, pid, a);
    hide SystemOk, Shape, Distinct, Threads, Act, Served, Caller, Seat, SameBut, Close;
    CloseSeats(sys.h.now, pid, Caller(sys, pid));
  }

  /** hilolay_create puts a thread of the next free id at the end of the new queue, and in the table, unless
      all ids were given. */
  lemma SpawnEffect(sys: System, pid: int)
    requires SystemOk(sys) && MayAct(sys, SpawnThread(pid))
    ensures Served(sys, SpawnThread(pid))
    ensures var s, s', c := sys.h.now, Act(sys, SpawnThread(pid)).h.now, sys.sessions[pid].client;
      if c.nextId < H.MAX_ULTS then
        && Seat(s', InNew) == Seat(s, InNew) + [Thread(pid, c.nextId, 0.0, 0)] && SameBut(s, s', {InNew})
        && Act(sys, SpawnThread(pid)).sessions[pid].client.nextId == c.nextId + 1
      else Act(sys, SpawnThread(pid)) == sys
  {
    var c := sys.sessions[pid].client;
    assert H.ClientOk(c) by { assert Agrees(sys.h.now, pid, sys.sessions[pid]); }
    H.ClientIndex(c);
    SpawnOk(sys, pid);
    H.SpawnOk(c);
    hide Partition, Agrees, IdsGiven, H.ClientOk, H.Spawn;
    if c.nextId < H.MAX_ULTS {
      CreateMoves(sys.h.now, pid, c.nextId);
    }
  }

  /** hilolay_yield hands the program's processor to the thread SUSE picked: it is the caller from now on. */
  lemma YieldEffect(sys: System, pid: int, burst: int, order: seq<Thread>)
    requires SystemOk(sys) && MayAct(sys, YieldTo(pid, burst, order))
    ensures Served(sys, YieldTo(pid, burst, order))
    ensures var s, sys' := sys.h.now, Act(sys, YieldTo(pid, burst, order));
      var s', aged := sys'.h.now, Aged(s, pid, burst);
      && SameBut(s, s', {InReady(pid), IsRunning(pid)})
      && (if aged != [] && (order == [] || aged[0].estimate <= order[0].estimate) then
            Seat(s', IsRunning(pid)) == aged && Seat(s', InReady(pid)) == order
          else order != [] && Seat(s', IsRunning(pid)) == [order[0]] && Seat(s', InReady(pid)) == order[1..] + aged)
      && Seat(s', IsRunning(pid))[0].tid == Caller(sys', pid)
  {
    YieldSent(sys, pid, burst, order);
    hide SystemOk, Act, Served, Caller, ScheduleNext, Seat, SameBut, Aged;
    ScheduleMoves(sys.h.now, pid, burst, order);
    AfterYield(Act(sys, YieldTo(pid, burst, order)), pid);
  }

  lemma AfterYield(sys: System, pid: int)
    requires SystemOk(sys) && pid in sys.sessions && sys.sessions[pid].phase.Resting? && pid in sys.h.now.ready
    ensures Seat(sys.h.now, IsRunning(pid)) != [] && Seat(sys.h.now, IsRunning(pid))[0].tid == Caller(sys, pid)
  {
    hide SystemOk;
    CallerRuns(sys, pid);
  }

  // ---- semaphores over runs of programs ----

  lemma ActSemaphores(sys: System, a: Action)
    requires MayAct(sys, a) && Served(sys, a) && SemaphoresOk(sys.h.now)
    ensures SemaphoresOk(Act(sys, a).h.now)
  {
    hide SemaphoresOk, Enabled, Apply, Logged, RequestOf;
    if a.Begin? {
      StepSemaphores(sys.h, Connect(a.pid));
      StepSemaphores(Next(sys.h, Connect(a.pid)), Create(a.pid, H.MAIN_THREAD_ID));
    } else if !TableFull(sys, a) {
      StepSemaphores(sys.h, RequestOf(sys, a));
    }
  }

  /** The premise of SignalEffect holds in every reachable state of well configured semaphores. */
  lemma {:induction false} RunsSemaphores(sys: System, actions: seq<Action>, last: System)
    requires SystemOk(sys) && SemaphoresOk(sys.h.now) && Runs(sys, actions, last)
    ensures SemaphoresOk(last.h.now)
    decreases |actions|
  {
    hide SystemOk, MayAct, Served, Act, SemaphoresOk;
    if actions != [] {
      ActionOk(sys, actions[0]);
      ActSemaphores(sys, actions[0]);
      RunsSemaphores(Act(sys, actions[0]), actions[1..], last);
    }
  }
}
