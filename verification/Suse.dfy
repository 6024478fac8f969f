/** The state of the SUSE scheduler and what each request does to it (Planificador/SUSE/SUSE.c).
    A request is one atomic step. Clock readings and the order list_sort leaves equal estimates in
    are inputs. */
module Suse {
  import opened Basics

  datatype Key = Key(pid: int, tid: int)

  /** struct hilo */
  datatype Thread = Thread(pid: int, tid: int, estimate: real, burst: int) {
    function Id(): Key {
      Key(pid, tid)
    }
  }

  /** struct programa: the running thread, the join lists by awaited tid, and the three counters. */
  datatype Program = Program(
    exec: Option<Thread>, blocked: map<int, seq<Thread>>, inNew: int, inReady: int, inBlocked: int)

  /** struct semaforo */
  datatype Semaphore = Semaphore(value: int, max: int)

  /** The globals of SUSE.c. `taken` is the thread planificarReady holds between popping it from the
      new queue and being granted a permit of MAXIMOPROCESAMIENTO; `halted` is set by exit(-1). */
  datatype State = State(
    arrivals: seq<Thread>,
    taken: Option<Thread>,
    programs: map<int, Program>,
    ready: map<int, seq<Thread>>,
    exited: map<int, seq<Thread>>,
    semaphores: map<string, Semaphore>,
    waiting: map<string, seq<Thread>>,
    permits: int,
    alpha: real,
    halted: bool)

  /** crearPrograma */
  function AddProgram(s: State, pid: int): State {
    s.(programs := s.programs[pid := Program(None, map[], 0, 0, 0)])
  }

  /** crearHilo */
  function CreateThread(s: State, pid: int, tid: int): State
    requires pid in s.programs
  {
    var p := s.programs[pid];
    s.(arrivals := s.arrivals + [Thread(pid, tid, 0.0, 0)],
       programs := s.programs[pid := p.(inNew := p.inNew + 1)])
  }

  /** planificarReady, up to sem_wait(&MAXIMOPROCESAMIENTO) */
  function TakeNew(s: State): State
    requires s.arrivals != [] && s.taken.None?
  {
    s.(arrivals := s.arrivals[1..], taken := Some(s.arrivals[0]))
  }

  /** pasarAReady: the first thread of a program is its main thread and runs at once. */
  function MoveToReady(s: State, t: Thread): State
    requires t.pid in s.programs
  {
    var p := s.programs[t.pid];
    if t.pid !in s.ready then
      s.(ready := s.ready[t.pid := []], programs := s.programs[t.pid := p.(exec := Some(t))])
    else
      s.(ready := s.ready[t.pid := s.ready[t.pid] + [t]],
         programs := s.programs[t.pid := p.(inReady := p.inReady + 1)])
  }

  /** planificarReady, once a permit is granted */
  function Admit(s: State): State
    requires s.taken.Some? && s.permits > 0 && s.taken.value.pid in s.programs
  {
    var t := s.taken.value;
    var p := s.programs[t.pid];
    MoveToReady(
      s.(taken := None, permits := s.permits - 1, programs := s.programs[t.pid := p.(inNew := p.inNew - 1)]), t)
  }

  /** actualizarEstimacion, over the reals */
  function NextEstimate(alpha: real, estimate: real, burst: int): real {
    (1.0 - alpha) * estimate + alpha * (burst as real)
  }

  function Reestimated(alpha: real, t: Thread, burst: int): Thread {
    t.(burst := burst, estimate := NextEstimate(alpha, t.estimate, burst))
  }

  /** recalcularEstimacion */
  function Reestimate(s: State, pid: int, burst: int): State {
    if pid in s.programs && s.programs[pid].exec.Some? then
      var p := s.programs[pid];
      s.(programs := s.programs[pid := p.(exec := Some(Reestimated(s.alpha, p.exec.value, burst)))])
    else s
  }

  /** What list_sort may leave: the same threads by nondecreasing estimate. */
  predicate IsSorting(order: seq<Thread>, list: seq<Thread>) {
    && multiset(order) == multiset(list)
    && forall i, j :: 0 <= i < j < |order| ==> order[i].estimate <= order[j].estimate
  }

  /** calcularSiguienteHilo, when there is a thread to run */
  function PickNext(s: State, pid: int): (State, int)
    requires pid in s.programs && pid in s.ready
    requires s.programs[pid].exec.Some? || s.ready[pid] != []
  {
    var p := s.programs[pid];
    var list := s.ready[pid];
    if p.exec.Some? then
      if list != [] && list[0].estimate < p.exec.value.estimate then
        (s.(ready := s.ready[pid := list[1..] + [p.exec.value]],
            programs := s.programs[pid := p.(exec := Some(list[0]))]), list[0].tid)
      else (s, p.exec.value.tid)
    else
      (s.(ready := s.ready[pid := list[1..]],
          programs := s.programs[pid := p.(exec := Some(list[0]), inReady := p.inReady - 1)]), list[0].tid)
  }

  predicate CanSchedule(s: State, pid: int, order: seq<Thread>) {
    && pid in s.programs && pid in s.ready
    && (s.programs[pid].exec.Some? || s.ready[pid] != [])
    && IsSorting(order, s.ready[pid])
  }

  /** siguienteAEjecutar */
  function ScheduleNext(s: State, pid: int, burst: int, order: seq<Thread>): (State, int)
    requires CanSchedule(s, pid, order)
  {
    SortingKeepsEmptiness(order, s.ready[pid]);
    PickNext(Reestimate(s, pid, burst).(ready := s.ready[pid := order]), pid)
  }

  lemma SortingKeepsEmptiness(order: seq<Thread>, list: seq<Thread>)
    requires IsSorting(order, list)
    ensures |order| == |list|
  {
    assert |multiset(order)| == |multiset(list)|;
  }

  predicate CanWake(s: State, pid: int, sem: string) {
    && sem in s.waiting && s.waiting[sem] != []
    && pid in s.programs && s.waiting[sem][0].pid in s.programs
  }

  /** sacar1HiloDeLaColaDeBloqueadosPorSemaforo: the blocked counter that goes down is the one of
      the signalling program, whichever program the woken thread belongs to. */
  function Wake(s: State, pid: int, sem: string): State
    requires CanWake(s, pid, sem)
  {
    var s1 := MoveToReady(s.(waiting := s.waiting[sem := s.waiting[sem][1..]]), s.waiting[sem][0]);
    var p := s1.programs[pid];
    s1.(programs := s1.programs[pid := p.(inBlocked := p.inBlocked - 1)])
  }

  predicate CanSignal(s: State, pid: int, sem: string) {
    sem in s.semaphores ==>
      && sem in s.waiting
      && (s.semaphores[sem].value + 1 <= s.semaphores[sem].max && s.waiting[sem] != [] ==> CanWake(s, pid, sem))
  }

  /** sem_suse_signal */
  function Signal(s: State, pid: int, sem: string): State
    requires CanSignal(s, pid, sem)
  {
    if sem in s.semaphores && s.semaphores[sem].value + 1 <= s.semaphores[sem].max then
      if s.waiting[sem] == [] then
        s.(semaphores := s.semaphores[sem := s.semaphores[sem].(value := s.semaphores[sem].value + 1)])
      else Wake(s, pid, sem)
    else s
  }

  predicate CanWait(s: State, pid: int, sem: string) {
    sem in s.semaphores && s.semaphores[sem].value <= 0 ==>
      sem in s.waiting && pid in s.programs && s.programs[pid].exec.Some?
  }

  /** sem_suse_wait: a thread that is not the running one may not block, the server exits. */
  function Wait(s: State, pid: int, tid: int, sem: string): State
    requires CanWait(s, pid, sem)
  {
    if sem !in s.semaphores then s
    else if s.semaphores[sem].value > 0 then
      s.(semaphores := s.semaphores[sem := s.semaphores[sem].(value := s.semaphores[sem].value - 1)])
    else
      var p := s.programs[pid];
      if p.exec.value.tid == tid then
        s.(waiting := s.waiting[sem := s.waiting[sem] + [p.exec.value]],
           programs := s.programs[pid := p.(exec := None, inBlocked := p.inBlocked + 1)])
      else s.(halted := true)
  }

  /** terminoElHilo: looks for the tid in the exit lists of all programs, not only of the caller's. */
  predicate Finished(exited: map<int, seq<Thread>>, tid: int) {
    exists pid :: pid in exited && HasTid(exited[pid], tid)
  }

  predicate HasTid(list: seq<Thread>, tid: int): (found: bool)
    ensures found <==> exists t :: t in list && t.tid == tid
  {
    exists i :: 0 <= i < |list| && list[i].tid == tid
  }

  /** bloqueadoPorAlgunHilo */
  predicate BlockedByAny(p: Program, tid: int) {
    exists t :: t in p.blocked && HasTid(p.blocked[t], tid)
  }

  function Joiners(p: Program, tid: int): seq<Thread> {
    Entry(p.blocked, tid, [])
  }

  /** realizarJoin, with ponerEnBlockedPorHilo */
  function Join(s: State, pid: int, target: int): State {
    if pid in s.programs && s.programs[pid].exec.Some? && !Finished(s.exited, target) then
      var p := s.programs[pid];
      var t := p.exec.value;
      s.(programs := s.programs[pid := p.(
           exec := None,
           inBlocked := if BlockedByAny(p, t.tid) then p.inBlocked else p.inBlocked + 1,
           blocked := p.blocked[target := Joiners(p, target) + [t]])])
    else s
  }

  predicate CanRelease(s: State, pid: int, tid: int) {
    && pid in s.programs
    && (Joiners(s.programs[pid], tid) != [] ==> pid in s.ready)
    && forall t :: t in Joiners(s.programs[pid], tid) ==> t.pid == pid
  }

  /** One turn of the loop of liberarBloqueadosPorElHilo: the first joiner leaves the list, and goes
      to ready unless some join list of the program still has its tid. */
  function ReleaseOne(s: State, pid: int, tid: int): State
    requires CanRelease(s, pid, tid) && Joiners(s.programs[pid], tid) != []
  {
    var p := s.programs[pid];
    var t := p.blocked[tid][0];
    var q := p.(blocked := p.blocked[tid := p.blocked[tid][1..]]);
    if BlockedByAny(q, t.tid) then
      s.(programs := s.programs[pid := q])
    else
      s.(programs := s.programs[pid := q.(inBlocked := q.inBlocked - 1, inReady := q.inReady + 1)],
         ready := s.ready[pid := s.ready[pid] + [t]])
  }

  /** liberarBloqueadosPorElHilo */
  function Release(s: State, pid: int, tid: int): State
    requires CanRelease(s, pid, tid)
    decreases |Joiners(s.programs[pid], tid)|
  {
    if Joiners(s.programs[pid], tid) == [] then s else Release(ReleaseOne(s, pid, tid), pid, tid)
  }

  predicate CanClose(s: State, pid: int, tid: int) {
    && pid in s.programs && s.programs[pid].exec.Some?
    && (s.programs[pid].exec.value.tid == tid ==> CanRelease(s, pid, tid))
  }

  /** pasarAExit, and the running slot emptied */
  function Exit(s: State, pid: int): State
    requires pid in s.programs && s.programs[pid].exec.Some?
  {
    var p := s.programs[pid];
    s.(exited := s.exited[pid := Entry(s.exited, pid, []) + [p.exec.value]],
       permits := s.permits + 1,
       programs := s.programs[pid := p.(exec := None)])
  }

  /** realizarClose: nothing happens unless the running thread closes itself. */
  function Close(s: State, pid: int, tid: int): State
    requires CanClose(s, pid, tid)
  {
    if s.programs[pid].exec.value.tid == tid then Release(Exit(s, pid), pid, tid) else s
  }

  /** The end of a connection: a permit is posted and limpiarEstructuras drops the program. */
  function Disconnect(s: State, pid: int): State {
    s.(permits := s.permits + 1, programs := s.programs - {pid}, ready := s.ready - {pid}, exited := s.exited - {pid})
  }

  /** iniciarSUSE */
  function Initial(semaphores: map<string, Semaphore>, maxMultiprog: int, alpha: real): State {
    State([], None, map[], map[], map[], semaphores, map sem | sem in semaphores :: [], maxMultiprog, alpha, false)
  }
}

/** The scheduler process: its globals, and the handlers that update them in place. */
module SuseServer {
  import opened Basics
  import opened Suse

  class Server {
    var arrivals: seq<Thread>
    var taken: Option<Thread>
    var programs: map<int, Program>
    var ready: map<int, seq<Thread>>
    var exited: map<int, seq<Thread>>
    var semaphores: map<string, Semaphore>
    var waiting: map<string, seq<Thread>>
    var permits: int
    var alpha: real
    var halted: bool

    ghost function Now(): State
      reads this
    {
      State(arrivals, taken, programs, ready, exited, semaphores, waiting, permits, alpha, halted)
    }

    /** iniciarSUSE */
    constructor (sems: map<string, Semaphore>, maxMultiprog: int, alphaSjf: real)
      ensures Now() == Initial(sems, maxMultiprog, alphaSjf)
    {
      arrivals, taken, programs, ready, exited := [], None, map[], map[], map[];
      semaphores, waiting := sems, map sem | sem in sems :: [];
      permits, alpha, halted := maxMultiprog, alphaSjf, false;
    }

    /** crearPrograma */
    method NewProgram(pid: int)
      modifies this
      ensures Now() == AddProgram(old(Now()), pid)
    {
      programs := programs[pid := Program(None, map[], 0, 0, 0)];
    }

    /** crearHilo */
    method Create(pid: int, tid: int)
      requires pid in programs
      modifies this
      ensures Now() == CreateThread(old(Now()), pid, tid)
    {
      arrivals := arrivals + [Thread(pid, tid, 0.0, 0)];
      var p := programs[pid];
      programs := programs[pid := p.(inNew := p.inNew + 1)];
    }

    /** planificarReady, first half */
    method Take()
      requires arrivals != [] && taken.None?
      modifies this
      ensures Now() == TakeNew(old(Now()))
    {
      taken := Some(arrivals[0]);
      arrivals := arrivals[1..];
    }

    /** planificarReady, second half */
    method AdmitTaken()
      requires taken.Some? && permits > 0 && taken.value.pid in programs
      modifies this
      ensures Now() == Admit(old(Now()))
    {
      var t := taken.value;
      taken := None;
      permits := permits - 1;
      var p := programs[t.pid];
      programs := programs[t.pid := p.(inNew := p.inNew - 1)];
      PassToReady(t);
    }

    /** pasarAReady */
    method PassToReady(t: Thread)
      requires t.pid in programs
      modifies this
      ensures Now() == MoveToReady(old(Now()), t)
    {
      var p := programs[t.pid];
      if t.pid !in ready {
        ready := ready[t.pid := []];
        programs := programs[t.pid := p.(exec := Some(t))];
      } else {
        ready := ready[t.pid := ready[t.pid] + [t]];
        programs := programs[t.pid := p.(inReady := p.inReady + 1)];
      }
    }

    /** siguienteAEjecutar: recalcularEstimacion, replanificarHilos, calcularSiguienteHilo. `order` is
        what list_sort leaves. */
    method Schedule(pid: int, burst: int, order: seq<Thread>) returns (tid: int)
      requires CanSchedule(Now(), pid, order)
      modifies this
      ensures (Now(), tid) == ScheduleNext(old(Now()), pid, burst, order)
    {
      SortingKeepsEmptiness(order, ready[pid]);
      var p := programs[pid];
      if p.exec.Some? {
        p := p.(exec := Some(Reestimated(alpha, p.exec.value, burst)));
        programs := programs[pid := p];
      }
      ready := ready[pid := order];
      if p.exec.Some? {
        var running := p.exec.value;
        if order != [] && order[0].estimate < running.estimate {
          var candidate := order[0];
          ready := ready[pid := order[1..] + [running]];
          programs := programs[pid := p.(exec := Some(candidate))];
          return candidate.tid;
        }
        return running.tid;
      }
      ready := ready[pid := order[1..]];
      programs := programs[pid := p.(exec := Some(order[0]), inReady := p.inReady - 1)];
      return order[0].tid;
    }

    /** sem_suse_signal, with sacar1HiloDeLaColaDeBloqueadosPorSemaforo */
    method SemSignal(pid: int, sem: string)
      requires CanSignal(Now(), pid, sem)
      modifies this
      ensures Now() == Signal(old(Now()), pid, sem)
    {
      if sem in semaphores && semaphores[sem].value + 1 <= semaphores[sem].max {
        if waiting[sem] == [] {
          semaphores := semaphores[sem := semaphores[sem].(value := semaphores[sem].value + 1)];
        } else {
          var t := waiting[sem][0];
          waiting := waiting[sem := waiting[sem][1..]];
          PassToReady(t);
          programs := programs[pid := programs[pid].(inBlocked := programs[pid].inBlocked - 1)];
        }
      }
    }

    /** sem_suse_wait */
    method SemWait(pid: int, tid: int, sem: string)
      requires CanWait(Now(), pid, sem)
      modifies this
      ensures Now() == Wait(old(Now()), pid, tid, sem)
    {
      if sem in semaphores {
        if semaphores[sem].value > 0 {
          semaphores := semaphores[sem := semaphores[sem].(value := semaphores[sem].value - 1)];
        } else {
          var p := programs[pid];
          if p.exec.value.tid == tid {
            waiting := waiting[sem := waiting[sem] + [p.exec.value]];
            p := p.(inBlocked := p.inBlocked + 1);
            programs := programs[pid := p.(exec := None)];
          } else {
            halted := true;
          }
        }
      }
    }

    /** realizarJoin */
    method JoinThread(pid: int, target: int)
      modifies this
      ensures Now() == Join(old(Now()), pid, target)
    {
      if pid in programs && programs[pid].exec.Some? && !Finished(exited, target) {
        var p := programs[pid];
        var t := p.exec.value;
        if !BlockedByAny(p, t.tid) {
          p := p.(inBlocked := p.inBlocked + 1);
        }
        p := p.(blocked := p.blocked[target := Joiners(p, target) + [t]]);
        programs := programs[pid := p.(exec := None)];
      }
    }

    /** realizarClose, with pasarAExit */
    method CloseThread(pid: int, tid: int)
      requires CanClose(Now(), pid, tid)
      modifies this
      ensures Now() == Close(old(Now()), pid, tid)
    {
      var p := programs[pid];
      if p.exec.value.tid == tid {
        exited := exited[pid := Entry(exited, pid, []) + [p.exec.value]];
        permits := permits + 1;
        programs := programs[pid := p.(exec := None)];
        ReleaseJoiners(pid, tid);
      }
    }

    /** liberarBloqueadosPorElHilo */
    method ReleaseJoiners(pid: int, tid: int)
      requires CanRelease(Now(), pid, tid)
      modifies this
      ensures Now() == Release(old(Now()), pid, tid)
    {
      ghost var start := Now();
      while tid in programs[pid].blocked && programs[pid].blocked[tid] != []
        invariant CanRelease(Now(), pid, tid)
        invariant Release(Now(), pid, tid) == Release(start, pid, tid)
        decreases |Joiners(programs[pid], tid)|
      {
        var p := programs[pid];
        var t := p.blocked[tid][0];
        p := p.(blocked := p.blocked[tid := p.blocked[tid][1..]]);
        if !BlockedByAny(p, t.tid) {
          ready := ready[pid := ready[pid] + [t]];
          p := p.(inBlocked := p.inBlocked - 1, inReady := p.inReady + 1);
        }
        programs := programs[pid := p];
      }
    }

    /** The end of a connection, with limpiarEstructuras */
    method Drop(pid: int)
      modifies this
      ensures Now() == Disconnect(old(Now()), pid)
    {
      permits := permits + 1;
      exited := exited - {pid};
      ready := ready - {pid};
      programs := programs - {pid};
    }
  }
}
