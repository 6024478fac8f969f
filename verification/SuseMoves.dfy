/** What each request does to who is where: a thread goes from the front of one place to the end of
    another, and nobody else moves. */
module SuseMoves {
  import opened Basics
  import opened Suse
  import opened SuseThreads
  import opened SuseRuns
  import opened SuseSafety

  /** The threads in a place, in order. */
  ghost function Seat(s: State, p: Place): seq<Thread> {
    match p
    case InNew => s.arrivals
    case AwaitingPermit => if s.taken.Some? then [s.taken.value] else []
    case InReady(pid) => Entry(s.ready, pid, [])
    case IsRunning(pid) => if pid in s.programs && s.programs[pid].exec.Some? then [s.programs[pid].exec.value] else []
    case JoinedOn(pid, tid) => if pid in s.programs then Entry(s.programs[pid].blocked, tid, []) else []
    case AtSemaphore(sem) => Entry(s.waiting, sem, [])
    case InExit(pid) => Entry(s.exited, pid, [])
  }

  lemma SeatHolds(s: State, p: Place)
    ensures Holds(s, p) == multiset(Seat(s, p))
  {
  }

  /** Every place but these is as it was. */
  ghost predicate SameBut(s: State, s': State, places: set<Place>) {
    forall p :: p !in places ==> Seat(s', p) == Seat(s, p)
  }

  /** The first thread of one place goes to the end of the other. */
  ghost predicate Moves(s: State, s': State, from: Place, to: Place) {
    && from != to && Seat(s, from) != []
    && Seat(s', from) == Seat(s, from)[1..] && Seat(s', to) == Seat(s, to) + [Seat(s, from)[0]]
    && SameBut(s, s', {from, to})
  }

  lemma ConnectMoves(s: State, pid: int)
    requires Shape(s) && pid !in s.programs
    ensures SameBut(s, AddProgram(s, pid), {}) && AddProgram(s, pid).programs.Keys == s.programs.Keys + {pid}
  {
  }

  lemma CreateMoves(s: State, pid: int, tid: int)
    requires pid in s.programs
    ensures var s' := CreateThread(s, pid, tid);
      Seat(s', InNew) == Seat(s, InNew) + [Thread(pid, tid, 0.0, 0)] && SameBut(s, s', {InNew})
  {
  }

  lemma TakeMoves(s: State)
    requires s.arrivals != [] && s.taken.None?
    ensures Moves(s, TakeNew(s), InNew, AwaitingPermit)
  {
  }

  /** The first thread of a program goes from admission to running, the others to ready. */
  lemma GrantMoves(s: State)
    requires Shape(s) && s.taken.Some? && s.permits > 0
    ensures var pid := s.taken.value.pid;
      Moves(s, Admit(s), AwaitingPermit, if pid in s.ready then InReady(pid) else IsRunning(pid))
  {
  }

  /** A thread after a burst: the estimate is the average of the old one and the burst, weighed by alpha. */
  function After(alpha: real, t: Thread, burst: int): Thread {
    Thread(t.pid, t.tid, (1.0 - alpha) * t.estimate + alpha * (burst as real), burst)
  }

  /** The running thread after a burst. */
  ghost function Aged(s: State, pid: int, burst: int): seq<Thread> {
    if Seat(s, IsRunning(pid)) == [] then [] else [After(s.alpha, Seat(s, IsRunning(pid))[0], burst)]
  }

  /** The running thread is aged. It runs on unless a ready one has less estimate, or nobody ran: then the
      first in order runs, and the aged one goes to the end of the ready list. */
  lemma ScheduleMoves(s: State, pid: int, burst: int, order: seq<Thread>)
    requires CanSchedule(s, pid, order)
    ensures var (s', tid) := ScheduleNext(s, pid, burst, order);
      var aged := Aged(s, pid, burst);
      && SameBut(s, s', {InReady(pid), IsRunning(pid)})
      && (if aged != [] && (order == [] || aged[0].estimate <= order[0].estimate) then
            Seat(s', IsRunning(pid)) == aged && Seat(s', InReady(pid)) == order
          else order != [] && Seat(s', IsRunning(pid)) == [order[0]] && Seat(s', InReady(pid)) == order[1..] + aged)
      && tid == Seat(s', IsRunning(pid))[0].tid
  {
    SortingKeepsEmptiness(order, s.ready[pid]);
    var s1 := Reestimate(s, pid, burst).(ready := s.ready[pid := order]);
    AgedAndSorted(s, pid, burst, order);
    PickMoves(s1, pid);
    hide IsSorting, PickNext, Aged, Reestimate;
  }

  lemma AgedAndSorted(s: State, pid: int, burst: int, order: seq<Thread>)
    requires pid in s.programs && pid in s.ready
    ensures var s1 := Reestimate(s, pid, burst).(ready := s.ready[pid := order]);
      && Seat(s1, IsRunning(pid)) == Aged(s, pid, burst) && Seat(s1, InReady(pid)) == order
      && SameBut(s, s1, {InReady(pid), IsRunning(pid)})
  {
    if s.programs[pid].exec.Some? {
      ThreadAges(s.alpha, s.programs[pid].exec.value, burst);
    }
    hide Reestimated, After;
  }

  lemma ThreadAges(alpha: real, t: Thread, burst: int)
    ensures Reestimated(alpha, t, burst) == After(alpha, t, burst)
  {
  }

  lemma PickMoves(s: State, pid: int)
    requires pid in s.programs && pid in s.ready && (s.programs[pid].exec.Some? || s.ready[pid] != [])
    ensures var (s', tid) := PickNext(s, pid);
      var run, order := Seat(s, IsRunning(pid)), Seat(s, InReady(pid));
      && SameBut(s, s', {InReady(pid), IsRunning(pid)})
      && (if run != [] && (order == [] || run[0].estimate <= order[0].estimate) then
            Seat(s', IsRunning(pid)) == run && Seat(s', InReady(pid)) == order
          else order != [] && Seat(s', IsRunning(pid)) == [order[0]] && Seat(s', InReady(pid)) == order[1..] + run)
      && tid == Seat(s', IsRunning(pid))[0].tid
  {
    if s.ready[pid] != [] {
      assert s.ready[pid][1..] + [] == s.ready[pid][1..];
    }
  }

  /** A wait moves its caller exactly when the value is 0 and the caller runs; otherwise the caller runs on
      and no list changes. */
  lemma WaitMoves(s: State, pid: int, tid: int, sem: string)
    requires Shape(s) && CanWait(s, pid, sem)
    ensures var s' := Wait(s, pid, tid, sem);
      if sem in s.semaphores && s.semaphores[sem].value <= 0 && s.programs[pid].exec.value.tid == tid then
        Moves(s, s', IsRunning(pid), AtSemaphore(sem))
      else SameBut(s, s', {}) && s'.programs == s.programs && s'.ready == s.ready
  {
  }

  /** A signal moves a thread exactly when the value may rise and somebody waits. */
  lemma SignalMoves(s: State, pid: int, sem: string)
    requires Shape(s) && CanSignal(s, pid, sem)
    ensures var s' := Signal(s, pid, sem);
      if sem in s.semaphores && s.semaphores[sem].value < s.semaphores[sem].max && s.waiting[sem] != [] then
        Moves(s, s', AtSemaphore(sem), InReady(s.waiting[sem][0].pid))
      else SameBut(s, s', {}) && s'.programs == s.programs && s'.ready == s.ready
  {
    if Wakes(s, sem) {
      PoppedShape(s, sem);
      hide Shape;
    }
  }

  /** A join moves its caller exactly when somebody runs and no program has finished a thread of the awaited
      id; otherwise nothing changes. */
  lemma JoinMoves(s: State, pid: int, target: int)
    ensures var s' := Join(s, pid, target);
      if Seat(s, IsRunning(pid)) != [] && forall q, t :: t in Seat(s, InExit(q)) ==> t.tid != target then
        Moves(s, s', IsRunning(pid), JoinedOn(pid, target))
      else s' == s
  {
    JoinIgnoresExactly(s, pid, target);
    hide BlockedByAny, Finished;
    if q, t :| t in Seat(s, InExit(q)) && t.tid == target {
      assert q in s.exited && t in s.exited[q];
    } else {
      assert forall q, t :: q in s.exited && t in s.exited[q] ==> t in Seat(s, InExit(q));
    }
  }

  /** A close moves the running thread to the exit list and its joiners to ready, if it closes itself. */
  lemma CloseSeats(s: State, pid: int, tid: int)
    requires Shape(s) && Distinct(Threads(s)) && CanClose(s, pid, tid)
    ensures var s', t := Close(s, pid, tid), s.programs[pid].exec.value;
      if t.tid == tid then
        && Seat(s', IsRunning(pid)) == [] && Seat(s', InExit(pid)) == Seat(s, InExit(pid)) + [t]
        && Seat(s', JoinedOn(pid, tid)) == []
        && Seat(s', InReady(pid)) == Seat(s, InReady(pid)) + Seat(s, JoinedOn(pid, tid))
        && SameBut(s, s', {IsRunning(pid), InExit(pid), JoinedOn(pid, tid), InReady(pid)})
      else s' == s
  {
    hide Shape, Distinct, Threads, Close, Exit, Released, Seat;
    CloseMoves(s, pid, tid);
    if s.programs[pid].exec.value.tid == tid {
      CanReleaseAfterExit(s, pid);
      ExitSeats(s, pid);
      ReleasedSeats(Exit(s, pid), pid, tid);
    }
  }

  lemma ExitSeats(s: State, pid: int)
    requires pid in s.programs && s.programs[pid].exec.Some?
    ensures Moves(s, Exit(s, pid), IsRunning(pid), InExit(pid))
    ensures Seat(s, IsRunning(pid)) == [s.programs[pid].exec.value] && Seat(Exit(s, pid), IsRunning(pid)) == []
  {
  }

  lemma ReleasedSeats(s: State, pid: int, tid: int)
    requires CanRelease(s, pid, tid)
    ensures var s' := Released(s, pid, tid);
      && Seat(s', JoinedOn(pid, tid)) == []
      && Seat(s', InReady(pid)) == Seat(s, InReady(pid)) + Seat(s, JoinedOn(pid, tid))
      && SameBut(s, s', {JoinedOn(pid, tid), InReady(pid)})
  {
    assert Entry(s.ready, pid, []) + [] == Entry(s.ready, pid, []);
  }

  /** A disconnect empties the places of the program and no other. */
  lemma DisconnectMoves(s: State, pid: int)
    ensures var s' := Disconnect(s, pid);
      && s'.programs.Keys == s.programs.Keys - {pid}
        && (forall q :: q in s'.programs ==> s'.programs[q] == s.programs[q])
      && Seat(s', InReady(pid)) == Seat(s', IsRunning(pid)) == Seat(s', InExit(pid)) == []
      && (forall tid :: Seat(s', JoinedOn(pid, tid)) == [])
      && (forall p :: p !in {InReady(pid), IsRunning(pid), InExit(pid)} && !(p.JoinedOn? && p.pid == pid) ==>
            Seat(s', p) == Seat(s, p))
  {
  }

  // ---- admission in the order of creation ----

  /** The threads not yet admitted, in the order they will be. */
  ghost function Queue(s: State): seq<Thread> {
    Seat(s, AwaitingPermit) + Seat(s, InNew)
  }

  /** The threads a run creates, in order. */
  function CreatedIds(es: seq<Event>): seq<Key>
    decreases |es|
  {
    if es == [] then [] else (if es[0].Create? then [Key(es[0].pid, es[0].tid)] else []) + CreatedIds(es[1..])
  }

  ghost predicate SameQueue(s: State, s': State) {
    s'.arrivals == s.arrivals && s'.taken == s.taken
  }

  lemma {:induction false} ReleaseSameQueue(s: State, pid: int, tid: int)
    requires CanRelease(s, pid, tid)
    ensures SameQueue(s, Release(s, pid, tid))
    decreases |Joiners(s.programs[pid], tid)|
  {
    hide BlockedByAny;
    if Joiners(s.programs[pid], tid) != [] {
      ReleaseSameQueue(ReleaseOne(s, pid, tid), pid, tid);
    }
  }

  lemma StepQueue(h: History, e: Event)
    requires Enabled(h, e)
    ensures var q, q' := Ids(Queue(h.now)), Ids(Queue(Apply(h, e)));
      && q' == (if e.Create? then q + [Key(e.pid, e.tid)] else if e.Grant? && q != [] then q[1..] else q)
      && (e.Grant? ==> q != [])
  {
    hide IsSorting, Finished, BlockedByAny, Release;
    if e.CloseOf? && h.now.programs[e.pid].exec.value.tid == e.tid {
      ReleaseSameQueue(Exit(h.now, e.pid), e.pid, e.tid);
    } else if e.Take? {
      assert Queue(Apply(h, e)) == Queue(h.now);
    }
  }

  /** Over every run, disconnects included, threads are admitted in the order they were created. */
  lemma {:induction false} RunAdmitsInOrder(h: History, es: seq<Event>, last: History)
    requires Run(h, es, last)
    ensures var q, n := Ids(Queue(h.now)) + CreatedIds(es), last.log.admitted - h.log.admitted;
      0 <= n <= |q| && Ids(Queue(last.now)) == q[n..]
    decreases |es|
  {
    hide Enabled, Apply, Logged, Queue, Ids;
    if es != [] {
      var h1, e := Next(h, es[0]), es[0];
      StepQueue(h, e);
      StepAdmitted(h, e);
      RunAdmitsInOrder(h1, es[1..], last);
      InOrder(Ids(Queue(h.now)), Ids(Queue(h1.now)), if e.Create? then [Key(e.pid, e.tid)] else [], e.Grant?,
        CreatedIds(es[1..]), last.log.admitted - h1.log.admitted);
    }
  }

  /** One step of the queue, before the rest of the run. */
  lemma InOrder(q: seq<Key>, q': seq<Key>, created: seq<Key>, granted: bool, rest: seq<Key>, n: int)
    requires q' == if granted && q != [] then q[1..] else q + created
    requires granted ==> q != [] && created == []
    requires 0 <= n <= |q' + rest|
    ensures var m := n + if granted then 1 else 0;
      m <= |q + (created + rest)| && (q' + rest)[n..] == (q + (created + rest))[m..]
  {
  }

  lemma StepAdmitted(h: History, e: Event)
    requires Enabled(h, e)
    ensures Logged(h, e).admitted == h.log.admitted + if e.Grant? then 1 else 0
  {
    hide IsSorting;
  }
}
