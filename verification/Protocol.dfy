/** SUSE and the programs linked with Hilolay, together: who runs, as each side sees it. */
module Protocol {
  import opened Basics
  import opened MapSums
  import opened Suse
  import opened SuseThreads
  import opened SuseRuns
  import H = Hilolay

  /** Where a program is between two library calls: at rest, past a request it will follow with a
      yield, or past hilolay_return. */
  datatype Phase = Resting | Asked | Returned

  datatype Session = Session(client: H.Client, phase: Phase)

  /** What a library call asks of SUSE before it yields; the end of a thread routine closes it. */
  datatype Request = JoinThread(target: int) | WaitSem(sem: string) | SignalSem(sem: string) | CloseSelf

  datatype System = System(h: History, sessions: map<int, Session>)

  datatype Action =
    | Begin(pid: int)                                         // hilolay_init
    | SpawnThread(pid: int)                                   // hilolay_create
    | ServerTake
    | ServerGrant
    | Ask(pid: int, request: Request)                         // join, wait, signal, end of a thread
    | YieldTo(pid: int, burst: int, order: seq<Thread>)       // hilolay_yield
    | Return(pid: int)                                        // hilolay_return

  function CurrentId(c: H.Client): int {
    if c.current < |c.ults| then c.ults[c.current].id else -1
  }

  /** The thread SUSE has running for a program. */
  function Exec(s: State, pid: int): Option<Thread> {
    if pid in s.programs then s.programs[pid].exec else None
  }

  /** When a program or the server may act. Calls that need the scheduler wait for the main thread to
      be admitted, and a schedule_next with nothing to run waits until some thread is ready. */
  ghost predicate MayAct(sys: System, a: Action) {
    var s := sys.h.now;
    match a
    case Begin(pid) => pid !in sys.sessions
    case SpawnThread(pid) => pid in sys.sessions && sys.sessions[pid].phase.Resting?
    case ServerTake => s.arrivals != [] && s.taken.None?
    case ServerGrant => s.taken.Some? && s.permits > 0
    case Ask(pid, request) => pid in sys.sessions && sys.sessions[pid].phase.Resting? && pid in s.ready
    case YieldTo(pid, burst, order) =>
      && pid in sys.sessions && !sys.sessions[pid].phase.Returned? && pid in s.ready
      && IsSorting(order, s.ready[pid])
      && (order != [] || Exec(s, pid).Some?)
    case Return(pid) => pid in sys.sessions && sys.sessions[pid].phase.Resting? && pid in s.ready
  }

  /** The request an action sends; Begin sends two. */
  function RequestOf(sys: System, a: Action): Event
    requires !a.Begin?
    requires a.SpawnThread? || a.Ask? || a.Return? ==> a.pid in sys.sessions
  {
    match a
    case SpawnThread(pid) => Create(pid, sys.sessions[pid].client.nextId)
    case ServerTake => Take
    case ServerGrant => Grant
    case Ask(pid, request) =>
      (match request
       case JoinThread(target) => JoinOn(pid, target)
       case WaitSem(sem) => WaitOn(pid, CurrentId(sys.sessions[pid].client), sem)
       case SignalSem(sem) => SignalOn(pid, sem)
       case CloseSelf => CloseOf(pid, CurrentId(sys.sessions[pid].client)))
    case YieldTo(pid, burst, order) => Schedule(pid, burst, order)
    case Return(pid) => CloseOf(pid, CurrentId(sys.sessions[pid].client))
  }

  /** hilolay_create finds no free TCB and sends nothing. */
  predicate TableFull(sys: System, a: Action) {
    a.SpawnThread? && a.pid in sys.sessions && H.Spawn(sys.sessions[a.pid].client).1 == H.ERROR_TOO_MANY_ULTS
  }

  /** The server can serve the request: it does not follow a null pointer, nor does the client. */
  ghost predicate Served(sys: System, a: Action)
    requires MayAct(sys, a)
  {
    if a.Begin? then
      Enabled(sys.h, Connect(a.pid)) && Enabled(Next(sys.h, Connect(a.pid)), Create(a.pid, H.MAIN_THREAD_ID))
    else if TableFull(sys, a) then true
    else
      && Enabled(sys.h, RequestOf(sys, a))
      && (a.YieldTo? ==>
            var c := sys.sessions[a.pid].client;
            c.current < |c.ults| && H.SlotOf(c.ults, ScheduleNext(sys.h.now, a.pid, a.burst, a.order).1, 0) < |c.ults|)
  }

  ghost function Act(sys: System, a: Action): System
    requires MayAct(sys, a) && Served(sys, a)
  {
    if TableFull(sys, a) then sys
    else
      match a
      case Begin(pid) =>
        System(Next(Next(sys.h, Connect(pid)), Create(pid, H.MAIN_THREAD_ID)),
               sys.sessions[pid := Session(H.InitialClient(), Resting)])
      case SpawnThread(pid) =>
        System(Next(sys.h, RequestOf(sys, a)),
               sys.sessions[pid := sys.sessions[pid].(client := H.Spawn(sys.sessions[pid].client).0)])
      case ServerTake => sys.(h := Next(sys.h, RequestOf(sys, a)))
      case ServerGrant => sys.(h := Next(sys.h, RequestOf(sys, a)))
      case Ask(pid, request) =>
        System(Next(sys.h, RequestOf(sys, a)), sys.sessions[pid := sys.sessions[pid].(phase := Asked)])
      case YieldTo(pid, burst, order) =>
        System(Next(sys.h, RequestOf(sys, a)),
               sys.sessions[pid := Session(
                 H.Yield(sys.sessions[pid].client, ScheduleNext(sys.h.now, pid, burst, order).1), Resting)])
      case Return(pid) =>
        System(Next(sys.h, RequestOf(sys, a)), sys.sessions[pid := sys.sessions[pid].(phase := Returned)])
  }

  ghost predicate Runs(sys: System, actions: seq<Action>, last: System)
    decreases |actions|
  {
    if actions == [] then sys == last
    else MayAct(sys, actions[0]) && Served(sys, actions[0]) && Runs(Act(sys, actions[0]), actions[1..], last)
  }

  // ================= agreement =================

  /** Whether pid's main thread is the first of its threads in a queue. */
  predicate MainFirst(queue: seq<Thread>, pid: int)
    decreases |queue|
  {
    queue != [] && (if queue[0].pid == pid then queue[0].tid == H.MAIN_THREAD_ID else MainFirst(queue[1..], pid))
  }

  /** The threads not yet admitted, in the order they will be. */
  function Pending(s: State): seq<Thread> {
    (if s.taken.Some? then [s.taken.value] else []) + s.arrivals
  }

  /** What SUSE and one program agree on. */
  ghost predicate Agrees(s: State, pid: int, session: Session) {
    && H.ClientOk(session.client)
    && (pid in s.ready && session.phase.Resting? ==> Exec(s, pid).Some?)
    && (pid in s.ready && Exec(s, pid).Some? ==>
      Exec(s, pid).value.tid == session.client.current && !session.phase.Returned?)
    && (pid !in s.ready ==> session.phase.Resting? && session.client.current == 0 && MainFirst(Pending(s), pid))
  }

  /** Every id SUSE knows was given out by the library of its program. */
  ghost predicate IdsGiven(created: set<Key>, sessions: map<int, Session>) {
    forall k :: k in created ==> k.pid in sessions && 0 <= k.tid < sessions[k.pid].client.nextId
  }

  ghost predicate SystemOk(sys: System) {
    && Partition(sys.h)
    && !sys.h.now.halted
    && sys.sessions.Keys == sys.h.now.programs.Keys
    && IdsGiven(sys.h.log.created, sys.sessions)
    && forall pid :: pid in sys.sessions ==> Agrees(sys.h.now, pid, sys.sessions[pid])
  }

  lemma CurrentIsId(c: H.Client)
    requires H.ClientOk(c)
    ensures CurrentId(c) == c.current
  {
  }

  // ---- what a request changes of the view a program has of the server ----

  ghost predicate SameView(s: State, s': State, pid: int) {
    && Exec(s', pid) == Exec(s, pid)
    && (pid in s'.ready <==> pid in s.ready)
    && (pid !in s.ready && MainFirst(Pending(s), pid) ==> MainFirst(Pending(s'), pid))
  }

  /** Only pid's own running slot may have changed. */
  ghost predicate OthersSame(s: State, s': State, pid: int) {
    && s'.ready.Keys == s.ready.Keys && s'.programs.Keys == s.programs.Keys
    && Pending(s') == Pending(s)
    && forall q :: q != pid ==> Exec(s', q) == Exec(s, q)
  }

  lemma {:induction false} MainFirstPush(queue: seq<Thread>, t: Thread, pid: int)
    ensures MainFirst(queue, pid) ==> MainFirst(queue + [t], pid)
    ensures (forall u :: u in queue ==> u.pid != pid) && t.Id() == Key(pid, H.MAIN_THREAD_ID) ==>
      MainFirst(queue + [t], pid)
  {
    if queue != [] {
      MainFirstPush(queue[1..], t, pid);
      assert (queue + [t])[1..] == queue[1..] + [t];
    }
  }

  lemma CreateView(s: State, pid: int, tid: int)
    requires pid in s.programs
    ensures var s' := CreateThread(s, pid, tid);
      && Pending(s') == Pending(s) + [Thread(pid, tid, 0.0, 0)]
      && (forall q :: SameView(s, s', q))
  {
    var s' := CreateThread(s, pid, tid);
    assert Pending(s') == Pending(s) + [Thread(pid, tid, 0.0, 0)];
    forall q ensures SameView(s, s', q) {
      MainFirstPush(Pending(s), Thread(pid, tid, 0.0, 0), q);
    }
  }

  lemma TakeView(s: State)
    requires s.arrivals != [] && s.taken.None?
    ensures OthersSame(s, TakeNew(s), -1) && Exec(TakeNew(s), -1) == Exec(s, -1)
  {
    assert s.arrivals == [s.arrivals[0]] + s.arrivals[1..];
  }

  lemma GrantView(s: State, pid: int)
    requires s.taken.Some? && s.permits > 0 && s.taken.value.pid in s.programs
    ensures var t, s' := s.taken.value, Admit(s);
      if pid == t.pid && pid !in s.ready then Exec(s', pid) == Some(t) && pid in s'.ready
      else SameView(s, s', pid)
    ensures Pending(s) == [s.taken.value] + Pending(Admit(s))
  {
    hide MainFirst;
    var t := s.taken.value;
    assert Pending(Admit(s)) == s.arrivals;
    if t.pid != pid {
      MainFirstPop(t, s.arrivals, pid);
    }
  }

  lemma MainFirstPop(t: Thread, queue: seq<Thread>, pid: int)
    requires t.pid != pid
    ensures MainFirst([t] + queue, pid) <==> MainFirst(queue, pid)
  {
    assert ([t] + queue)[1..] == queue;
  }

  lemma ScheduleView(s: State, pid: int, burst: int, order: seq<Thread>)
    requires CanSchedule(s, pid, order)
    ensures var (s', tid) := ScheduleNext(s, pid, burst, order);
      OthersSame(s, s', pid) && Exec(s', pid).Some? && Exec(s', pid).value.tid == tid
  {
    SortingKeepsEmptiness(order, s.ready[pid]);
    hide IsSorting;
  }

  lemma WaitView(s: State, pid: int, tid: int, sem: string)
    requires CanWait(s, pid, sem)
    ensures var s' := Wait(s, pid, tid, sem);
      && OthersSame(s, s', pid) && (Exec(s', pid).Some? ==> Exec(s', pid) == Exec(s, pid))
      && (Exec(s, pid).Some? && Exec(s, pid).value.tid == tid ==> s'.halted == s.halted)
  {
  }

  lemma MoveView(s: State, t: Thread)
    requires t.pid in s.ready && t.pid in s.programs
    ensures var s' := MoveToReady(s, t);
      && s'.ready.Keys == s.ready.Keys && s'.programs.Keys == s.programs.Keys && s'.halted == s.halted
      && Pending(s') == Pending(s) && forall q :: Exec(s', q) == Exec(s, q)
  {
  }

  lemma SignalView(s: State, pid: int, sem: string)
    requires Shape(s) && CanSignal(s, pid, sem)
    ensures OthersSame(s, Signal(s, pid, sem), pid) && Exec(Signal(s, pid, sem), pid) == Exec(s, pid)
    ensures Signal(s, pid, sem).halted == s.halted
  {
    hide MoveToReady, Shape;
    if Wakes(s, sem) {
      PoppedShape(s, sem);
      MoveView(Popped(s, sem), s.waiting[sem][0]);
      var s1 := MoveToReady(Popped(s, sem), s.waiting[sem][0]);
      forall q ensures Exec(Signal(s, pid, sem), q) == Exec(s, q) {
        assert Exec(s1, q) == Exec(Popped(s, sem), q) == Exec(s, q);
      }
    }
  }

  lemma JoinView(s: State, pid: int, target: int)
    ensures OthersSame(s, Join(s, pid, target), pid)
    ensures Exec(Join(s, pid, target), pid).Some? ==> Exec(Join(s, pid, target), pid) == Exec(s, pid)
    ensures Join(s, pid, target).halted == s.halted
  {
    hide Finished, BlockedByAny;
  }

  lemma CloseView(s: State, pid: int, tid: int)
    requires Shape(s) && Distinct(Threads(s)) && CanClose(s, pid, tid)
    ensures OthersSame(s, Close(s, pid, tid), pid) && Close(s, pid, tid).halted == s.halted
    ensures Exec(Close(s, pid, tid), pid) == if s.programs[pid].exec.value.tid == tid then None else Exec(s, pid)
  {
    hide Shape, Distinct, Threads, Close, Exit, Released, OthersSame;
    CloseMoves(s, pid, tid);
    if s.programs[pid].exec.value.tid == tid {
      CanReleaseAfterExit(s, pid);
      ReleasedView(s, pid);
    } else {
      ViewItself(s, pid);
    }
  }

  lemma ViewItself(s: State, pid: int)
    ensures OthersSame(s, s, pid)
  {
  }

  lemma ReleasedView(s: State, pid: int)
    requires pid in s.programs && s.programs[pid].exec.Some?
    requires CanRelease(Exit(s, pid), pid, s.programs[pid].exec.value.tid)
    ensures var s' := Released(Exit(s, pid), pid, s.programs[pid].exec.value.tid);
      OthersSame(s, s', pid) && s'.halted == s.halted && Exec(s', pid) == None
  {
  }

  // ---- every action is served, and agreement is kept ----

  lemma AgreesSame(s: State, s': State, pid: int, session: Session)
    requires Agrees(s, pid, session) && SameView(s, s', pid)
    ensures Agrees(s', pid, session)
  {
    hide H.ClientOk;
  }

  lemma OthersAgree(s: State, s': State, pid: int, sessions: map<int, Session>)
    requires OthersSame(s, s', pid)
    requires forall q :: q in sessions ==> Agrees(s, q, sessions[q])
    ensures forall q :: q in sessions && q != pid ==> Agrees(s', q, sessions[q])
  {
    hide Agrees;
    forall q | q in sessions && q != pid ensures Agrees(s', q, sessions[q]) {
      AgreesSame(s, s', q, sessions[q]);
    }
  }

  lemma IdsStay(created: set<Key>, sessions: map<int, Session>, pid: int, session: Session)
    requires IdsGiven(created, sessions) && pid in sessions && session.client.nextId >= sessions[pid].client.nextId
    ensures IdsGiven(created, sessions[pid := session])
  {
  }

  lemma BeginOk(sys: System, pid: int)
    requires SystemOk(sys) && MayAct(sys, Begin(pid))
    ensures Served(sys, Begin(pid)) && SystemOk(Act(sys, Begin(pid)))
  {
    hide Sum, Threads, Distinct, Known, Agrees, H.ClientOk, H.InitialClient;
    var s := sys.h.now;
    var h1 := Next(sys.h, Connect(pid));
    StepPartition(sys.h, Connect(pid));
    StepPartition(h1, Create(pid, H.MAIN_THREAD_ID));
    H.InitialOk();
    BeginAgrees(s, pid, sys.sessions);
  }

  lemma BeginAgrees(s: State, pid: int, sessions: map<int, Session>)
    requires Shape(s) && pid !in s.programs && sessions.Keys == s.programs.Keys
    requires forall q :: q in sessions ==> Agrees(s, q, sessions[q])
    ensures var s' := CreateThread(AddProgram(s, pid), pid, H.MAIN_THREAD_ID);
      var sessions' := sessions[pid := Session(H.InitialClient(), Resting)];
      forall q :: q in sessions' ==> Agrees(s', q, sessions'[q])
  {
    var s1 := AddProgram(s, pid);
    CreateView(s1, pid, H.MAIN_THREAD_ID);
    MainFirstPush(Pending(s), Thread(pid, H.MAIN_THREAD_ID, 0.0, 0), pid);
    H.InitialOk();
    hide H.ClientOk, MainFirst;
    forall q | q in sessions ensures Agrees(CreateThread(s1, pid, H.MAIN_THREAD_ID), q, sessions[q]) {
      AgreesSame(s, s1, q, sessions[q]);
      AgreesSame(s1, CreateThread(s1, pid, H.MAIN_THREAD_ID), q, sessions[q]);
    }
  }

  lemma SpawnOk(sys: System, pid: int)
    requires SystemOk(sys) && MayAct(sys, SpawnThread(pid))
    ensures Served(sys, SpawnThread(pid)) && SystemOk(Act(sys, SpawnThread(pid)))
  {
    hide Partition, H.ClientOk, H.Spawn, MainFirst;
    var s, c := sys.h.now, sys.sessions[pid].client;
    assert H.ClientOk(c) by { assert Agrees(s, pid, sys.sessions[pid]); }
    H.SpawnOk(c);
    if c.nextId != H.MAX_ULTS {
      assert Key(pid, c.nextId) !in sys.h.log.created;
      StepPartition(sys.h, Create(pid, c.nextId));
      SpawnAgrees(s, pid, c.nextId, sys.sessions);
      IdsStay(sys.h.log.created, sys.sessions, pid, sys.sessions[pid].(client := H.Spawn(c).0));
    }
  }

  lemma SpawnAgrees(s: State, pid: int, tid: int, sessions: map<int, Session>)
    requires pid in s.programs && forall q :: q in sessions ==> Agrees(s, q, sessions[q])
    ensures forall q :: q in sessions ==> Agrees(CreateThread(s, pid, tid), q, sessions[q])
  {
    hide Agrees, CreateThread;
    CreateView(s, pid, tid);
    forall q | q in sessions ensures Agrees(CreateThread(s, pid, tid), q, sessions[q]) {
      AgreesSame(s, CreateThread(s, pid, tid), q, sessions[q]);
    }
  }

  lemma TakeOk(sys: System)
    requires SystemOk(sys) && MayAct(sys, ServerTake)
    ensures Served(sys, ServerTake) && SystemOk(Act(sys, ServerTake))
  {
    hide Sum, Threads, Distinct, Known, Agrees;
    StepPartition(sys.h, Take);
    TakeView(sys.h.now);
    forall q | q in sys.sessions ensures Agrees(TakeNew(sys.h.now), q, sys.sessions[q]) {
      AgreesSame(sys.h.now, TakeNew(sys.h.now), q, sys.sessions[q]);
    }
  }

  lemma GrantOk(sys: System)
    requires SystemOk(sys) && MayAct(sys, ServerGrant)
    ensures Served(sys, ServerGrant) && SystemOk(Act(sys, ServerGrant))
  {
    hide Sum, Threads, Distinct, Known, H.ClientOk, Admit;
    var s, t := sys.h.now, sys.h.now.taken.value;
    StepPartition(sys.h, Grant);
    AdmitMeta(s);
    forall q | q in sys.sessions ensures Agrees(Admit(s), q, sys.sessions[q]) {
      GrantView(s, q);
      assert Pending(s)[0] == t;
      assert Agrees(s, q, sys.sessions[q]);
    }
  }

  lemma AdmitMeta(s: State)
    requires s.taken.Some? && s.permits > 0 && s.taken.value.pid in s.programs
    ensures Admit(s).programs.Keys == s.programs.Keys && Admit(s).halted == s.halted
  {
  }

  lemma YieldOk(sys: System, pid: int, burst: int, order: seq<Thread>)
    requires SystemOk(sys) && MayAct(sys, YieldTo(pid, burst, order))
    ensures Served(sys, YieldTo(pid, burst, order)) && SystemOk(Act(sys, YieldTo(pid, burst, order)))
  {
    hide Partition, H.ClientOk, MainFirst, IsSorting, ScheduleNext, H.Yield, H.SlotOf;
    var s, c := sys.h.now, sys.sessions[pid].client;
    SortingKeepsEmptiness(order, s.ready[pid]);
    assert CanSchedule(s, pid, order);
    var e := Schedule(pid, burst, order);
    StepPartition(sys.h, e);
    ScheduleView(s, pid, burst, order);
    ScheduleMeta(s, pid, burst, order);
    var (s', tid) := ScheduleNext(s, pid, burst, order);
    RunningIsKnown(Next(sys.h, e), pid);
    assert H.ClientOk(c);
    H.YieldOk(c, tid);
    H.ClientIndex(c);
    OthersAgree(s, s', pid, sys.sessions);
    IdsStay(sys.h.log.created, sys.sessions, pid, Session(H.Yield(c, tid), Resting));
  }

  lemma ScheduleMeta(s: State, pid: int, burst: int, order: seq<Thread>)
    requires CanSchedule(s, pid, order)
    ensures ScheduleNext(s, pid, burst, order).0.halted == s.halted
  {
    hide IsSorting;
  }

  lemma RunningIsKnown(h: History, pid: int)
    requires Partition(h) && Exec(h.now, pid).Some?
    ensures Key(pid, Exec(h.now, pid).value.tid) in h.log.created && pid in h.now.ready
  {
    hide Threads, Distinct, Known;
    InKind(h.now, IsRunning(pid));
    var t := Exec(h.now, pid).value;
    assert t in Holds(h.now, IsRunning(pid));
    OnePlace(h, t.Id(), IsRunning(pid), t);
  }

  /** A request that at most stops the running thread keeps agreement, once the program has asked. */
  lemma RequestAgrees(s: State, s': State, pid: int, sessions: map<int, Session>, phase: Phase)
    requires pid in sessions && pid in s.ready && OthersSame(s, s', pid)
    requires forall q :: q in sessions ==> Agrees(s, q, sessions[q])
    requires Exec(s', pid).Some? ==> phase.Asked? && Exec(s', pid) == Exec(s, pid)
    requires !phase.Resting?
    ensures forall q :: q in sessions ==> Agrees(s', q, sessions[pid := sessions[pid].(phase := phase)][q])
  {
    hide H.ClientOk, MainFirst;
    OthersAgree(s, s', pid, sessions);
    assert Agrees(s, pid, sessions[pid]);
  }

  /** The running thread of a program at rest is the client's current one. */
  lemma CurrentRuns(sys: System, pid: int)
    requires SystemOk(sys) && pid in sys.sessions && sys.sessions[pid].phase.Resting? && pid in sys.h.now.ready
    ensures pid in sys.h.now.programs && sys.h.now.programs[pid].exec.Some?
    ensures sys.h.now.programs[pid].exec.value.tid == CurrentId(sys.sessions[pid].client)
  {
    hide Partition, IdsGiven, MainFirst, H.ClientOk;
    assert Agrees(sys.h.now, pid, sys.sessions[pid]);
    CurrentIsId(sys.sessions[pid].client);
  }

  lemma AskServed(sys: System, pid: int, request: Request)
    requires SystemOk(sys) && MayAct(sys, Ask(pid, request))
    ensures var e := RequestOf(sys, Ask(pid, request));
      && Enabled(sys.h, e) && !e.Leave? && !e.Create?
      && OthersSame(sys.h.now, Apply(sys.h, e), pid) && !Apply(sys.h, e).halted
      && (Exec(Apply(sys.h, e), pid).Some? ==> Exec(Apply(sys.h, e), pid) == Exec(sys.h.now, pid))
  {
    hide IdsGiven, Agrees, Known, Threads, Distinct, Wait, Signal, Join, Close, Shape, CanRelease;
    var s, tid := sys.h.now, CurrentId(sys.sessions[pid].client);
    CurrentRuns(sys, pid);
    match request {
      case JoinThread(target) => JoinView(s, pid, target);
      case WaitSem(sem) => WaitServed(s, pid, sem); WaitView(s, pid, tid, sem);
      case SignalSem(sem) => CanSignalAny(s, pid, sem); SignalView(s, pid, sem);
      case CloseSelf => CanReleaseAfterExit(s, pid); CloseView(s, pid, tid);
    }
  }

  lemma WaitServed(s: State, pid: int, sem: string)
    requires Shape(s) && pid in s.programs && s.programs[pid].exec.Some?
    ensures CanWait(s, pid, sem)
  {
  }

  lemma AskOk(sys: System, pid: int, request: Request)
    requires SystemOk(sys) && MayAct(sys, Ask(pid, request))
    ensures Served(sys, Ask(pid, request)) && SystemOk(Act(sys, Ask(pid, request)))
  {
    hide Partition, Agrees, Enabled, Apply;
    var e := RequestOf(sys, Ask(pid, request));
    AskServed(sys, pid, request);
    StepPartition(sys.h, e);
    RequestAgrees(sys.h.now, Apply(sys.h, e), pid, sys.sessions, Asked);
    IdsStay(sys.h.log.created, sys.sessions, pid, sys.sessions[pid].(phase := Asked));
  }

  lemma CanSignalAny(s: State, pid: int, sem: string)
    requires Shape(s) && pid in s.programs
    ensures CanSignal(s, pid, sem)
  {
    if sem in s.waiting && s.waiting[sem] != [] {
      assert s.waiting[sem][0] in s.waiting[sem];
    }
  }

  lemma ReturnOk(sys: System, pid: int)
    requires SystemOk(sys) && MayAct(sys, Return(pid))
    ensures Served(sys, Return(pid)) && SystemOk(Act(sys, Return(pid)))
  {
    hide Partition, Agrees, Apply;
    var e := CloseOf(pid, CurrentId(sys.sessions[pid].client));
    AskServed(sys, pid, CloseSelf);
    ReturnStops(sys, pid);
    StepPartition(sys.h, e);
    RequestAgrees(sys.h.now, Apply(sys.h, e), pid, sys.sessions, Returned);
    IdsStay(sys.h.log.created, sys.sessions, pid, sys.sessions[pid].(phase := Returned));
  }

  lemma ReturnStops(sys: System, pid: int)
    requires SystemOk(sys) && MayAct(sys, Return(pid))
    ensures var e := CloseOf(pid, CurrentId(sys.sessions[pid].client));
      Enabled(sys.h, e) && Exec(Apply(sys.h, e), pid) == None
  {
    hide IdsGiven, Agrees, Known, Threads, Distinct, Close, Shape;
    CurrentRuns(sys, pid);
    CanReleaseAfterExit(sys.h.now, pid);
    CloseView(sys.h.now, pid, CurrentId(sys.sessions[pid].client));
  }

  /** Whatever a program or the server may do next is served without SUSE exiting or a null pointer
      being followed on either side, and both sides still agree afterwards. */
  lemma ActionOk(sys: System, a: Action)
    requires SystemOk(sys) && MayAct(sys, a)
    ensures Served(sys, a) && SystemOk(Act(sys, a))
  {
    hide SystemOk, MayAct, Served, Act;
    match a
    case Begin(pid) => BeginOk(sys, pid);
    case SpawnThread(pid) => SpawnOk(sys, pid);
    case ServerTake => TakeOk(sys);
    case ServerGrant => GrantOk(sys);
    case Ask(pid, request) => AskOk(sys, pid, request);
    case YieldTo(pid, burst, order) => YieldOk(sys, pid, burst, order);
    case Return(pid) => ReturnOk(sys, pid);
  }

  lemma {:induction false} RunsOk(sys: System, actions: seq<Action>, last: System)
    requires SystemOk(sys) && Runs(sys, actions, last)
    ensures SystemOk(last)
    decreases |actions|
  {
    hide SystemOk, MayAct, Served, Act;
    if actions != [] {
      ActionOk(sys, actions[0]);
      RunsOk(Act(sys, actions[0]), actions[1..], last);
    }
  }

  ghost function Boot(semaphores: map<string, Semaphore>, maxMultiprog: int, alpha: real): System {
    System(Start(semaphores, maxMultiprog, alpha), map[])
  }

  /** Client/server agreement: in every reachable state, a program at rest whose main thread was
      admitted runs exactly the thread SUSE has running for it; its table has one RUNNING entry and
      distinct ids; and SUSE has not exited. */
  lemma Agreement(semaphores: map<string, Semaphore>, maxMultiprog: int, alpha: real, actions: seq<Action>,
      last: System, pid: int)
    requires maxMultiprog >= 0 && Runs(Boot(semaphores, maxMultiprog, alpha), actions, last)
    ensures !last.h.now.halted
    ensures pid in last.sessions && pid in last.h.now.ready && last.sessions[pid].phase.Resting? ==>
      var c := last.sessions[pid].client;
      && Exec(last.h.now, pid).Some? && Exec(last.h.now, pid).value.tid == CurrentId(c)
      && (forall i :: 0 <= i < |c.ults| ==> (c.ults[i].state == H.RUNNING <==> i == c.current))
      && (forall i, j :: 0 <= i < j < |c.ults| && c.ults[i].state != H.FREE && c.ults[j].state != H.FREE ==>
        c.ults[i].id != c.ults[j].id)
  {
    hide Runs, Partition, H.ClientOk;
    StartPartition(semaphores, maxMultiprog, alpha);
    RunsOk(Boot(semaphores, maxMultiprog, alpha), actions, last);
    if pid in last.sessions {
      assert Agrees(last.h.now, pid, last.sessions[pid]);
      CurrentIsId(last.sessions[pid].client);
      H.OneRuns(last.sessions[pid].client);
    }
  }
}
