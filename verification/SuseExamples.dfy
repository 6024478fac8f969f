/** Two runs from the server's start in which a join and the blocked counters go wrong. The requests are
    those of programs linked with Hilolay: each creates its main thread 0 when it connects. */
module SuseExamples {
  import opened Basics
  import opened Suse
  import opened SuseRuns

  lemma {:induction false} RunThen(h: History, es: seq<Event>, mid: History, more: seq<Event>, last: History)
    requires Run(h, es, mid) && Run(mid, more, last)
    ensures Run(h, es + more, last)
    decreases |es|
  {
    hide Enabled, Next;
    if es == [] {
      assert es + more == more;
    } else {
      RunThen(Next(h, es[0]), es[1..], mid, more, last);
      assert (es + more)[0] == es[0] && (es + more)[1..] == es[1..] + more;
    }
  }

  lemma OneMore(h: History, es: seq<Event>, mid: History, e: Event)
    requires Run(h, es, mid) && Enabled(mid, e)
    ensures Run(h, es + [e], Next(mid, e))
  {
    hide Enabled, Next;
    assert [e][1..] == [];
    RunThen(h, es, mid, [e], Next(mid, e));
  }

  /** No thread is on its way to admission, and a permit is free. */
  ghost predicate MayStart(h: History) {
    !h.now.halted && h.now.arrivals == [] && h.now.taken.None? && h.now.permits > 0
  }

  function Admitting(pid: int, tid: int): seq<Event> {
    [Create(pid, tid), Take, Grant]
  }

  function Starting(pid: int): seq<Event> {
    [Connect(pid), Create(pid, 0), Take, Grant]
  }

  /** A thread is created and admitted. */
  lemma Admission(h: History, pid: int, tid: int) returns (last: History)
    requires MayStart(h) && pid in h.now.programs && Key(pid, tid) !in h.log.created
    ensures Run(h, Admitting(pid, tid), last)
    ensures last.now == MoveToReady(h.now.(permits := h.now.permits - 1), Thread(pid, tid, 0.0, 0))
    ensures pid in h.now.ready ==> last.now == h.now.(
      permits := h.now.permits - 1, ready := h.now.ready[pid := h.now.ready[pid] + [Thread(pid, tid, 0.0, 0)]],
      programs := h.now.programs[pid := h.now.programs[pid].(inReady := h.now.programs[pid].inReady + 1)])
    ensures last.log.created == h.log.created + {Key(pid, tid)}
  {
    var t := Thread(pid, tid, 0.0, 0);
    var h1 := Next(h, Create(pid, tid));
    assert h1.now.arrivals == [t];
    var h2 := Next(h1, Take);
    assert h2.now.arrivals == [] && h2.now.taken == Some(t);
    last := Next(h2, Grant);
    var p := h.now.programs[pid];
    assert h2.now.programs[pid := h2.now.programs[pid].(inNew := p.inNew)] == h.now.programs;
    hide Enabled, Next;
    OneMore(h, [], h, Create(pid, tid));
    OneMore(h, [Create(pid, tid)], h1, Take);
    OneMore(h, [Create(pid, tid), Take], h2, Grant);
    assert [] + [Create(pid, tid)] + [Take] + [Grant] == [Create(pid, tid), Take, Grant];
  }

  /** A program connects, and its main thread is created, admitted and runs. */
  lemma Starts(h: History, pid: int) returns (last: History)
    requires MayStart(h) && pid !in h.now.programs && pid !in h.now.ready && Key(pid, 0) !in h.log.created
    ensures Run(h, Starting(pid), last)
    ensures last.now == h.now.(
      permits := h.now.permits - 1, ready := h.now.ready[pid := []],
      programs := h.now.programs[pid := Program(Some(Thread(pid, 0, 0.0, 0)), map[], 0, 0, 0)])
    ensures last.log.created == h.log.created + {Key(pid, 0)}
  {
    var h1 := Next(h, Connect(pid));
    OneMore(h, [], h, Connect(pid));
    last := Admission(h1, pid, 0);
    RunThen(h, [Connect(pid)], h1, Admitting(pid, 0), last);
    assert [] + [Connect(pid)] + [Create(pid, 0), Take, Grant] == [Connect(pid), Create(pid, 0), Take, Grant];
  }

  // ---- a join that does not wait ----

  const MAIN := Thread(5, 0, 0.0, 0)
  const CHILD := Thread(5, 1, 0.0, 0)

  /** The main thread of program 5 joins its thread 1, which then runs and ends. */
  const JOIN_AND_CLOSE := [JoinOn(5, 1), Schedule(5, 0, [CHILD]), CloseOf(5, 1)]

  lemma MainJoins(s: State)
    requires s.programs == map[5 := Program(Some(MAIN), map[], 0, 1, 0)] && s.exited == map[]
    ensures Join(s, 5, 1) == s.(programs := map[5 := Program(None, map[1 := [MAIN]], 0, 1, 1)])
  {
    var p := s.programs[5];
    assert !BlockedByAny(p, 0) && !Finished(s.exited, 1);
    assert Joiners(p, 1) + [MAIN] == [MAIN];
    assert Join(s, 5, 1).programs[5] == Program(None, map[1 := [MAIN]], 0, 1, 1);
  }

  lemma ChildRuns(s: State)
    requires s.programs == map[5 := Program(None, map[1 := [MAIN]], 0, 1, 1)] && s.ready == map[5 := [CHILD]]
    ensures CanSchedule(s, 5, [CHILD])
    ensures ScheduleNext(s, 5, 0, [CHILD]).0
      == s.(programs := map[5 := Program(Some(CHILD), map[1 := [MAIN]], 0, 0, 1)], ready := map[5 := []])
  {
    assert [CHILD][1..] == [];
  }

  lemma ChildEnds(s: State)
    requires s.programs == map[5 := Program(Some(CHILD), map[1 := [MAIN]], 0, 0, 1)]
    requires s.ready == map[5 := []] && s.exited == map[]
    ensures CanClose(s, 5, 1)
    ensures Close(s, 5, 1) == s.(
      permits := s.permits + 1, ready := map[5 := [MAIN]], exited := map[5 := [CHILD]],
      programs := map[5 := Program(None, map[1 := []], 0, 1, 0)])
  {
    assert [] + [CHILD] == [CHILD];
    var s1 := Exit(s, 5);
    assert s1 == s.(
      permits := s.permits + 1, exited := map[5 := [CHILD]],
      programs := map[5 := Program(None, map[1 := [MAIN]], 0, 0, 1)]);
    MainReleased(s1);
  }

  lemma MainReleased(s: State)
    requires s.programs == map[5 := Program(None, map[1 := [MAIN]], 0, 0, 1)] && s.ready == map[5 := []]
    ensures CanRelease(s, 5, 1)
    ensures Release(s, 5, 1)
      == s.(ready := map[5 := [MAIN]], programs := map[5 := Program(None, map[1 := []], 0, 1, 0)])
  {
    assert [MAIN][1..] == [] && [] + [MAIN] == [MAIN];
    var q := Program(None, map[1 := []], 0, 0, 1);
    NobodyBlocked(q, 0);
    assert s.programs[5].(blocked := s.programs[5].blocked[1 := []]) == q;
    var s1 := ReleaseOne(s, 5, 1);
    assert s1 == s.(ready := map[5 := [MAIN]], programs := map[5 := Program(None, map[1 := []], 0, 1, 0)]);
    assert Release(s1, 5, 1) == s1;
  }

  lemma NobodyBlocked(p: Program, tid: int)
    requires forall k :: k in p.blocked ==> p.blocked[k] == []
    ensures !BlockedByAny(p, tid)
  {
  }

  lemma JoinAndClose(h: History) returns (last: History)
    requires !h.now.halted && h.now.programs == map[5 := Program(Some(MAIN), map[], 0, 1, 0)]
    requires h.now.ready == map[5 := [CHILD]] && h.now.exited == map[]
    ensures Run(h, JOIN_AND_CLOSE, last) && last.log.created == h.log.created
    ensures last.now == h.now.(
      permits := h.now.permits + 1, ready := map[5 := [MAIN]], exited := map[5 := [CHILD]],
      programs := map[5 := Program(None, map[1 := []], 0, 1, 0)])
  {
    hide Join, ScheduleNext, Close, CanSchedule, CanClose;
    MainJoins(h.now);
    var h1 := Next(h, JoinOn(5, 1));
    ChildRuns(h1.now);
    var h2 := Next(h1, Schedule(5, 0, [CHILD]));
    ChildEnds(h2.now);
    last := Next(h2, CloseOf(5, 1));
    hide Enabled, Next;
    OneMore(h, [], h, JoinOn(5, 1));
    OneMore(h, [JoinOn(5, 1)], h1, Schedule(5, 0, [CHILD]));
    OneMore(h, [JoinOn(5, 1), Schedule(5, 0, [CHILD])], h2, CloseOf(5, 1));
    assert [] + [JoinOn(5, 1)] + [Schedule(5, 0, [CHILD])] + [CloseOf(5, 1)] == JOIN_AND_CLOSE;
  }

  /** The requests of programs 5 and 4 up to the point where the main thread of 4 would join its thread 1. */
  const BEFORE_JOIN := FIRST_PROGRAM + Starting(4) + Admitting(4, 1)

  const FIRST_PROGRAM := Starting(5) + Admitting(5, 1) + JOIN_AND_CLOSE

  /** A join is ignored although its target has not finished: program 5 has finished its own thread 1, so
      the main thread of program 4 goes on at once while its thread 1 is still ready. */
  lemma JoinIgnored(semaphores: map<string, Semaphore>, maxMultiprog: int, alpha: real) returns (last: History)
    requires maxMultiprog >= 3
    ensures Connected(BEFORE_JOIN) && Run(Start(semaphores, maxMultiprog, alpha), BEFORE_JOIN, last)
    ensures var s := last.now;
      && 4 in s.programs && s.programs[4].exec == Some(Thread(4, 0, 0.0, 0))
      && 4 in s.ready && s.ready[4] == [Thread(4, 1, 0.0, 0)] && 4 !in s.exited
      && Enabled(last, JoinOn(4, 1)) && Apply(last, JoinOn(4, 1)) == s
  {
    var h0 := Start(semaphores, maxMultiprog, alpha);
    var c := FirstProgram(semaphores, maxMultiprog, alpha);
    hide Run, Enabled, Next, MoveToReady;
    var d := Starts(c, 4);
    last := Admission(d, 4, 1);
    assert [] + [Thread(4, 1, 0.0, 0)] == [Thread(4, 1, 0.0, 0)];
    JoinOnFinished(last, 4, 5);
    hide Starting, Admitting;
    RunThen(h0, FIRST_PROGRAM, c, Starting(4), d);
    RunThen(h0, FIRST_PROGRAM + Starting(4), d, Admitting(4, 1), last);
    assert Connected(BEFORE_JOIN) by { AllConnected(); }
  }

  lemma FirstProgram(semaphores: map<string, Semaphore>, maxMultiprog: int, alpha: real) returns (last: History)
    requires maxMultiprog >= 3
    ensures Run(Start(semaphores, maxMultiprog, alpha), FIRST_PROGRAM, last)
    ensures last.log.created == {Key(5, 0), Key(5, 1)}
    ensures last.now == Start(semaphores, maxMultiprog, alpha).now.(
      permits := maxMultiprog - 1, ready := map[5 := [MAIN]], exited := map[5 := [CHILD]],
      programs := map[5 := Program(None, map[1 := []], 0, 1, 0)])
  {
    var h0 := Start(semaphores, maxMultiprog, alpha);
    hide Run, Enabled, Next, MoveToReady;
    var a := Starts(h0, 5);
    var b := Admission(a, 5, 1);
    assert [] + [CHILD] == [CHILD];
    last := JoinAndClose(b);
    hide Starting, Admitting;
    RunThen(h0, Starting(5), a, Admitting(5, 1), b);
    RunThen(h0, Starting(5) + Admitting(5, 1), b, JOIN_AND_CLOSE, last);
  }

  lemma AllConnected()
    ensures Connected(BEFORE_JOIN)
  {
    assert Connected(Starting(5)) && Connected(Admitting(5, 1)) && Connected(JOIN_AND_CLOSE);
    assert Connected(Starting(4)) && Connected(Admitting(4, 1));
    ConnectedBoth(Starting(5), Admitting(5, 1));
    ConnectedBoth(Starting(5) + Admitting(5, 1), JOIN_AND_CLOSE);
    ConnectedBoth(FIRST_PROGRAM, Starting(4));
    ConnectedBoth(FIRST_PROGRAM + Starting(4), Admitting(4, 1));
  }

  lemma ConnectedBoth(es: seq<Event>, more: seq<Event>)
    requires Connected(es) && Connected(more)
    ensures Connected(es + more)
  {
  }

  lemma JoinOnFinished(h: History, pid: int, other: int)
    requires !h.now.halted && other in h.now.exited && h.now.exited[other] == [CHILD]
    ensures Enabled(h, JoinOn(pid, 1)) && Apply(h, JoinOn(pid, 1)) == h.now
  {
    assert h.now.exited[other][0].tid == 1 && HasTid(h.now.exited[other], 1);
  }

  // ---- a signal that wakes a thread of another program ----

  const WAIT_AND_SIGNAL := Starting(5) + [WaitOn(5, 0, "s")] + Starting(7) + [SignalOn(7, "s")]

  /** Program 7 wakes the main thread of program 5: nobody is blocked any more, yet the blocked counter of
      5 still says one and that of 7 is below zero. */
  lemma ForeignSignal(maxMultiprog: int, alpha: real) returns (last: History)
    requires maxMultiprog >= 2
    ensures Run(Start(map["s" := Semaphore(0, 1)], maxMultiprog, alpha), WAIT_AND_SIGNAL, last)
    ensures last.now.waiting == map["s" := []]
    ensures last.now.programs == map[
      5 := Program(None, map[], 0, 1, 1), 7 := Program(Some(Thread(7, 0, 0.0, 0)), map[], 0, 0, -1)]
  {
    var h0 := Start(map["s" := Semaphore(0, 1)], maxMultiprog, alpha);
    hide Run;
    var a := Starts(h0, 5);
    MainWaits(a.now);
    hide Wait, Wake, Signal, CanWait, CanSignal;
    var b := Next(a, WaitOn(5, 0, "s"));
    var c := Starts(b, 7);
    MainWoken(c.now);
    last := Next(c, SignalOn(7, "s"));
    hide Starting, Enabled, Next;
    OneMore(h0, Starting(5), a, WaitOn(5, 0, "s"));
    RunThen(h0, Starting(5) + [WaitOn(5, 0, "s")], b, Starting(7), c);
    OneMore(h0, Starting(5) + [WaitOn(5, 0, "s")] + Starting(7), c, SignalOn(7, "s"));
  }

  lemma MainWaits(s: State)
    requires s.semaphores == map["s" := Semaphore(0, 1)] && s.waiting == map["s" := []]
    requires s.programs == map[5 := Program(Some(MAIN), map[], 0, 0, 0)]
    ensures CanWait(s, 5, "s")
    ensures Wait(s, 5, 0, "s") == s.(waiting := map["s" := [MAIN]], programs := map[5 := Program(None, map[], 0, 0, 1)])
  {
    assert [] + [MAIN] == [MAIN];
  }

  lemma MainWoken(s: State)
    requires s.semaphores == map["s" := Semaphore(0, 1)] && s.waiting == map["s" := [MAIN]]
    requires s.ready == map[5 := [], 7 := []]
    requires s.programs == map[
      5 := Program(None, map[], 0, 0, 1), 7 := Program(Some(Thread(7, 0, 0.0, 0)), map[], 0, 0, 0)]
    ensures CanSignal(s, 7, "s")
    ensures Signal(s, 7, "s") == s.(
      waiting := map["s" := []], ready := map[5 := [MAIN], 7 := []],
      programs := map[5 := Program(None, map[], 0, 1, 1), 7 := Program(Some(Thread(7, 0, 0.0, 0)), map[], 0, 0, -1)])
  {
    assert [MAIN][1..] == [] && [] + [MAIN] == [MAIN];
  }
}
