/** Every state SUSE reaches from its start, over any requests of any programs. */
module SuseReachable {
  import opened Basics
  import opened Suse
  import opened SuseThreads
  import opened SuseRuns
  import opened SuseCounters
  import opened SuseSafety
  import opened SuseEstimates

  ghost predicate Reached(semaphores: map<string, Semaphore>, maxMultiprog: int, alpha: real, es: seq<Event>,
      last: History)
  {
    maxMultiprog >= 0 && Connected(es) && Run(Start(semaphores, maxMultiprog, alpha), es, last)
  }

  /** In every state reached without disconnects: each thread is in one place; the counters are right,
      each program's blocked counter up to its drift; no join is lost; threads wake in the order they
      blocked; each estimate is the exponential average of the thread's own bursts; and active threads
      stay within MAX_MULTIPROG. */
  lemma ReachableStates(semaphores: map<string, Semaphore>, maxMultiprog: int, alpha: real, es: seq<Event>,
      last: History)
    requires Reached(semaphores, maxMultiprog, alpha, es, last)
    ensures Partition(last) && Counted(last) && NoLostJoin(last.now) && Fifo(last) && Estimated(last)
    ensures |Active(last.now)| <= maxMultiprog && last.now.alpha == alpha
  {
    hide Run, Partition, Counted, NoLostJoin, Fifo, Estimated, Active;
    var h := Start(semaphores, maxMultiprog, alpha);
    StartPartition(semaphores, maxMultiprog, alpha);
    StartCounted(semaphores, maxMultiprog, alpha);
    StartRest(semaphores, maxMultiprog, alpha);
    RunPartition(h, es, last);
    RunCounted(h, es, last);
    RunNoLostJoin(h, es, last);
    RunFifo(h, es, last);
    RunEstimated(h, es, last);
    AdmissionBound(semaphores, maxMultiprog, alpha, es, last);
  }

  /** The same about one thread t, in terms of what the server was configured with and of the bursts t ran:
      nobody is joined on it once it has finished, and its estimate is the weighted sum of its bursts with
      the configured alpha. */
  lemma ReachableThread(semaphores: map<string, Semaphore>, maxMultiprog: int, alpha: real, es: seq<Event>,
      last: History, t: Thread)
    requires Reached(semaphores, maxMultiprog, alpha, es, last) && t in Threads(last.now)
    ensures t.Id() in last.log.bursts
    ensures var bursts := last.log.bursts[t.Id()];
      t.estimate == Weighted(alpha, bursts, |bursts|) && t.burst == Latest(bursts)
    ensures t in Entry(last.now.exited, t.pid, []) && t.pid in last.now.programs ==>
      Entry(last.now.programs[t.pid].blocked, t.tid, []) == []
  {
    hide Run, Threads, Partition, Counted, Fifo, Active;
    ReachableStates(semaphores, maxMultiprog, alpha, es, last);
    EstimateIsWeightedSum(alpha, last.log.bursts[t.Id()]);
    if t in Entry(last.now.exited, t.pid, []) && t.pid in last.now.programs {
      assert Ended(Entry(last.now.exited, t.pid, []), t.tid);
      assert Joiners(last.now.programs[t.pid], t.tid) == [];
    }
  }

  lemma StartRest(semaphores: map<string, Semaphore>, maxMultiprog: int, alpha: real)
    requires maxMultiprog >= 0
    ensures var h := Start(semaphores, maxMultiprog, alpha);
      && NoLostJoin(h.now) && Fifo(h) && Estimated(h) && h.now.waiting.Keys == h.now.semaphores.Keys
  {
    StartPartition(semaphores, maxMultiprog, alpha);
  }

  /** With semaphores configured 0 <= init <= max and max >= 1: over every run, disconnects included,
      0 <= value <= max, threads wait only at value 0, and the level of a semaphore is what its waits
      and signals make of its initial value. */
  lemma ReachableSemaphores(semaphores: map<string, Semaphore>, maxMultiprog: int, alpha: real, es: seq<Event>,
      last: History, sem: string)
    requires WellConfigured(semaphores) && sem in semaphores
    requires Run(Start(semaphores, maxMultiprog, alpha), es, last) && !last.now.halted
    ensures sem in last.now.semaphores && sem in last.now.waiting
    ensures var s := last.now.semaphores[sem];
      0 <= s.value <= s.max == semaphores[sem].max && (s.value == 0 || last.now.waiting[sem] == [])
    ensures Level(last.now, sem) == LevelAfter(semaphores[sem].value, semaphores[sem].max, es, sem)
  {
    hide Run;
    RunSemaphores(Start(semaphores, maxMultiprog, alpha), es, last, sem);
  }

  /** Over every run, disconnects included: free permits and admitted threads not yet closed. */
  lemma ReachablePermits(semaphores: map<string, Semaphore>, maxMultiprog: int, alpha: real, es: seq<Event>,
      last: History)
    requires Run(Start(semaphores, maxMultiprog, alpha), es, last)
    ensures last.now.permits + last.log.admitted - last.log.closed == maxMultiprog + last.log.left
  {
    hide Run;
    RunAccounted(Start(semaphores, maxMultiprog, alpha), es, last, maxMultiprog);
  }

  /** list_sort has an answer, so schedule_next is enabled whenever there is a thread to run. */
  lemma {:induction false} SortingExists(list: seq<Thread>) returns (order: seq<Thread>)
    ensures IsSorting(order, list)
  {
    if list == [] {
      order := [];
    } else {
      var rest := SortingExists(list[1..]);
      order := Inserted(list[0], rest);
      assert list == [list[0]] + list[1..];
    }
  }

  lemma SameAfterFirst(t: Thread, list: seq<Thread>, rest: seq<Thread>)
    requires list != [] && multiset(rest) == multiset([t] + list[1..])
    ensures multiset([list[0]] + rest) == multiset([t] + list)
  {
    assert list == [list[0]] + list[1..];
    assert multiset([t] + list[1..]) == multiset{t} + multiset(list[1..]);
    assert multiset(list) == multiset{list[0]} + multiset(list[1..]);
  }

  lemma {:induction false} Inserted(t: Thread, list: seq<Thread>) returns (order: seq<Thread>)
    requires IsSorting(list, list)
    ensures IsSorting(order, [t] + list)
  {
    if list == [] || t.estimate <= list[0].estimate {
      order := [t] + list;
    } else {
      var rest := Inserted(t, list[1..]);
      order := [list[0]] + rest;
      SameAfterFirst(t, list, rest);
      forall u | u in rest ensures list[0].estimate <= u.estimate {
        assert u in multiset(rest);
        assert u in [t] + list[1..];
      }
    }
  }
}
