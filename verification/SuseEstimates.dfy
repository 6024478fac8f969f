/** Shortest-estimate scheduling, and what the estimates are. */
module SuseEstimates {
  import opened Basics
  import opened MapSums
  import opened Suse
  import opened SuseThreads
  import opened SuseRuns

  /** The threads schedule_next chooses among: the ready ones and the running one. */
  ghost function Candidates(s: State, pid: int): multiset<Thread>
    requires pid in s.programs && pid in s.ready
  {
    multiset(s.ready[pid]) + Running(s.programs[pid])
  }

  /** After the running thread was aged, schedule_next only decides who of the same threads runs: one
      with the least estimate, and the running one when it ties. */
  lemma ShortestRuns(s: State, pid: int, burst: int, order: seq<Thread>)
    requires CanSchedule(s, pid, order)
    ensures var aged, (s', tid) := Reestimate(s, pid, burst), ScheduleNext(s, pid, burst, order);
      && pid in s'.programs && pid in s'.ready && pid in aged.programs
      && Candidates(s', pid) == Candidates(aged, pid)
      && s'.programs[pid].exec.Some? && s'.programs[pid].exec.value.tid == tid
      && (forall t :: t in Candidates(s', pid) ==> s'.programs[pid].exec.value.estimate <= t.estimate)
      && (aged.programs[pid].exec.Some? ==>
            aged.programs[pid].exec.value.estimate == s'.programs[pid].exec.value.estimate ==>
            s'.programs[pid].exec == aged.programs[pid].exec)
  {
    hide PickNext;
    SortingKeepsEmptiness(order, s.ready[pid]);
    LeastRuns(Reestimate(s, pid, burst).(ready := s.ready[pid := order]), pid);
  }

  lemma LeastRuns(s: State, pid: int)
    requires pid in s.programs && pid in s.ready && (s.programs[pid].exec.Some? || s.ready[pid] != [])
    requires IsSorting(s.ready[pid], s.ready[pid])
    ensures var (s', tid) := PickNext(s, pid);
      && pid in s'.programs && pid in s'.ready && Candidates(s', pid) == Candidates(s, pid)
      && s'.programs[pid].exec.Some? && s'.programs[pid].exec.value.tid == tid
      && (forall t :: t in Candidates(s', pid) ==> s'.programs[pid].exec.value.estimate <= t.estimate)
      && (s.programs[pid].exec.Some? && s.programs[pid].exec.value.estimate == s'.programs[pid].exec.value.estimate ==>
            s'.programs[pid].exec == s.programs[pid].exec)
  {
    PickKeepsCandidates(s, pid);
    LeastOfSorted(s.ready[pid]);
    var s' := PickNext(s, pid).0;
    hide IsSorting;
    forall t | t in Candidates(s', pid) ensures s'.programs[pid].exec.value.estimate <= t.estimate {
      assert t in Candidates(s, pid);
      assert t in s.ready[pid] || s.programs[pid].exec == Some(t);
    }
  }

  lemma LeastOfSorted(list: seq<Thread>)
    requires IsSorting(list, list)
    ensures forall t :: t in list ==> list[0].estimate <= t.estimate
  {
  }

  lemma PickKeepsCandidates(s: State, pid: int)
    requires pid in s.programs && pid in s.ready && (s.programs[pid].exec.Some? || s.ready[pid] != [])
    ensures Candidates(PickNext(s, pid).0, pid) == Candidates(s, pid)
  {
    var p, list := s.programs[pid], s.ready[pid];
    if list != [] {
      HeadTail(list);
      if p.exec.Some? {
        assert multiset(list[1..] + [p.exec.value]) == multiset(list[1..]) + multiset{p.exec.value};
      }
    }
  }

  function Pow(x: real, n: nat): real {
    if n == 0 then 1.0 else x * Pow(x, n - 1)
  }

  /** The estimate of a thread after a sequence of bursts, as the server computes it. */
  function Estimate(alpha: real, bursts: seq<int>): real {
    if bursts == [] then 0.0
    else NextEstimate(alpha, Estimate(alpha, bursts[..|bursts| - 1]), bursts[|bursts| - 1])
  }

  /** What a burst still contributes after `age` more bursts. */
  function Share(alpha: real, burst: int, age: nat): real {
    alpha * Pow(1.0 - alpha, age) * (burst as real)
  }

  /** The sum of what the first k of n bursts contribute, burst i at age n - 1 - i. */
  function Weighted(alpha: real, bursts: seq<int>, k: nat): real
    requires k <= |bursts|
  {
    if k == 0 then 0.0 else Weighted(alpha, bursts, k - 1) + Share(alpha, bursts[k - 1], |bursts| - k)
  }

  lemma ShareNew(alpha: real, burst: int)
    ensures Share(alpha, burst, 0) == alpha * (burst as real)
  {
  }

  lemma ShareAges(alpha: real, burst: int, age: nat)
    ensures Share(alpha, burst, age + 1) == (1.0 - alpha) * Share(alpha, burst, age)
  {
  }

  lemma {:induction false} WeightedAges(alpha: real, bursts: seq<int>, b: int, k: nat)
    requires k <= |bursts|
    ensures Weighted(alpha, bursts + [b], k) == (1.0 - alpha) * Weighted(alpha, bursts, k)
  {
    hide Share;
    if k > 0 {
      var age: nat := |bursts| - k;
      var w, x := Weighted(alpha, bursts, k - 1), Share(alpha, bursts[k - 1], age);
      calc {
        Weighted(alpha, bursts + [b], k);
        Weighted(alpha, bursts + [b], k - 1) + Share(alpha, bursts[k - 1], age + 1);
        { WeightedAges(alpha, bursts, b, k - 1); ShareAges(alpha, bursts[k - 1], age); }
        (1.0 - alpha) * w + (1.0 - alpha) * x;
        (1.0 - alpha) * (w + x);
        (1.0 - alpha) * Weighted(alpha, bursts, k);
      }
    }
  }

  /** Exponential averaging: the estimate is the weighted sum of all bursts. */
  lemma {:induction false} EstimateIsWeightedSum(alpha: real, bursts: seq<int>)
    ensures Estimate(alpha, bursts) == Weighted(alpha, bursts, |bursts|)
  {
    hide Share;
    if bursts != [] {
      var n := |bursts| - 1;
      EstimateIsWeightedSum(alpha, bursts[..n]);
      assert bursts == bursts[..n] + [bursts[n]];
      WeightedAges(alpha, bursts[..n], bursts[n], n);
      ShareNew(alpha, bursts[n]);
    }
  }

  /** The estimate lies between 0 and the largest burst. */
  lemma {:induction false} EstimateBounds(alpha: real, bursts: seq<int>, top: int)
    requires 0.0 <= alpha <= 1.0 && top >= 0
    requires forall b :: b in bursts ==> 0 <= b <= top
    ensures 0.0 <= Estimate(alpha, bursts) <= top as real
  {
    if bursts != [] {
      var n := |bursts| - 1;
      assert forall b :: b in bursts[..n] ==> b in bursts;
      EstimateBounds(alpha, bursts[..n], top);
      assert bursts[n] in bursts;
      Between(alpha, Estimate(alpha, bursts[..n]), bursts[n] as real, top as real);
    }
  }

  lemma Between(alpha: real, e: real, r: real, top: real)
    requires 0.0 <= alpha <= 1.0 && 0.0 <= e <= top && 0.0 <= r <= top
    ensures 0.0 <= (1.0 - alpha) * e + alpha * r <= top
  {
    assert 0.0 <= (1.0 - alpha) * e <= (1.0 - alpha) * top;
    assert 0.0 <= alpha * r <= alpha * top;
    assert (1.0 - alpha) * top + alpha * top == top;
  }

  /** The last burst, 0 before the first. */
  function Latest(bursts: seq<int>): int {
    if bursts == [] then 0 else bursts[|bursts| - 1]
  }

  /** Every thread, wherever it is, carries the estimate of exactly the bursts it ran. */
  ghost predicate Estimated(h: History) {
    Averaged(Threads(h.now), h.now.alpha, h.log.bursts)
  }

  ghost predicate Averaged(ts: multiset<Thread>, alpha: real, bursts: map<Key, seq<int>>) {
    forall t :: t in ts ==>
      && t.Id() in bursts
      && t.estimate == Estimate(alpha, bursts[t.Id()]) && t.burst == Latest(bursts[t.Id()])
  }

  lemma AlphaStays(h: History, e: Event)
    requires Enabled(h, e)
    ensures Apply(h, e).alpha == h.now.alpha
  {
    hide IsSorting, Finished, BlockedByAny, Release;
    if e.CloseOf? && h.now.programs[e.pid].exec.value.tid == e.tid {
      ReleaseAlpha(Exit(h.now, e.pid), e.pid, e.tid);
    }
  }

  lemma {:induction false} ReleaseAlpha(s: State, pid: int, tid: int)
    requires CanRelease(s, pid, tid)
    ensures Release(s, pid, tid).alpha == s.alpha
    decreases |Joiners(s.programs[pid], tid)|
  {
    hide BlockedByAny;
    if Joiners(s.programs[pid], tid) != [] {
      ReleaseAlpha(ReleaseOne(s, pid, tid), pid, tid);
    }
  }

  lemma StepEstimated(h: History, e: Event)
    requires Partition(h) && Estimated(h) && Enabled(h, e) && !e.Leave?
    ensures Estimated(Next(h, e))
  {
    hide Sum, Threads, Shape, Apply, Distinct, Known, Averaged, IsSorting, CanWait, CanSignal, CanClose, Reestimated;
    StepThreads(h, e);
    AlphaStays(h, e);
    var ts, alpha, bursts := Threads(h.now), h.now.alpha, h.log.bursts;
    if e.Create? {
      FirstAverage(ts, h.log.created, alpha, bursts, Thread(e.pid, e.tid, 0.0, 0));
    } else if e.Schedule? && h.now.programs[e.pid].exec.Some? {
      NextAverage(ts, alpha, bursts, h.now.programs[e.pid].exec.value, e.burst);
    }
  }

  lemma FirstAverage(ts: multiset<Thread>, created: set<Key>, alpha: real, bursts: map<Key, seq<int>>, t: Thread)
    requires Known(ts, created) && Averaged(ts, alpha, bursts) && t.Id() !in created && t.estimate == 0.0
      && t.burst == 0
    ensures Averaged(ts + multiset{t}, alpha, bursts[t.Id() := []])
  {
    forall u | u in ts + multiset{t}
      ensures u.Id() in bursts[t.Id() := []] && u.estimate == Estimate(alpha, bursts[t.Id() := []][u.Id()])
      ensures u.burst == Latest(bursts[t.Id() := []][u.Id()])
    {
      assert u in ts || u == t;
    }
  }

  lemma NextAverage(ts: multiset<Thread>, alpha: real, bursts: map<Key, seq<int>>, t: Thread, b: int)
    requires Distinct(ts) && Averaged(ts, alpha, bursts) && t in ts
    ensures t.Id() in bursts
    ensures Averaged(ts - multiset{t} + multiset{Reestimated(alpha, t, b)}, alpha,
      bursts[t.Id() := bursts[t.Id()] + [b]])
  {
    hide Estimate, NextEstimate;
    EstimateNext(alpha, bursts[t.Id()], b);
    var t' := Reestimated(alpha, t, b);
    var bursts' := bursts[t.Id() := bursts[t.Id()] + [b]];
    forall u | u in ts - multiset{t} + multiset{t'}
      ensures u.Id() in bursts' && u.estimate == Estimate(alpha, bursts'[u.Id()]) && u.burst == Latest(bursts'[u.Id()])
    {
      if u != t' {
        assert u in ts && (u == t ==> ts[t] > 1);
      }
    }
  }

  lemma EstimateNext(alpha: real, bursts: seq<int>, b: int)
    ensures Estimate(alpha, bursts + [b]) == NextEstimate(alpha, Estimate(alpha, bursts), b)
  {
    assert (bursts + [b])[..|bursts|] == bursts;
  }

  lemma {:induction false} RunEstimated(h: History, es: seq<Event>, last: History)
    requires Partition(h) && Estimated(h) && Connected(es) && Run(h, es, last)
    ensures Estimated(last) && last.now.alpha == h.now.alpha
    decreases |es|
  {
    hide Partition, Enabled, Apply, Logged, Estimated;
    if es != [] {
      assert es[0] in es;
      StepPartition(h, es[0]);
      StepEstimated(h, es[0]);
      AlphaStays(h, es[0]);
      RunEstimated(Next(h, es[0]), es[1..], last);
    }
  }
}
