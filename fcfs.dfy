/** First-come-first-served: sort a copy by arrival, then run every process to completion. */
module Fcfs {
  import opened Types
  import opened Timeline
  import opened Sorting

  /** Runs `sorted` in its order, each process to completion, none before `time`. */
  function FcfsRuns(sorted: seq<Process>, time: int): (runs: seq<Run>)
    ensures |runs| == |sorted|
  {
    if sorted == [] then []
    else
      var start := Max(time, sorted[0].arrival);
      [Run(sorted[0], start, start + sorted[0].burst)] + FcfsRuns(sorted[1..], start + sorted[0].burst)
  }

  /** The schedule `scheduleFCFS` returns. */
  function FcfsSchedule(ps: seq<Process>): (s: seq<Interval>)
    ensures |s| == |ps|
  {
    Intervals(FcfsRuns(StableSort(ByArrival, ps), 0))
  }

  /** `scheduleFCFS`: a `forEach` over the sorted copy that threads the clock `time`. */
  method ScheduleFCFS(ps: seq<Process>) returns (schedule: seq<Interval>)
    ensures schedule == FcfsSchedule(ps)
  {
    var sorted := StableSort(ByArrival, ps);
    ghost var goal := FcfsSchedule(ps);
    schedule := [];
    var time := 0;
    var i := 0;
    while i < |sorted|
      invariant 0 <= i <= |sorted|
      invariant schedule + Intervals(FcfsRuns(sorted[i..], time)) == goal
    {
      var proc := sorted[i];
      var start := Max(time, proc.arrival);
      var end := start + proc.burst;
      FcfsAdvance(schedule, sorted, i, time, start, end, goal);
      schedule := schedule + [Interval(proc.id, start, end, proc.color)];
      time := end;
      i := i + 1;
    }
    assert sorted[i..] == [];
  }

  /** One iteration moves the i-th interval from the runs still to do onto the schedule. */
  lemma FcfsAdvance(schedule: seq<Interval>, sorted: seq<Process>, i: nat, time: int, start: int, end: int,
                    goal: seq<Interval>)
    requires i < |sorted| && start == Max(time, sorted[i].arrival) && end == start + sorted[i].burst
    requires schedule + Intervals(FcfsRuns(sorted[i..], time)) == goal
    ensures (schedule + [Interval(sorted[i].id, start, end, sorted[i].color)])
      + Intervals(FcfsRuns(sorted[i + 1..], end)) == goal
  {
    var run := Complete(sorted[i], start);
    assert sorted[i..][1..] == sorted[i + 1..];
    assert FcfsRuns(sorted[i..], time) == [run] + FcfsRuns(sorted[i + 1..], end);
    IntervalsStep(schedule, FcfsRuns(sorted[i..], time), run, FcfsRuns(sorted[i + 1..], end));
  }

  /** The i-th interval runs the i-th process of the sorted copy for its burst, starting at the
      later of the previous interval's end (the initial clock for the first) and its arrival. */
  lemma {:induction false} FcfsRunsAt(sorted: seq<Process>, time: int, i: nat)
    requires i < |sorted|
    ensures var runs := FcfsRuns(sorted, time);
      && runs[i].proc == sorted[i]
      && runs[i].start == Max(if i == 0 then time else runs[i - 1].end, sorted[i].arrival)
      && runs[i].end == runs[i].start + sorted[i].burst
  {
    if i > 0 {
      var start := Max(time, sorted[0].arrival);
      FcfsRunsAt(sorted[1..], start + sorted[0].burst, i - 1);
      var runs := FcfsRuns(sorted, time);
      assert runs[1..] == FcfsRuns(sorted[1..], start + sorted[0].burst);
      assert runs[i] == runs[1..][i - 1];
      if i > 1 {
        assert runs[i - 1] == runs[1..][i - 2];
      }
    }
  }

  /** With non-negative bursts the runs start no earlier than the clock and their arrival,
      last their burst, and never overlap. */
  lemma {:induction false} FcfsRunsOrdered(sorted: seq<Process>, time: int)
    requires forall i :: 0 <= i < |sorted| ==> sorted[i].burst >= 0
    ensures RunsFrom(FcfsRuns(sorted, time), time)
  {
    if sorted != [] {
      var run := Complete(sorted[0], Max(time, sorted[0].arrival));
      var rest := FcfsRuns(sorted[1..], run.end);
      FcfsRunsOrdered(sorted[1..], run.end);
      assert FcfsRuns(sorted, time) == [run] + rest;
      RunsFromCons(run, rest, time);
    }
  }

  /** FCFS schedules every process once, to completion, in a well-formed timeline. */
  lemma FcfsWellFormed(ps: seq<Process>)
    requires ValidProcesses(ps)
    ensures RunsToCompletion(ps, FcfsRuns(StableSort(ByArrival, ps), 0))
    ensures WellFormedSchedule(ps, FcfsSchedule(ps))
  {
    var sorted := StableSort(ByArrival, ps);
    PermutationValid(ps, sorted);
    FcfsRunsOrdered(sorted, 0);
    FcfsRunsProcs(sorted, 0);
    CompleteRunsWellFormed(ps, sorted, FcfsRuns(sorted, 0));
  }

  /** Processes that arrive together run in their order in the process list. */
  lemma FcfsTiesKeepInputOrder(ps: seq<Process>, k: Process)
    ensures Tied(ByArrival, Procs(FcfsRuns(StableSort(ByArrival, ps), 0)), k) == Tied(ByArrival, ps, k)
  {
    var sorted := StableSort(ByArrival, ps);
    FcfsRunsProcs(sorted, 0);
    StableSortIsStable(ByArrival, ps, k);
  }

  /** When no two processes arrive at the same time, the order of the process list does not
      matter: every reordering of it gets the same schedule. */
  lemma FcfsReorder(ps: seq<Process>, qs: seq<Process>)
    requires multiset(ps) == multiset(qs)
    requires forall i, j :: 0 <= i < j < |ps| ==> ps[i].arrival != ps[j].arrival
    ensures FcfsSchedule(ps) == FcfsSchedule(qs)
  {
    var a, b := StableSort(ByArrival, ps), StableSort(ByArrival, qs);
    forall x, y | x in a && y in a && x.arrival == y.arrival
      ensures x == y
    {
      assert x in multiset(ps) && y in multiset(ps);
      var i, j := IndexOf(ps, x), IndexOf(ps, y);
      assert !(i < j) && !(j < i);
    }
    SortedByArrivalUnique(a, b);
  }

  /** Two orderings of the same processes, both sorted by arrival, with no two arriving at the
      same time, are the same list. */
  lemma {:induction false} SortedByArrivalUnique(a: seq<Process>, b: seq<Process>)
    requires multiset(a) == multiset(b) && Sorted(ByArrival, a) && Sorted(ByArrival, b)
    requires forall x, y :: x in a && y in a && x.arrival == y.arrival ==> x == y
    ensures a == b
    decreases |a|
  {
    assert |a| == |multiset(a)| == |multiset(b)| == |b|;
    if a != [] {
      SortedHeadsMatch(a, b);
      PermutationTail(a, b, 0);
      RemoveAtHead(b);
      SortedTail(ByArrival, a);
      SortedTail(ByArrival, b);
      assert forall x :: x in a[1..] ==> x in a;
      SortedByArrivalUnique(a[1..], b[1..]);
      SameHeadAndTail(a, b);
    }
  }

  lemma SameHeadAndTail(a: seq<Process>, b: seq<Process>)
    requires a != [] && b != [] && a[0] == b[0] && a[1..] == b[1..]
    ensures a == b
  {
    assert a == [a[0]] + a[1..] && b == [b[0]] + b[1..];
  }

  /** The step of `SortedByArrivalUnique`: both lists start with the earliest arrival. */
  lemma SortedHeadsMatch(a: seq<Process>, b: seq<Process>)
    requires a != [] && b != [] && multiset(a) == multiset(b)
    requires Sorted(ByArrival, a) && Sorted(ByArrival, b)
    requires forall x, y :: x in a && y in a && x.arrival == y.arrival ==> x == y
    ensures a[0] == b[0]
  {
    assert a[0] in multiset(b) && b[0] in multiset(a);
    var i, j := IndexOf(b, a[0]), IndexOf(a, b[0]);
    assert i == 0 || Compare(ByArrival, b[0], b[i]) <= 0;
    assert j == 0 || Compare(ByArrival, a[0], a[j]) <= 0;
  }

  /** FCFS runs the processes in the order of the sorted copy. */
  lemma {:induction false} FcfsRunsProcs(sorted: seq<Process>, time: int)
    ensures Procs(FcfsRuns(sorted, time)) == sorted
  {
    if sorted != [] {
      var run := Complete(sorted[0], Max(time, sorted[0].arrival));
      var rest := FcfsRuns(sorted[1..], run.end);
      FcfsRunsProcs(sorted[1..], run.end);
      assert FcfsRuns(sorted, time) == [run] + rest;
      ProcsCons(run, rest);
    }
  }

  /** The sample list: P1 [0,5), P2 [5,8), P3 [8,16), P4 [16,22). */
  lemma FcfsSample()
    ensures var s := FcfsSchedule(SampleProcesses());
      && |s| == 4
      && s[0] == Interval("P1", 0, 5, 0) && s[1] == Interval("P2", 5, 8, 1)
      && s[2] == Interval("P3", 8, 16, 2) && s[3] == Interval("P4", 16, 22, 3)
  {
    SampleSortedByArrival();
    var runs := SampleFcfsRuns();
  }

  lemma SampleSortedByArrival()
    ensures StableSort(ByArrival, SampleProcesses()) == SampleProcesses()
  {
    assert Sorted(ByArrival, SampleProcesses());
    StableSortOfSorted(ByArrival, SampleProcesses());
  }

  lemma SampleFcfsRuns() returns (runs: seq<Run>)
    ensures runs == FcfsRuns(SampleProcesses(), 0)
    ensures |runs| == 4
    ensures runs[0].proc.id == "P1" && runs[0].start == 0 && runs[0].end == 5
    ensures runs[1].proc.id == "P2" && runs[1].start == 5 && runs[1].end == 8
    ensures runs[2].proc.id == "P3" && runs[2].start == 8 && runs[2].end == 16
    ensures runs[3].proc.id == "P4" && runs[3].start == 16 && runs[3].end == 22
  {
    var ps := SampleProcesses();
    runs := FcfsRuns(ps, 0);
    FcfsRunsAt(ps, 0, 0);
    FcfsRunsAt(ps, 0, 1);
    FcfsRunsAt(ps, 0, 2);
    FcfsRunsAt(ps, 0, 3);
  }

  /** FCFS runs `Trio()` in arrival order: C [0,3), B [3,4), A [4,5). */
  lemma TrioFcfs(ps: seq<Process>)
    requires ps == Trio()
    ensures FcfsSchedule(ps) == [Interval("C", 0, 3, 2), Interval("B", 3, 4, 1), Interval("A", 4, 5, 0)]
  {
    var byArrival := [ps[2], ps[1], ps[0]];
    TrioReordered(ps, byArrival);
    FcfsReorder(ps, byArrival);
    TrioInArrivalOrder(byArrival);
  }

  /** The same processes listed in arrival order. */
  lemma TrioInArrivalOrder(byArrival: seq<Process>)
    requires byArrival == [Trio()[2], Trio()[1], Trio()[0]]
    ensures FcfsSchedule(byArrival) == [Interval("C", 0, 3, 2), Interval("B", 3, 4, 1), Interval("A", 4, 5, 0)]
  {
    TrioSortedByArrival(byArrival);
    var runs := TrioFcfsRuns(byArrival);
  }

  lemma TrioReordered(ps: seq<Process>, byArrival: seq<Process>)
    requires |ps| == 3 && byArrival == [ps[2], ps[1], ps[0]]
    ensures multiset(ps) == multiset(byArrival)
  {
    assert ps == [ps[0]] + [ps[1]] + [ps[2]];
    assert byArrival == [ps[2]] + [ps[1]] + [ps[0]];
  }

  lemma TrioSortedByArrival(byArrival: seq<Process>)
    requires byArrival == [Trio()[2], Trio()[1], Trio()[0]]
    ensures StableSort(ByArrival, byArrival) == byArrival
  {
    assert Sorted(ByArrival, byArrival);
    StableSortOfSorted(ByArrival, byArrival);
  }

  lemma TrioFcfsRuns(byArrival: seq<Process>) returns (runs: seq<Run>)
    requires byArrival == [Trio()[2], Trio()[1], Trio()[0]]
    ensures runs == FcfsRuns(byArrival, 0)
    ensures |runs| == 3
    ensures runs[0].proc == Trio()[2] && runs[0].start == 0 && runs[0].end == 3
    ensures runs[1].proc == Trio()[1] && runs[1].start == 3 && runs[1].end == 4
    ensures runs[2].proc == Trio()[0] && runs[2].start == 4 && runs[2].end == 5
  {
    runs := FcfsRuns(byArrival, 0);
    FcfsRunsAt(byArrival, 0, 0);
    FcfsRunsAt(byArrival, 0, 1);
    FcfsRunsAt(byArrival, 0, 2);
  }
}
