/** Schedules: the intervals a scheduler emits, and the properties every correct schedule has. */
module Timeline {
  import opened Types

  /** An emitted interval together with the process it runs. */
  datatype Run = Run(proc: Process, start: int, end: int)

  /** `p` holds the CPU from `start` for its whole burst. */
  function Complete(p: Process, start: int): Run {
    Run(p, start, start + p.burst)
  }

  /** The `{process, start, end, color}` records the schedulers push, one per run. */
  function Intervals(runs: seq<Run>): (s: seq<Interval>)
    ensures |s| == |runs|
    ensures forall i :: 0 <= i < |runs| ==> s[i] == Interval(runs[i].proc.id, runs[i].start, runs[i].end, runs[i].proc.color)
  {
    if runs == [] then []
    else [Interval(runs[0].proc.id, runs[0].start, runs[0].end, runs[0].proc.color)] + Intervals(runs[1..])
  }

  lemma IntervalsCons(r: Run, rest: seq<Run>)
    ensures Intervals([r] + rest) == [Interval(r.proc.id, r.start, r.end, r.proc.color)] + Intervals(rest)
  {
    assert ([r] + rest)[1..] == rest;
  }

  /** Emitting the first of `runs` moves its interval from the runs to do onto the schedule. */
  lemma IntervalsStep(schedule: seq<Interval>, runs: seq<Run>, r: Run, later: seq<Run>)
    requires runs == [r] + later
    ensures schedule + Intervals(runs) ==
      (schedule + [Interval(r.proc.id, r.start, r.end, r.proc.color)]) + Intervals(later)
  {
    IntervalsCons(r, later);
    var iv := Interval(r.proc.id, r.start, r.end, r.proc.color);
    assert (schedule + [iv]) + Intervals(later) == schedule + ([iv] + Intervals(later));
  }

  /** The processes in the order they were run. */
  function Procs(runs: seq<Run>): (ps: seq<Process>)
    ensures |ps| == |runs|
    ensures forall i :: 0 <= i < |runs| ==> ps[i] == runs[i].proc
  {
    if runs == [] then [] else [runs[0].proc] + Procs(runs[1..])
  }

  lemma ProcsCons(run: Run, rest: seq<Run>)
    ensures Procs([run] + rest) == [run.proc] + Procs(rest)
  {
    assert ([run] + rest)[1..] == rest;
  }

  /** `schedule.filter((s) => s.process === id)`. */
  function IntervalsOf(s: seq<Interval>, id: string): (r: seq<Interval>)
    ensures forall iv :: iv in r <==> iv in s && iv.process == id
  {
    if s == [] then []
    else if s[0].process == id then [s[0]] + IntervalsOf(s[1..], id)
    else IntervalsOf(s[1..], id)
  }

  /** `Math.max(...s.map((x) => x.end))` for a non-empty `s`. */
  function MaxEnd(s: seq<Interval>): (m: int)
    requires s != []
    ensures forall i :: 0 <= i < |s| ==> s[i].end <= m
    ensures exists i :: 0 <= i < |s| && s[i].end == m
  {
    if |s| == 1 then s[0].end
    else
      var m := MaxEnd(s[1..]);
      assert forall i :: 1 <= i < |s| ==> s[i] == s[1..][i - 1];
      Max(s[0].end, m)
  }

  /** CPU time the schedule gives to the process `id`. */
  function TotalLength(s: seq<Interval>, id: string): int {
    if s == [] then 0
    else (if s[0].process == id then s[0].end - s[0].start else 0) + TotalLength(s[1..], id)
  }

  /** Summed burst of the processes called `id`. */
  function BurstOf(ps: seq<Process>, id: string): int {
    if ps == [] then 0
    else (if ps[0].id == id then ps[0].burst else 0) + BurstOf(ps[1..], id)
  }

  /** Intervals are sorted by start, of non-negative length and never overlap. */
  predicate Ordered(s: seq<Interval>) {
    && (forall i :: 0 <= i < |s| ==> s[i].start <= s[i].end)
    && (forall i, j :: 0 <= i < j < |s| ==> s[i].end <= s[j].start)
  }

  /** Every interval belongs to a listed process and starts no earlier than its arrival. */
  predicate StartsAfterArrival(ps: seq<Process>, s: seq<Interval>) {
    forall i :: 0 <= i < |s| ==>
      Find(ps, s[i].process).Some? && Find(ps, s[i].process).value.arrival <= s[i].start
  }

  /** Every process receives exactly its burst of CPU time. */
  predicate ConservesWork(ps: seq<Process>, s: seq<Interval>) {
    forall k :: 0 <= k < |ps| ==> TotalLength(s, ps[k].id) == ps[k].burst
  }

  /** The invariants of a complete schedule of `ps`. */
  predicate WellFormedSchedule(ps: seq<Process>, s: seq<Interval>) {
    Ordered(s) && StartsAfterArrival(ps, s) && ConservesWork(ps, s)
  }

  /** A non-preemptive schedule: every process runs once, for its whole burst, after its
      arrival, and no run overlaps a later one. */
  predicate RunsToCompletion(ps: seq<Process>, runs: seq<Run>) {
    && multiset(Procs(runs)) == multiset(ps)
    && (forall i :: 0 <= i < |runs| ==> runs[i].end == runs[i].start + runs[i].proc.burst)
    && (forall i :: 0 <= i < |runs| ==> runs[i].proc.arrival <= runs[i].start)
    && (forall i, j :: 0 <= i < j < |runs| ==> runs[i].end <= runs[j].start)
  }

  lemma BurstOfCons(p: Process, s: seq<Process>, id: string)
    ensures BurstOf([p] + s, id) == (if p.id == id then p.burst else 0) + BurstOf(s, id)
  {
    assert ([p] + s)[1..] == s;
  }

  lemma {:induction false} BurstOfRemoveAt(ps: seq<Process>, i: nat, id: string)
    requires i < |ps|
    ensures BurstOf(ps, id) == (if ps[i].id == id then ps[i].burst else 0) + BurstOf(RemoveAt(ps, i), id)
  {
    if i == 0 {
      RemoveAtHead(ps);
    } else {
      BurstOfRemoveAt(ps[1..], i - 1, id);
      RemoveAtCons(ps, i);
      BurstOfCons(ps[0], RemoveAt(ps[1..], i - 1), id);
    }
  }

  /** The burst summed per id does not depend on the order of the list. */
  lemma {:induction false} BurstOfPermutation(a: seq<Process>, b: seq<Process>, id: string)
    requires multiset(a) == multiset(b)
    ensures BurstOf(a, id) == BurstOf(b, id)
  {
    if a == [] {
      assert |b| == |multiset(b)| == 0;
    } else {
      assert a[0] in multiset(b);
      var i := IndexOf(b, a[0]);
      BurstOfRemoveAt(b, i, id);
      PermutationTail(a, b, i);
      BurstOfPermutation(a[1..], RemoveAt(b, i), id);
    }
  }

  lemma {:induction false} BurstOfUnique(ps: seq<Process>, k: nat)
    requires UniqueIds(ps) && k < |ps|
    ensures BurstOf(ps, ps[k].id) == ps[k].burst
  {
    if k == 0 {
      BurstOfAbsent(ps[1..], ps[0].id);
    } else {
      UniqueIdsTail(ps);
      assert ps[1..][k - 1] == ps[k];
      BurstOfUnique(ps[1..], k - 1);
    }
  }

  lemma {:induction false} BurstOfAbsent(ps: seq<Process>, id: string)
    requires forall q :: q in ps ==> q.id != id
    ensures BurstOf(ps, id) == 0
  {
    if ps != [] {
      BurstOfAbsent(ps[1..], id);
    }
  }

  /** When every run lasts exactly its process's burst, each id receives its summed burst. */
  lemma {:induction false} RunsLength(runs: seq<Run>, id: string)
    requires forall i :: 0 <= i < |runs| ==> runs[i].end == runs[i].start + runs[i].proc.burst
    ensures TotalLength(Intervals(runs), id) == BurstOf(Procs(runs), id)
  {
    if runs != [] {
      RunsLength(runs[1..], id);
      assert Intervals(runs)[1..] == Intervals(runs[1..]);
      assert Procs(runs)[1..] == Procs(runs[1..]);
    }
  }

  /** A non-preemptive schedule of a valid process list has the invariants of a schedule. */
  lemma RunsToCompletionWellFormed(ps: seq<Process>, runs: seq<Run>)
    requires ValidProcesses(ps) && RunsToCompletion(ps, runs)
    ensures WellFormedSchedule(ps, Intervals(runs))
  {
    RunsOrdered(ps, runs);
    RunsAfterArrival(ps, runs);
    RunsConserveWork(ps, runs);
  }

  lemma RunsOrdered(ps: seq<Process>, runs: seq<Run>)
    requires ValidProcesses(ps) && RunsToCompletion(ps, runs)
    ensures Ordered(Intervals(runs))
  {
    forall i | 0 <= i < |runs| ensures runs[i].proc.burst >= 0 {
      assert runs[i].proc in multiset(Procs(runs));
      assert ps[IndexOf(ps, runs[i].proc)] == runs[i].proc;
    }
  }

  lemma RunsAfterArrival(ps: seq<Process>, runs: seq<Run>)
    requires ValidProcesses(ps) && RunsToCompletion(ps, runs)
    ensures StartsAfterArrival(ps, Intervals(runs))
  {
    var s := Intervals(runs);
    forall i | 0 <= i < |s| ensures Find(ps, s[i].process) == Some(runs[i].proc) {
      assert runs[i].proc in multiset(Procs(runs));
      FindUnique(ps, IndexOf(ps, runs[i].proc));
    }
  }

  lemma RunsConserveWork(ps: seq<Process>, runs: seq<Run>)
    requires ValidProcesses(ps) && RunsToCompletion(ps, runs)
    ensures ConservesWork(ps, Intervals(runs))
  {
    forall k | 0 <= k < |ps| ensures TotalLength(Intervals(runs), ps[k].id) == ps[k].burst {
      RunsLength(runs, ps[k].id);
      BurstOfPermutation(Procs(runs), ps, ps[k].id);
      BurstOfUnique(ps, k);
    }
  }

  /** In an ordered schedule, the CPU time of one process fits between the earliest moment
      it may start and the end of its last interval. */
  lemma {:induction false} WorkFitsBeforeCompletion(s: seq<Interval>, id: string, from: int)
    requires Ordered(s)
    requires IntervalsOf(s, id) != []
    requires forall i :: 0 <= i < |s| && s[i].process == id ==> from <= s[i].start
    ensures TotalLength(s, id) <= MaxEnd(IntervalsOf(s, id)) - from
  {
    var t := s[1..];
    assert Ordered(t) by {
      assert forall i :: 0 <= i < |t| ==> t[i] == s[i + 1];
    }
    assert forall i :: 0 <= i < |t| ==> t[i] == s[i + 1];
    if s[0].process != id {
      assert IntervalsOf(s, id) == IntervalsOf(t, id);
      WorkFitsBeforeCompletion(t, id, from);
    } else if IntervalsOf(t, id) == [] {
      TotalLengthAbsent(t, id);
      assert IntervalsOf(s, id) == [s[0]];
    } else {
      WorkFitsBeforeCompletion(t, id, s[0].end);
      assert IntervalsOf(s, id) == [s[0]] + IntervalsOf(t, id);
      assert IntervalsOf(s, id)[1..] == IntervalsOf(t, id);
    }
  }

  /** Appending an interval adds its length to its own process's CPU time only. */
  lemma {:induction false} TotalLengthAppend(s: seq<Interval>, iv: Interval, id: string)
    ensures TotalLength(s + [iv], id) == TotalLength(s, id) + (if iv.process == id then iv.end - iv.start else 0)
  {
    if s != [] {
      assert (s + [iv])[1..] == s[1..] + [iv];
      TotalLengthAppend(s[1..], iv, id);
    } else {
      assert [iv][1..] == [];
    }
  }

  lemma {:induction false} TotalLengthAbsent(s: seq<Interval>, id: string)
    requires IntervalsOf(s, id) == []
    ensures TotalLength(s, id) == 0
  {
    if s != [] {
      assert s[0] in s;
      TotalLengthAbsent(s[1..], id);
    }
  }

  /** A reordering of a valid process list holds valid processes only. */
  lemma PermutationValid(ps: seq<Process>, sorted: seq<Process>)
    requires ValidProcesses(ps) && multiset(sorted) == multiset(ps)
    ensures forall i :: 0 <= i < |sorted| ==> ValidProcess(sorted[i])
  {
    forall i | 0 <= i < |sorted| ensures ValidProcess(sorted[i]) {
      assert sorted[i] in multiset(ps);
      assert ps[IndexOf(ps, sorted[i])] == sorted[i];
    }
  }

  /** Runs that start no earlier than `time` and their process's arrival, last exactly their
      process's burst, and follow one another without overlap. */
  predicate RunsFrom(runs: seq<Run>, time: int) {
    && (forall i :: 0 <= i < |runs| ==> time <= runs[i].start)
    && (forall i :: 0 <= i < |runs| ==> runs[i].end == runs[i].start + runs[i].proc.burst)
    && (forall i :: 0 <= i < |runs| ==> runs[i].proc.arrival <= runs[i].start)
    && (forall i, j :: 0 <= i < j < |runs| ==> runs[i].end <= runs[j].start)
  }

  /** A complete run followed by runs from its end. */
  lemma RunsFromCons(run: Run, rest: seq<Run>, time: int)
    requires time <= run.start && run.proc.arrival <= run.start
    requires run == Complete(run.proc, run.start) && run.proc.burst >= 0
    requires RunsFrom(rest, run.end)
    ensures RunsFrom([run] + rest, time)
  {
    var runs := [run] + rest;
    assert forall i :: 1 <= i < |runs| ==> runs[i] == rest[i - 1];
  }

  /** Runs of a reordering of a valid process list, each process once and from time 0 on,
      form a non-preemptive schedule with the invariants of a schedule. */
  lemma CompleteRunsWellFormed(ps: seq<Process>, sorted: seq<Process>, runs: seq<Run>)
    requires ValidProcesses(ps) && multiset(sorted) == multiset(ps)
    requires multiset(Procs(runs)) == multiset(sorted) && RunsFrom(runs, 0)
    ensures RunsToCompletion(ps, runs)
    ensures WellFormedSchedule(ps, Intervals(runs))
  {
    RunsToCompletionWellFormed(ps, runs);
  }
}
