/** `scheduleSJF` and `schedulePriority`: the two non-preemptive schedulers that, whenever the
    CPU is free, run the arrived process with the smallest burst (respectively the smallest
    priority number) to completion. The source has one copy of the loop per criterion; here the
    criterion is a parameter. */
module Picker {
  import opened Types
  import opened Timeline
  import opened Sorting

  /** `remaining.filter((p) => p.arrival <= time)`. */
  function Arrived(rem: seq<Process>, time: int): (r: seq<Process>)
    ensures |r| <= |rem|
  {
    if |rem| == 0 then []
    else if rem[0].arrival <= time then [rem[0]] + Arrived(rem[1..], time)
    else Arrived(rem[1..], time)
  }

  /** Every arrived process is a remaining one whose arrival is not after `time`. */
  lemma {:induction false} ArrivedIn(rem: seq<Process>, time: int, j: nat)
    requires j < |Arrived(rem, time)|
    ensures Arrived(rem, time)[j] in rem && Arrived(rem, time)[j].arrival <= time
  {
    var t := rem[1..];
    if rem[0].arrival <= time {
      assert Arrived(rem, time) == [rem[0]] + Arrived(t, time);
      if j > 0 {
        ArrivedIn(t, time, j - 1);
      }
    } else {
      ArrivedIn(t, time, j);
    }
  }

  /** Nothing has arrived exactly when every remaining arrival is after `time`. */
  lemma {:induction false} ArrivedNone(rem: seq<Process>, time: int)
    ensures |Arrived(rem, time)| == 0 <==> forall i :: 0 <= i < |rem| ==> rem[i].arrival > time
  {
    if |rem| > 0 {
      ArrivedNone(rem[1..], time);
      assert forall i :: 1 <= i < |rem| ==> rem[i] == rem[1..][i - 1];
    }
  }

  /** Nothing remaining has arrived by `time`: `available.length === 0`. */
  predicate Idle(rem: seq<Process>, time: int) {
    forall i :: 0 <= i < |rem| ==> rem[i].arrival > time
  }

  /** The `k`-th remaining process has arrived by `now`, no arrived process has a smaller
      criterion value, and every arrived process before it has a larger one. */
  predicate Chosen(c: Criterion, rem: seq<Process>, now: int, k: nat)
    requires k < |rem|
  {
    && rem[k].arrival <= now
    && (forall i :: 0 <= i < |rem| && rem[i].arrival <= now ==> Sel(c, rem[k]) <= Sel(c, rem[i]))
    && (forall i :: 0 <= i < k && rem[i].arrival <= now ==> Sel(c, rem[i]) > Sel(c, rem[k]))
  }

  /** The process to run, written without the sort: the position of the first arrived process
      whose criterion value no arrived process undercuts. */
  function Best(c: Criterion, rem: seq<Process>, time: int): (b: Option<nat>)
    ensures b.None? <==> Idle(rem, time)
    ensures b.Some? ==> b.value < |rem| && Chosen(c, rem, time, b.value)
  {
    if |rem| == 0 then None
    else
      var b := Best(c, rem[1..], time);
      assert forall i :: 1 <= i < |rem| ==> rem[i] == rem[1..][i - 1];
      if rem[0].arrival <= time && (b.None? || Sel(c, rem[0]) <= Sel(c, rem[1..][b.value])) then Some(0)
      else if b.None? then None
      else Some(b.value + 1)
  }

  /** When the loop next runs a process: now, or the first remaining arrival when nothing
      has arrived. */
  function Clock(rem: seq<Process>, time: int): (now: int)
    requires rem != []
    ensures !Idle(rem, now)
  {
    if Idle(rem, time) then rem[0].arrival else time
  }

  /** The runs the loop emits from the list `rem` still to run and the clock `time`: the `Best`
      process runs to completion from `Clock(rem, time)` and leaves `rem`. */
  function PickRuns(c: Criterion, rem: seq<Process>, time: int): (runs: seq<Run>)
    ensures |runs| == |rem|
    decreases |rem|
  {
    if |rem| == 0 then []
    else
      var now := Clock(rem, time);
      var k := Best(c, rem, now).value;
      var run := Complete(rem[k], now);
      [run] + PickRuns(c, RemoveAt(rem, k), run.end)
  }

  /** The schedule of the whole list: sorted by arrival, ties by the criterion, from time 0. */
  function PickSchedule(c: Criterion, ps: seq<Process>): (s: seq<Interval>)
    ensures |s| == |ps|
  {
    Intervals(PickRuns(c, StableSort(ByArrivalThen(c), ps), 0))
  }

  /** The head of the arrived processes stably sorted by the criterion is a remaining process. */
  lemma ChoiceFound(c: Criterion, rem: seq<Process>, now: int)
    requires |Arrived(rem, now)| > 0
    ensures StableSort(ByCriterion(c), Arrived(rem, now))[0] in rem
    ensures StableSort(ByCriterion(c), Arrived(rem, now))[0].arrival <= now
  {
    var av := Arrived(rem, now);
    var head := StableSort(ByCriterion(c), av)[0];
    assert head in multiset(av);
    ArrivedIn(rem, now, IndexOf(av, head));
  }

  /** The source's selection, `remaining.indexOf(available.sort(cmp)[0])`: where in `rem` the
      head of the arrived processes, stably sorted by the criterion, stands. */
  function Choice(c: Criterion, rem: seq<Process>, now: int): (k: nat)
    requires |Arrived(rem, now)| > 0
    ensures k < |rem| && rem[k].arrival <= now
  {
    ChoiceFound(c, rem, now);
    IndexOf(rem, StableSort(ByCriterion(c), Arrived(rem, now))[0])
  }

  /** The `while (remaining.length > 0)` loop of both schedulers. */
  method SchedulePicking(c: Criterion, ps: seq<Process>) returns (schedule: seq<Interval>)
    ensures schedule == PickSchedule(c, ps)
  {
    var sorted := StableSort(ByArrivalThen(c), ps);
    ghost var goal := PickSchedule(c, ps);
    schedule := [];
    var remaining := sorted;
    var time := 0;
    while |remaining| > 0
      invariant schedule + Intervals(PickRuns(c, remaining, time)) == goal
      decreases |remaining|, if |Arrived(remaining, time)| == 0 then 1 else 0
    {
      var available := Arrived(remaining, time);
      if |available| == 0 {
        PickIdle(c, remaining, time);
        time := remaining[0].arrival;
        continue;
      }
      available := StableSort(ByCriterion(c), available);
      var proc := available[0];
      var start := time;
      var end := start + proc.burst;
      ChoiceFound(c, remaining, time);
      var k := IndexOf(remaining, proc);
      assert k == Choice(c, remaining, time) && remaining[k] == proc;
      ChoiceIsBest(c, remaining, time);
      PickAdvance(c, schedule, remaining, time, k, end, goal);
      schedule := schedule + [Interval(proc.id, start, end, proc.color)];
      time := end;
      remaining := RemoveAt(remaining, k);
    }
  }

  /** `scheduleSJF`. */
  method ScheduleSJF(ps: seq<Process>) returns (schedule: seq<Interval>)
    ensures schedule == PickSchedule(ShortestBurst, ps)
  {
    schedule := SchedulePicking(ShortestBurst, ps);
  }

  /** `schedulePriority`: a smaller number is a higher priority. */
  method SchedulePriority(ps: seq<Process>) returns (schedule: seq<Interval>)
    ensures schedule == PickSchedule(LowestPriority, ps)
  {
    schedule := SchedulePicking(LowestPriority, ps);
  }

  /** With nothing arrived, jumping the clock to the first remaining arrival changes nothing,
      and afterwards a process has arrived. */
  lemma PickIdle(c: Criterion, rem: seq<Process>, time: int)
    requires rem != [] && |Arrived(rem, time)| == 0
    ensures PickRuns(c, rem, time) == PickRuns(c, rem, rem[0].arrival)
    ensures |Arrived(rem, rem[0].arrival)| > 0
  {
    ArrivedNone(rem, time);
    ArrivedNone(rem, rem[0].arrival);
    assert Clock(rem, rem[0].arrival) == rem[0].arrival;
  }

  /** With a process arrived, the `Best` one runs from now to completion. */
  lemma PickStep(c: Criterion, rem: seq<Process>, time: int, k: nat)
    requires rem != [] && !Idle(rem, time) && Best(c, rem, time) == Some(k)
    ensures PickRuns(c, rem, time) == [Complete(rem[k], time)] + PickRuns(c, RemoveAt(rem, k), Complete(rem[k], time).end)
  {
    assert Clock(rem, time) == time;
  }

  /** One iteration with an arrived process moves the interval of the chosen process, the
      `k`-th, onto the schedule; the clock moves to its end. */
  lemma PickAdvance(c: Criterion, schedule: seq<Interval>, rem: seq<Process>, time: int,
                    k: nat, end: int, goal: seq<Interval>)
    requires |Arrived(rem, time)| > 0 && Best(c, rem, time) == Some(k)
    requires k < |rem| && end == time + rem[k].burst
    requires schedule + Intervals(PickRuns(c, rem, time)) == goal
    ensures (schedule + [Interval(rem[k].id, time, end, rem[k].color)])
      + Intervals(PickRuns(c, RemoveAt(rem, k), end)) == goal
  {
    ArrivedNone(rem, time);
    PickStep(c, rem, time, k);
    var run := Complete(rem[k], time);
    assert run.end == end;
    IntervalsStep(schedule, PickRuns(c, rem, time), run, PickRuns(c, RemoveAt(rem, k), end));
  }

  lemma FirstMinCons(o: SortOrder, x: Process, s: seq<Process>)
    requires s != []
    ensures FirstMin(o, [x] + s) == if Compare(o, x, s[FirstMin(o, s)]) <= 0 then 0 else FirstMin(o, s) + 1
  {
    assert ([x] + s)[1..] == s;
  }

  /** `y` stands at position `b` of `rem` and at no earlier one. */
  predicate FirstAt(rem: seq<Process>, b: Option<nat>, y: Process) {
    b.Some? && b.value < |rem| && rem[b.value] == y && forall i :: 0 <= i < b.value ==> rem[i] != y
  }

  /** The first minimal arrived process stands at the position `Best` reports, and at no
      earlier one. */
  lemma {:induction false} FirstMinIsBest(c: Criterion, rem: seq<Process>, now: int)
    requires |Arrived(rem, now)| > 0
    ensures FirstAt(rem, Best(c, rem, now), Arrived(rem, now)[FirstMin(ByCriterion(c), Arrived(rem, now))])
  {
    var t := rem[1..];
    var av, avt := Arrived(rem, now), Arrived(t, now);
    if rem[0].arrival <= now {
      assert av == [rem[0]] + avt;
      if |avt| == 0 {
        ArrivedNone(t, now);
        assert Best(c, rem, now) == Some(0);
      } else {
        FirstMinIsBest(c, t, now);
        BestHeadArrived(c, rem, now);
      }
    } else {
      assert av == avt;
      FirstMinIsBest(c, t, now);
      ArrivedIn(t, now, FirstMin(ByCriterion(c), avt));
      BestHeadLate(c, rem, now);
    }
  }

  lemma BestHeadArrived(c: Criterion, rem: seq<Process>, now: int)
    requires rem != [] && rem[0].arrival <= now && |Arrived(rem[1..], now)| > 0
    requires var avt := Arrived(rem[1..], now);
      FirstAt(rem[1..], Best(c, rem[1..], now), avt[FirstMin(ByCriterion(c), avt)])
    ensures FirstAt(rem, Best(c, rem, now), Arrived(rem, now)[FirstMin(ByCriterion(c), Arrived(rem, now))])
  {
    var o := ByCriterion(c);
    var avt := Arrived(rem[1..], now);
    assert Arrived(rem, now) == [rem[0]] + avt;
    FirstMinCons(o, rem[0], avt);
    if Compare(o, rem[0], avt[FirstMin(o, avt)]) <= 0 {
      BestHeadWins(c, rem, now);
    } else {
      BestTailWins(c, rem, now);
    }
  }

  lemma BestHeadWins(c: Criterion, rem: seq<Process>, now: int)
    requires rem != [] && rem[0].arrival <= now && |Arrived(rem[1..], now)| > 0
    requires var avt := Arrived(rem[1..], now);
      && FirstAt(rem[1..], Best(c, rem[1..], now), avt[FirstMin(ByCriterion(c), avt)])
      && Compare(ByCriterion(c), rem[0], avt[FirstMin(ByCriterion(c), avt)]) <= 0
    ensures Best(c, rem, now) == Some(0)
  {
  }

  lemma BestTailWins(c: Criterion, rem: seq<Process>, now: int)
    requires rem != [] && rem[0].arrival <= now && |Arrived(rem[1..], now)| > 0
    requires var avt := Arrived(rem[1..], now);
      && FirstAt(rem[1..], Best(c, rem[1..], now), avt[FirstMin(ByCriterion(c), avt)])
      && Compare(ByCriterion(c), rem[0], avt[FirstMin(ByCriterion(c), avt)]) > 0
    ensures var avt := Arrived(rem[1..], now);
      FirstAt(rem, Best(c, rem, now), avt[FirstMin(ByCriterion(c), avt)])
  {
    var t := rem[1..];
    var bt := Best(c, t, now).value;
    assert Best(c, rem, now) == Some(bt + 1);
    assert forall i :: 1 <= i < bt + 1 ==> rem[i] == t[i - 1];
  }

  lemma BestHeadLate(c: Criterion, rem: seq<Process>, now: int)
    requires rem != [] && rem[0].arrival > now && |Arrived(rem[1..], now)| > 0
    requires var avt := Arrived(rem[1..], now);
      && FirstAt(rem[1..], Best(c, rem[1..], now), avt[FirstMin(ByCriterion(c), avt)])
      && avt[FirstMin(ByCriterion(c), avt)].arrival <= now
    ensures FirstAt(rem, Best(c, rem, now), Arrived(rem, now)[FirstMin(ByCriterion(c), Arrived(rem, now))])
  {
    var t := rem[1..];
    assert Arrived(rem, now) == Arrived(t, now);
    var bt := Best(c, t, now).value;
    assert Best(c, rem, now) == Some(bt + 1);
    assert forall i :: 1 <= i < bt + 1 ==> rem[i] == t[i - 1];
  }

  /** The process the loop picks is the one `Best` describes. */
  lemma ChoiceIsBest(c: Criterion, rem: seq<Process>, now: int)
    requires |Arrived(rem, now)| > 0
    ensures Best(c, rem, now) == Some(Choice(c, rem, now))
  {
    var av := Arrived(rem, now);
    var y := av[FirstMin(ByCriterion(c), av)];
    SortHeadIsFirstMin(ByCriterion(c), av);
    FirstMinIsBest(c, rem, now);
    var k := Choice(c, rem, now);
    assert k == IndexOf(rem, y);
    FirstIndexUnique(rem, y, Best(c, rem, now).value, k);
  }

  /** Each run of the loop: when nothing has arrived the clock first jumps to the first
      remaining arrival; then the `k`-th remaining process, the one `Chosen` describes, runs to
      completion, and the loop carries on without it from the run's end. */
  lemma PickRunsFirst(c: Criterion, rem: seq<Process>, time: int)
    requires |rem| > 0
    ensures var runs := PickRuns(c, rem, time);
      var r := runs[0];
      && r.start == (if Idle(rem, time) then rem[0].arrival else time)
      && r.end == r.start + r.proc.burst
      && (exists k :: 0 <= k < |rem| && Chosen(c, rem, r.start, k) && r.proc == rem[k] &&
            runs[1..] == PickRuns(c, RemoveAt(rem, k), r.end))
  {
    var k, run := PickRunsHead(c, rem, time);
    var rest := PickRuns(c, RemoveAt(rem, k), run.end);
    assert ([run] + rest)[1..] == rest;
  }

  /** The first run of the loop, from the `k`-th remaining process, and what follows it. */
  lemma PickRunsHead(c: Criterion, rem: seq<Process>, time: int) returns (k: nat, run: Run)
    requires |rem| > 0
    ensures k < |rem| && run == Complete(rem[k], run.start)
    ensures run.start == (if Idle(rem, time) then rem[0].arrival else time)
    ensures time <= run.start && Chosen(c, rem, run.start, k)
    ensures PickRuns(c, rem, time) == [run] + PickRuns(c, RemoveAt(rem, k), run.end)
  {
    var now := Clock(rem, time);
    k := Best(c, rem, now).value;
    run := Complete(rem[k], now);
  }

  /** With non-negative bursts the loop runs every remaining process to completion, no
      earlier than the clock and its arrival, one after the other. */
  lemma {:induction false} PickRunsOrdered(c: Criterion, rem: seq<Process>, time: int)
    requires forall i :: 0 <= i < |rem| ==> rem[i].burst >= 0
    ensures RunsFrom(PickRuns(c, rem, time), time)
  {
    if |rem| > 0 {
      var k, run := PickRunsHead(c, rem, time);
      var left := RemoveAt(rem, k);
      RemoveAtBursts(rem, k);
      PickRunsOrdered(c, left, run.end);
      RunsFromCons(run, PickRuns(c, left, run.end), time);
    }
  }

  /** The loop runs every remaining process, each as often as it is listed. */
  lemma {:induction false} PickRunsProcs(c: Criterion, rem: seq<Process>, time: int)
    ensures multiset(Procs(PickRuns(c, rem, time))) == multiset(rem)
  {
    if |rem| > 0 {
      var k, run := PickRunsHead(c, rem, time);
      var left := RemoveAt(rem, k);
      PickRunsProcs(c, left, run.end);
      ProcsRemoved(rem, k, run, PickRuns(c, left, run.end));
    }
  }

  lemma ProcsRemoved(rem: seq<Process>, k: nat, run: Run, rest: seq<Run>)
    requires k < |rem| && run.proc == rem[k]
    requires multiset(Procs(rest)) == multiset(RemoveAt(rem, k))
    ensures multiset(Procs([run] + rest)) == multiset(rem)
  {
    ProcsCons(run, rest);
    assert multiset([rem[k]] + Procs(rest)) == multiset{rem[k]} + multiset(Procs(rest));
  }

  lemma RemoveAtBursts(rem: seq<Process>, k: nat)
    requires k < |rem| && forall i :: 0 <= i < |rem| ==> rem[i].burst >= 0
    ensures forall i :: 0 <= i < |RemoveAt(rem, k)| ==> RemoveAt(rem, k)[i].burst >= 0
  {
    var left := RemoveAt(rem, k);
    assert forall i :: 0 <= i < |left| ==> left[i] == rem[if i < k then i else i + 1];
  }

  /** The clock the `i`-th run is picked at: `time` for the first, the previous run's end after. */
  function ClockAt(runs: seq<Run>, i: nat, time: int): int
    requires i < |runs|
  {
    if i == 0 then time else runs[i - 1].end
  }

  /** Every run starts no earlier than the clock it was picked at. */
  predicate Clocked(runs: seq<Run>, time: int) {
    forall i :: 0 <= i < |runs| ==> ClockAt(runs, i, time) <= runs[i].start
  }

  /** A run that starts later than its clock finds the CPU idle: it starts at its own
      process's arrival, and no process run from then on arrived earlier. */
  predicate IdleJumps(runs: seq<Run>, time: int) {
    && (forall i :: 0 <= i < |runs| && ClockAt(runs, i, time) < runs[i].start ==>
          runs[i].start == runs[i].proc.arrival)
    && (forall i, j :: 0 <= i <= j < |runs| && ClockAt(runs, i, time) < runs[i].start ==>
          runs[i].start <= runs[j].proc.arrival)
  }

  /** Every process run later that had already arrived when a run started has a larger
      criterion value, or the same value and an arrival no earlier. */
  predicate PicksInOrder(c: Criterion, runs: seq<Run>) {
    forall i, j :: 0 <= i < j < |runs| && runs[j].proc.arrival <= runs[i].start ==>
      || Sel(c, runs[i].proc) < Sel(c, runs[j].proc)
      || (Sel(c, runs[i].proc) == Sel(c, runs[j].proc) && runs[i].proc.arrival <= runs[j].proc.arrival)
  }

  /** The selection rule at every run of `runs`, started at the clock `time`. */
  predicate FollowsRule(c: Criterion, runs: seq<Run>, time: int) {
    Clocked(runs, time) && IdleJumps(runs, time) && PicksInOrder(c, runs)
  }

  lemma ArrivalFirst(c: Criterion, a: Process, b: Process)
    requires Compare(ByArrivalThen(c), a, b) <= 0
    ensures a.arrival <= b.arrival
  {
  }

  /** What the first run owes the selection rule, for a list sorted by arrival: `rest` runs the
      other remaining processes. */
  lemma {:induction false} FirstRunRule(c: Criterion, rem: seq<Process>, time: int, k: nat, run: Run, rest: seq<Run>)
    requires Sorted(ByArrivalThen(c), rem) && k < |rem| && run.proc == rem[k]
    requires run.start == (if Idle(rem, time) then rem[0].arrival else time)
    requires time <= run.start && Chosen(c, rem, run.start, k)
    requires multiset(Procs(rest)) == multiset(RemoveAt(rem, k))
    ensures time < run.start ==> run.start == run.proc.arrival
    ensures time < run.start ==> forall j :: 0 <= j < |rest| ==> run.start <= rest[j].proc.arrival
    ensures forall j :: 0 <= j < |rest| && rest[j].proc.arrival <= run.start ==>
      || Sel(c, run.proc) < Sel(c, rest[j].proc)
      || (Sel(c, run.proc) == Sel(c, rest[j].proc) && run.proc.arrival <= rest[j].proc.arrival)
  {
    var left := RemoveAt(rem, k);
    if time < run.start && k > 0 {
      ArrivalFirst(c, rem[0], rem[k]);
    }
    forall j | 0 <= j < |rest|
      ensures time < run.start ==> run.start <= rest[j].proc.arrival
      ensures rest[j].proc.arrival <= run.start ==>
        || Sel(c, run.proc) < Sel(c, rest[j].proc)
        || (Sel(c, run.proc) == Sel(c, rest[j].proc) && run.proc.arrival <= rest[j].proc.arrival)
    {
      assert rest[j].proc == Procs(rest)[j];
      assert rest[j].proc in multiset(left);
      var x := IndexOf(left, rest[j].proc);
      OtherRunRule(c, rem, time, k, run, if x < k then x else x + 1);
    }
  }

  /** What the first run owes the selection rule with respect to one other remaining process. */
  lemma OtherRunRule(c: Criterion, rem: seq<Process>, time: int, k: nat, run: Run, y: nat)
    requires Sorted(ByArrivalThen(c), rem) && k < |rem| && run.proc == rem[k] && y < |rem| && y != k
    requires run.start == (if Idle(rem, time) then rem[0].arrival else time)
    requires time <= run.start && Chosen(c, rem, run.start, k)
    ensures time < run.start ==> run.start <= rem[y].arrival
    ensures rem[y].arrival <= run.start ==>
      || Sel(c, run.proc) < Sel(c, rem[y])
      || (Sel(c, run.proc) == Sel(c, rem[y]) && run.proc.arrival <= rem[y].arrival)
  {
    if time < run.start && y > 0 {
      ArrivalFirst(c, rem[0], rem[y]);
    }
    if y > k {
      ArrivalFirst(c, rem[k], rem[y]);
    }
  }

  lemma {:induction false} ClockedCons(run: Run, rest: seq<Run>, time: int)
    requires Clocked(rest, run.end) && time <= run.start
    ensures Clocked([run] + rest, time)
  {
    var runs := [run] + rest;
    forall i | 1 <= i < |runs|
      ensures ClockAt(runs, i, time) <= runs[i].start
    {
      assert runs[i] == rest[i - 1] && ClockAt(runs, i, time) == ClockAt(rest, i - 1, run.end);
    }
  }

  lemma {:induction false} IdleJumpsCons(run: Run, rest: seq<Run>, time: int)
    requires IdleJumps(rest, run.end)
    requires time < run.start ==> run.start == run.proc.arrival
    requires time < run.start ==> forall j :: 0 <= j < |rest| ==> run.start <= rest[j].proc.arrival
    ensures IdleJumps([run] + rest, time)
  {
    var runs := [run] + rest;
    forall i | 1 <= i < |runs|
      ensures runs[i] == rest[i - 1] && ClockAt(runs, i, time) == ClockAt(rest, i - 1, run.end)
    {
    }
    forall i, j | 0 <= i <= j < |runs| && ClockAt(runs, i, time) < runs[i].start
      ensures runs[i].start <= runs[j].proc.arrival
    {
      if i > 0 {
        assert runs[j] == rest[j - 1];
      } else if j > 0 {
        assert runs[j] == rest[j - 1];
      }
    }
  }

  lemma {:induction false} PicksInOrderCons(c: Criterion, run: Run, rest: seq<Run>)
    requires PicksInOrder(c, rest)
    requires forall j :: 0 <= j < |rest| && rest[j].proc.arrival <= run.start ==>
      || Sel(c, run.proc) < Sel(c, rest[j].proc)
      || (Sel(c, run.proc) == Sel(c, rest[j].proc) && run.proc.arrival <= rest[j].proc.arrival)
    ensures PicksInOrder(c, [run] + rest)
  {
    var runs := [run] + rest;
    forall i, j | 0 <= i < j < |runs| && runs[j].proc.arrival <= runs[i].start
      ensures || Sel(c, runs[i].proc) < Sel(c, runs[j].proc)
              || (Sel(c, runs[i].proc) == Sel(c, runs[j].proc) && runs[i].proc.arrival <= runs[j].proc.arrival)
    {
      assert runs[j] == rest[j - 1];
      if i > 0 {
        assert runs[i] == rest[i - 1];
      }
    }
  }

  /** From a list sorted by arrival, every run of the loop keeps the selection rule: removing
      a process keeps the list sorted (`Sorting.SortedRemoveAt`). */
  lemma {:induction false} PickRunsFollowRule(c: Criterion, rem: seq<Process>, time: int)
    requires Sorted(ByArrivalThen(c), rem)
    ensures FollowsRule(c, PickRuns(c, rem, time), time)
    decreases |rem|
  {
    if |rem| > 0 {
      var k, run := PickRunsHead(c, rem, time);
      var left := RemoveAt(rem, k);
      var rest := PickRuns(c, left, run.end);
      SortedRemoveAt(ByArrivalThen(c), rem, k);
      PickRunsFollowRule(c, left, run.end);
      PickRunsProcs(c, left, run.end);
      FirstRunRule(c, rem, time, k, run, rest);
      ClockedCons(run, rest, time);
      IdleJumpsCons(run, rest, time);
      PicksInOrderCons(c, run, rest);
    }
  }

  /** Removing the `b`-th element, which no earlier element ties with, takes it off the front
      of its tied elements. */
  lemma {:induction false} TiedRemoveAt(o: SortOrder, rem: seq<Process>, b: nat, k: Process)
    requires b < |rem| && forall i :: 0 <= i < b ==> Key(o, rem[i]) != Key(o, rem[b])
    ensures Tied(o, rem, k) == (if Key(o, rem[b]) == Key(o, k) then [rem[b]] else []) + Tied(o, RemoveAt(rem, b), k)
  {
    if b == 0 {
      RemoveAtHead(rem);
    } else {
      var t := rem[1..];
      assert t[b - 1] == rem[b];
      assert forall i :: 0 <= i < b - 1 ==> t[i] == rem[i + 1];
      TiedRemoveAt(o, t, b - 1, k);
      RemoveAtCons(rem, b);
      TiedCons(o, rem[0], RemoveAt(t, b - 1), k);
      assert rem == [rem[0]] + t;
      TiedCons(o, rem[0], t, k);
      SwapFronts(if Key(o, rem[0]) == Key(o, k) then [rem[0]] else [],
                 if Key(o, rem[b]) == Key(o, k) then [rem[b]] else [], Tied(o, RemoveAt(t, b - 1), k));
    }
  }

  /** The loop runs processes that tie on both arrival and criterion in their order in `rem`. */
  lemma {:induction false} PickRunsTied(c: Criterion, rem: seq<Process>, time: int, k: Process)
    ensures Tied(ByArrivalThen(c), Procs(PickRuns(c, rem, time)), k) == Tied(ByArrivalThen(c), rem, k)
    decreases |rem|
  {
    if |rem| > 0 {
      var o := ByArrivalThen(c);
      var b, run := PickRunsHead(c, rem, time);
      var rest := PickRuns(c, RemoveAt(rem, b), run.end);
      PickRunsTied(c, RemoveAt(rem, b), run.end, k);
      assert forall i :: 0 <= i < b ==> Key(o, rem[i]) != Key(o, rem[b]);
      TiedRemoveAt(o, rem, b, k);
      ProcsCons(run, rest);
      TiedCons(o, rem[b], Procs(rest), k);
    }
  }

  /** SJF and Priority choose by the rule at every run: the process run has the smallest
      criterion value among the arrived processes, then the earliest arrival; an idle CPU jumps
      to the earliest remaining arrival; and processes that tie on both run in their list
      order. */
  lemma PickScheduleRule(c: Criterion, ps: seq<Process>, k: Process)
    ensures FollowsRule(c, PickRuns(c, StableSort(ByArrivalThen(c), ps), 0), 0)
    ensures Tied(ByArrivalThen(c), Procs(PickRuns(c, StableSort(ByArrivalThen(c), ps), 0)), k)
      == Tied(ByArrivalThen(c), ps, k)
  {
    var sorted := StableSort(ByArrivalThen(c), ps);
    PickRunsFollowRule(c, sorted, 0);
    PickRunsTied(c, sorted, 0, k);
    StableSortIsStable(ByArrivalThen(c), ps, k);
  }

  /** SJF and Priority schedule every process once, to completion, in a well-formed timeline. */
  lemma PickWellFormed(c: Criterion, ps: seq<Process>)
    requires ValidProcesses(ps)
    ensures RunsToCompletion(ps, PickRuns(c, StableSort(ByArrivalThen(c), ps), 0))
    ensures WellFormedSchedule(ps, PickSchedule(c, ps))
  {
    var sorted := StableSort(ByArrivalThen(c), ps);
    PermutationValid(ps, sorted);
    PickRunsOrdered(c, sorted, 0);
    PickRunsProcs(c, sorted, 0);
    CompleteRunsWellFormed(ps, sorted, PickRuns(c, sorted, 0));
  }

  /** Only one position meets the rule of `Chosen`. */
  lemma ChosenUnique(c: Criterion, rem: seq<Process>, now: int, k: nat, k': nat)
    requires k < |rem| && k' < |rem| && Chosen(c, rem, now, k) && Chosen(c, rem, now, k')
    ensures k == k'
  {
  }

  lemma PickRunsAt(c: Criterion, rem: seq<Process>, time: int, k: nat, start: int)
    requires k < |rem|
    requires start == (if Idle(rem, time) then rem[0].arrival else time)
    requires Chosen(c, rem, start, k)
    ensures PickRuns(c, rem, time) ==
      [Complete(rem[k], start)] + PickRuns(c, RemoveAt(rem, k), Complete(rem[k], start).end)
  {
    var k', run := PickRunsHead(c, rem, time);
    ChosenUnique(c, rem, start, k, k');
  }

  lemma SampleSortedByArrivalThen(c: Criterion)
    ensures StableSort(ByArrivalThen(c), SampleProcesses()) == SampleProcesses()
  {
    assert Sorted(ByArrivalThen(c), SampleProcesses());
    StableSortOfSorted(ByArrivalThen(c), SampleProcesses());
  }

  /** Both criteria start with P1, alone at time 0, then take P2 at time 5: it has both the
      shortest burst and the highest priority of P2, P3 and P4. */
  lemma SampleStep0(c: Criterion)
    ensures PickRuns(c, [P1, P2, P3, P4], 0) == [Complete(P1, 0)] + PickRuns(c, [P2, P3, P4], 5)
  {
    PickRunsAt(c, [P1, P2, P3, P4], 0, 0, 0);
    assert RemoveAt([P1, P2, P3, P4], 0) == [P2, P3, P4];
  }

  lemma SampleStep1(c: Criterion)
    ensures PickRuns(c, [P2, P3, P4], 5) == [Complete(P2, 5)] + PickRuns(c, [P3, P4], 8)
  {
    PickRunsAt(c, [P2, P3, P4], 5, 0, 5);
    assert RemoveAt([P2, P3, P4], 0) == [P3, P4];
  }

  /** At time 8 only P3 and P4 remain: SJF takes P4 (burst 6 against 8). */
  lemma SjfStep2(c: Criterion)
    requires c == ShortestBurst
    ensures PickRuns(c, [P3, P4], 8) == [Complete(P4, 8)] + PickRuns(c, [P3], 14)
  {
    PickRunsAt(c, [P3, P4], 8, 1, 8);
    assert RemoveAt([P3, P4], 1) == [P3];
  }

  /** At time 8 Priority takes P3 (priority 3 against 4). */
  lemma PriorityStep2(c: Criterion)
    requires c == LowestPriority
    ensures PickRuns(c, [P3, P4], 8) == [Complete(P3, 8)] + PickRuns(c, [P4], 16)
  {
    PickRunsAt(c, [P3, P4], 8, 0, 8);
    assert RemoveAt([P3, P4], 0) == [P4];
  }

  /** The last process left runs from the clock when it has arrived. */
  lemma LastStep(c: Criterion, p: Process, time: int)
    requires p.arrival <= time
    ensures PickRuns(c, [p], time) == [Complete(p, time)]
  {
    PickRunsAt(c, [p], time, 0, time);
    assert RemoveAt([p], 0) == [];
  }

  /** Four runs, each followed by the runs of the next step. */
  lemma RunsChain(r0: seq<Run>, r1: seq<Run>, r2: seq<Run>, r3: seq<Run>, a: Run, b: Run, d: Run, e: Run)
    requires r0 == [a] + r1 && r1 == [b] + r2 && r2 == [d] + r3 && r3 == [e]
    ensures Intervals(r0) == [Interval(a.proc.id, a.start, a.end, a.proc.color),
      Interval(b.proc.id, b.start, b.end, b.proc.color), Interval(d.proc.id, d.start, d.end, d.proc.color),
      Interval(e.proc.id, e.start, e.end, e.proc.color)]
  {
    assert r0 == [a, b, d, e];
  }

  /** SJF on the sample list: P1 [0,5), P2 [5,8), P4 [8,14), P3 [14,22). */
  lemma SjfSample()
    ensures PickSchedule(ShortestBurst, SampleProcesses()) ==
      [Interval("P1", 0, 5, 0), Interval("P2", 5, 8, 1), Interval("P4", 8, 14, 3), Interval("P3", 14, 22, 2)]
  {
    var c := ShortestBurst;
    SampleSortedByArrivalThen(c);
    SampleStep0(c);
    SampleStep1(c);
    SjfStep2(c);
    LastStep(c, P3, 14);
    RunsChain(PickRuns(c, [P1, P2, P3, P4], 0), PickRuns(c, [P2, P3, P4], 5), PickRuns(c, [P3, P4], 8),
      PickRuns(c, [P3], 14), Complete(P1, 0), Complete(P2, 5), Complete(P4, 8), Complete(P3, 14));
  }

  /** Priority on the sample list: P1 [0,5), P2 [5,8), P3 [8,16), P4 [16,22). */
  lemma PrioritySample()
    ensures PickSchedule(LowestPriority, SampleProcesses()) ==
      [Interval("P1", 0, 5, 0), Interval("P2", 5, 8, 1), Interval("P3", 8, 16, 2), Interval("P4", 16, 22, 3)]
  {
    var c := LowestPriority;
    SampleSortedByArrivalThen(c);
    SampleStep0(c);
    SampleStep1(c);
    PriorityStep2(c);
    LastStep(c, P4, 16);
    RunsChain(PickRuns(c, [P1, P2, P3, P4], 0), PickRuns(c, [P2, P3, P4], 5), PickRuns(c, [P3, P4], 8),
      PickRuns(c, [P4], 16), Complete(P1, 0), Complete(P2, 5), Complete(P3, 8), Complete(P4, 16));
  }
}
