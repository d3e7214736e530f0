/** `scheduleRoundRobin(quantum)` as written: a FIFO queue of process indices, per-process
    `remainingBurst` and `inQueue` flags, an idle clock that advances one unit per pass, and a
    rescan after every slice that can enqueue the process just run before the explicit
    re-enqueue appends it once more. */
module RoundRobin {
  import opened Types
  import opened Timeline

  /** The loop's variables: `remainingBurst` and `inQueue` of each process by index, the
      queue of indices, the clock and the schedule so far. */
  datatype RrState = RrState(remaining: seq<int>, inQueue: seq<bool>, queue: seq<nat>, time: int,
                             schedule: seq<Interval>)

  predicate Shaped(ps: seq<Process>, st: RrState) {
    && |st.remaining| == |ps| && |st.inQueue| == |ps|
    && forall m :: 0 <= m < |st.queue| ==> st.queue[m] < |ps|
  }

  /** The test of the `forEach` scans; the scan before the loop omits the remaining-burst test. */
  predicate Eligible(ps: seq<Process>, st: RrState, checkWork: bool, j: nat)
    requires Shaped(ps, st) && j < |ps|
  {
    ps[j].arrival <= st.time && !st.inQueue[j] && (!checkWork || st.remaining[j] > 0)
  }

  /** The scan `remaining.forEach(...)` from index `i` on: every eligible process is pushed and
      flagged, in index order. */
  function Enqueue(ps: seq<Process>, st: RrState, checkWork: bool, i: nat): (r: RrState)
    requires Shaped(ps, st) && i <= |ps|
    ensures Shaped(ps, r)
    ensures r.remaining == st.remaining && r.time == st.time && r.schedule == st.schedule
    decreases |ps| - i
  {
    if i == |ps| then st
    else
      var next := if Eligible(ps, st, checkWork, i)
        then st.(queue := st.queue + [i], inQueue := st.inQueue[i := true])
        else st;
      Enqueue(ps, next, checkWork, i + 1)
  }

  /** Flagging process `i` does not change whether a later process is eligible. */
  lemma EligibleLater(ps: seq<Process>, st: RrState, checkWork: bool, i: nat)
    requires Shaped(ps, st) && i < |ps|
    ensures var next := if Eligible(ps, st, checkWork, i)
        then st.(queue := st.queue + [i], inQueue := st.inQueue[i := true])
        else st;
      forall j :: i < j < |ps| ==> Eligible(ps, next, checkWork, j) == Eligible(ps, st, checkWork, j)
  {
  }

  /** After a scan from `i`, a process is flagged iff it was, or it is at or after `i` and
      was eligible. */
  lemma {:induction false} EnqueueFlags(ps: seq<Process>, st: RrState, checkWork: bool, i: nat)
    requires Shaped(ps, st) && i <= |ps|
    ensures var r := Enqueue(ps, st, checkWork, i);
      forall j :: 0 <= j < |ps| ==> r.inQueue[j] == (st.inQueue[j] || (i <= j && Eligible(ps, st, checkWork, j)))
    decreases |ps| - i
  {
    if i < |ps| {
      var next := if Eligible(ps, st, checkWork, i)
        then st.(queue := st.queue + [i], inQueue := st.inQueue[i := true])
        else st;
      EligibleLater(ps, st, checkWork, i);
      EnqueueFlags(ps, next, checkWork, i + 1);
    }
  }

  /** A scan only appends, and what it appends are eligible processes from `i` on. */
  lemma {:induction false} EnqueueAppends(ps: seq<Process>, st: RrState, checkWork: bool, i: nat)
    requires Shaped(ps, st) && i <= |ps|
    ensures var r := Enqueue(ps, st, checkWork, i);
      && |st.queue| <= |r.queue| && r.queue[..|st.queue|] == st.queue
      && forall m :: |st.queue| <= m < |r.queue| ==>
        i <= r.queue[m] < |ps| && Eligible(ps, st, checkWork, r.queue[m])
    decreases |ps| - i
  {
    if i < |ps| {
      var next := if Eligible(ps, st, checkWork, i)
        then st.(queue := st.queue + [i], inQueue := st.inQueue[i := true])
        else st;
      EligibleLater(ps, st, checkWork, i);
      EnqueueAppends(ps, next, checkWork, i + 1);
      var r := Enqueue(ps, next, checkWork, i + 1);
      assert r.queue[..|next.queue|] == next.queue;
      assert r.queue[..|st.queue|] == next.queue[..|st.queue|];
    }
  }

  /** A scan appends every eligible process from `i` on. */
  lemma {:induction false} EnqueueAll(ps: seq<Process>, st: RrState, checkWork: bool, i: nat)
    requires Shaped(ps, st) && i <= |ps|
    ensures var r := Enqueue(ps, st, checkWork, i);
      && |st.queue| <= |r.queue|
      && forall j :: i <= j < |ps| && Eligible(ps, st, checkWork, j) ==> j in r.queue[|st.queue|..]
    decreases |ps| - i
  {
    EnqueueAppends(ps, st, checkWork, i);
    if i < |ps| {
      var next := if Eligible(ps, st, checkWork, i)
        then st.(queue := st.queue + [i], inQueue := st.inQueue[i := true])
        else st;
      EligibleLater(ps, st, checkWork, i);
      EnqueueAll(ps, next, checkWork, i + 1);
      EnqueueAppends(ps, next, checkWork, i + 1);
      var r := Enqueue(ps, next, checkWork, i + 1);
      if Eligible(ps, st, checkWork, i) {
        assert r.queue[|st.queue|] == next.queue[|st.queue|] == i;
      }
      assert r.queue[|next.queue|..] == r.queue[|st.queue|..][|next.queue| - |st.queue|..];
    }
  }

  /** A scan that finds nobody eligible changes nothing. */
  lemma {:induction false} EnqueueNone(ps: seq<Process>, st: RrState, checkWork: bool, i: nat)
    requires Shaped(ps, st) && i <= |ps|
    requires forall j :: i <= j < |ps| ==> !Eligible(ps, st, checkWork, j)
    ensures Enqueue(ps, st, checkWork, i) == st
    decreases |ps| - i
  {
    if i < |ps| {
      EnqueueNone(ps, st, checkWork, i + 1);
    }
  }

  /** `queue.shift()`, clearing its flag, then the slice `execTime = Math.min(quantum,
      remainingBurst)` from the current clock, pushed onto the schedule. */
  function Dispatch(ps: seq<Process>, quantum: int, st: RrState): (r: RrState)
    requires Shaped(ps, st) && |st.queue| > 0
    ensures Shaped(ps, r)
  {
    var k := st.queue[0];
    var exec := Min(quantum, st.remaining[k]);
    RrState(st.remaining[k := st.remaining[k] - exec], st.inQueue[k := false], st.queue[1..],
            st.time + exec, st.schedule + [Interval(ps[k].id, st.time, st.time + exec, ps[k].color)])
  }

  /** `if (proc.remainingBurst > 0) { queue.push(proc); proc.inQueue = true }`. */
  function Requeue(ps: seq<Process>, st: RrState, k: nat): (r: RrState)
    requires Shaped(ps, st) && k < |ps|
    ensures Shaped(ps, r)
  {
    if st.remaining[k] > 0 then st.(queue := st.queue + [k], inQueue := st.inQueue[k := true]) else st
  }

  /** One pass of the `while` loop: scan; with an empty queue tick the clock, otherwise run the
      head for one slice, rescan and re-enqueue it if it has work left. */
  function Step(ps: seq<Process>, quantum: int, st: RrState): (r: RrState)
    requires Shaped(ps, st)
    ensures Shaped(ps, r)
    ensures |st.schedule| <= |r.schedule| <= |st.schedule| + 1 && r.schedule[..|st.schedule|] == st.schedule
  {
    var scanned := Enqueue(ps, st, true, 0);
    if |scanned.queue| == 0 then scanned.(time := scanned.time + 1)
    else Requeue(ps, Enqueue(ps, Dispatch(ps, quantum, scanned), true, 0), scanned.queue[0])
  }

  /** `remaining.some((p) => p.remainingBurst > 0)`. */
  function HasWork(rem: seq<int>): (b: bool)
    ensures b <==> exists j :: 0 <= j < |rem| && rem[j] > 0
  {
    if rem == [] then false
    else if rem[0] > 0 then true
    else
      assert forall j :: 1 <= j < |rem| ==> rem[j] == rem[1..][j - 1];
      HasWork(rem[1..])
  }

  /** The loop condition. */
  predicate Busy(st: RrState) {
    |st.queue| > 0 || HasWork(st.remaining)
  }

  /** Every process that has arrived and has work left is flagged. */
  predicate Saturated(ps: seq<Process>, st: RrState)
    requires Shaped(ps, st)
  {
    forall j :: 0 <= j < |ps| && ps[j].arrival <= st.time && st.remaining[j] > 0 ==> st.inQueue[j]
  }

  /** `inQueue` implies a copy of the process in the queue. */
  predicate Flagged(ps: seq<Process>, st: RrState)
    requires Shaped(ps, st)
  {
    forall j :: 0 <= j < |ps| && st.inQueue[j] ==> j in st.queue
  }

  /** What holds at the head of every pass. */
  predicate RrInv(ps: seq<Process>, st: RrState) {
    && Shaped(ps, st)
    && (forall j :: 0 <= j < |ps| ==> st.remaining[j] >= 0)
    && Flagged(ps, st)
    && (|st.queue| == 0 || Saturated(ps, st))
  }

  /** Work left: the sum of the positive remaining bursts. */
  function Work(rem: seq<int>): nat {
    if rem == [] then 0 else (if rem[0] > 0 then rem[0] else 0) + Work(rem[1..])
  }

  function MaxArrival(ps: seq<Process>): (m: int)
    ensures forall j :: 0 <= j < |ps| ==> ps[j].arrival <= m
  {
    if ps == [] then 0
    else
      assert forall j :: 1 <= j < |ps| ==> ps[j] == ps[1..][j - 1];
      Max(ps[0].arrival, MaxArrival(ps[1..]))
  }

  /** Clock ticks until the last arrival. */
  function Wait(ps: seq<Process>, st: RrState): nat {
    if st.time < MaxArrival(ps) then MaxArrival(ps) - st.time else 0
  }

  /** Running process `k` for `e` units of its non-negative remaining burst takes `e` off the work. */
  lemma {:induction false} WorkRun(rem: seq<int>, k: nat, e: int)
    requires k < |rem| && 0 <= e <= rem[k]
    ensures Work(rem[k := rem[k] - e]) == Work(rem) - e
  {
    if k > 0 {
      WorkRun(rem[1..], k - 1, e);
      assert rem[k := rem[k] - e][1..] == rem[1..][k - 1 := rem[k] - e];
    }
  }

  /** A scan keeps the flags sound, and the rescan leaves every arrived process with work flagged. */
  lemma EnqueueKeeps(ps: seq<Process>, st: RrState, checkWork: bool)
    requires Shaped(ps, st) && Flagged(ps, st)
    ensures Flagged(ps, Enqueue(ps, st, checkWork, 0))
    ensures checkWork ==> Saturated(ps, Enqueue(ps, st, checkWork, 0))
  {
    var r := Enqueue(ps, st, checkWork, 0);
    EnqueueFlags(ps, st, checkWork, 0);
    EnqueueAppends(ps, st, checkWork, 0);
    EnqueueAll(ps, st, checkWork, 0);
    forall j | 0 <= j < |ps| && r.inQueue[j] ensures j in r.queue {
      if st.inQueue[j] {
        var m := IndexOf(st.queue, j);
        assert r.queue[m] == st.queue[m];
      } else {
        var m := IndexOf(r.queue[|st.queue|..], j);
        assert r.queue[|st.queue| + m] == j;
      }
    }
  }

  /** The measure `Work, Wait, |queue|` goes down lexicographically. */
  predicate Decreases(ps: seq<Process>, st: RrState, next: RrState) {
    || Work(next.remaining) < Work(st.remaining)
    || (&& Work(next.remaining) == Work(st.remaining)
        && (|| Wait(ps, next) < Wait(ps, st)
            || (Wait(ps, next) == Wait(ps, st) && |next.queue| < |st.queue|)))
  }

  /** An idle pass happens only before some process with work has arrived; it ticks toward it. */
  lemma StepIdle(ps: seq<Process>, quantum: int, st: RrState)
    requires RrInv(ps, st) && Busy(st) && |Enqueue(ps, st, true, 0).queue| == 0
    ensures RrInv(ps, Step(ps, quantum, st)) && Decreases(ps, st, Step(ps, quantum, st))
  {
    var scanned := Enqueue(ps, st, true, 0);
    EnqueueAppends(ps, st, true, 0);
    EnqueueKeeps(ps, st, true);
    assert |st.queue| == 0;
    var j :| 0 <= j < |ps| && st.remaining[j] > 0;
    assert !scanned.inQueue[j];
    assert st.time < ps[j].arrival <= MaxArrival(ps);
  }

  /** A pass that runs the head keeps the invariant. */
  lemma StepRunKeeps(ps: seq<Process>, quantum: int, st: RrState)
    requires RrInv(ps, st) && |Enqueue(ps, st, true, 0).queue| > 0
    ensures RrInv(ps, Step(ps, quantum, st))
  {
    var scanned := Enqueue(ps, st, true, 0);
    EnqueueKeeps(ps, st, true);
    DispatchFlagged(ps, quantum, scanned);
    var ran := Dispatch(ps, quantum, scanned);
    EnqueueKeeps(ps, ran, true);
    RequeueKeeps(ps, Enqueue(ps, ran, true, 0), scanned.queue[0]);
  }

  /** Clearing the head's flag as it leaves the queue keeps the flags sound. */
  lemma DispatchFlagged(ps: seq<Process>, quantum: int, st: RrState)
    requires Shaped(ps, st) && |st.queue| > 0 && Flagged(ps, st)
    requires forall j :: 0 <= j < |ps| ==> st.remaining[j] >= 0
    ensures Flagged(ps, Dispatch(ps, quantum, st))
    ensures forall j :: 0 <= j < |ps| ==> Dispatch(ps, quantum, st).remaining[j] >= 0
  {
    var ran := Dispatch(ps, quantum, st);
    forall j | 0 <= j < |ps| && ran.inQueue[j] ensures j in ran.queue {
      var m := IndexOf(st.queue, j);
      assert ran.queue[m - 1] == j;
    }
  }

  lemma RequeueKeeps(ps: seq<Process>, st: RrState, k: nat)
    requires Shaped(ps, st) && k < |ps| && Flagged(ps, st) && Saturated(ps, st)
    requires forall j :: 0 <= j < |ps| ==> st.remaining[j] >= 0
    ensures RrInv(ps, Requeue(ps, st, k))
  {
  }

  /** Running a head with work left takes work off. */
  lemma StepRunDecreases(ps: seq<Process>, quantum: int, st: RrState)
    requires RrInv(ps, st) && quantum > 0
    requires var scanned := Enqueue(ps, st, true, 0);
      |scanned.queue| > 0 && scanned.remaining[scanned.queue[0]] > 0
    ensures Work(Step(ps, quantum, st).remaining) < Work(st.remaining)
  {
    var scanned := Enqueue(ps, st, true, 0);
    var k := scanned.queue[0];
    WorkRun(st.remaining, k, Min(quantum, st.remaining[k]));
  }

  /** Dequeuing an exhausted copy of a process emits a slice of length zero, moves neither the
      clock nor the work, and shortens the queue. */
  lemma StepExhausted(ps: seq<Process>, quantum: int, st: RrState)
    requires RrInv(ps, st) && quantum > 0
    requires var scanned := Enqueue(ps, st, true, 0);
      |scanned.queue| > 0 && scanned.remaining[scanned.queue[0]] == 0
    ensures var next := Step(ps, quantum, st);
      && |st.queue| > 0
      && next.remaining == st.remaining && next.time == st.time && |next.queue| == |st.queue| - 1
      && next.schedule == st.schedule + [Interval(ps[st.queue[0]].id, st.time, st.time, ps[st.queue[0]].color)]
  {
    var scanned := Enqueue(ps, st, true, 0);
    EnqueueAppends(ps, st, true, 0);
    assert |st.queue| > 0;
    EnqueueNone(ps, st, true, 0);
    var k := st.queue[0];
    var ran := Dispatch(ps, quantum, st);
    assert ran.remaining == st.remaining;
    forall j | 0 <= j < |ps| ensures !Eligible(ps, ran, true, j) {
      if j != k {
        assert ran.inQueue[j] == st.inQueue[j];
      }
    }
    EnqueueNone(ps, ran, true, 0);
  }

  /** Every pass keeps the invariant and lowers the measure. */
  lemma StepKeeps(ps: seq<Process>, quantum: int, st: RrState)
    requires RrInv(ps, st) && Busy(st) && quantum > 0
    ensures RrInv(ps, Step(ps, quantum, st)) && Decreases(ps, st, Step(ps, quantum, st))
  {
    var scanned := Enqueue(ps, st, true, 0);
    if |scanned.queue| == 0 {
      StepIdle(ps, quantum, st);
    } else {
      StepRunKeeps(ps, quantum, st);
      if scanned.remaining[scanned.queue[0]] > 0 {
        StepRunDecreases(ps, quantum, st);
      } else {
        StepExhausted(ps, quantum, st);
      }
    }
  }

  /** The `while` loop, run to its exit. */
  function Loop(ps: seq<Process>, quantum: int, st: RrState): (r: RrState)
    requires RrInv(ps, st) && quantum > 0
    decreases Work(st.remaining), Wait(ps, st), |st.queue|
  {
    if !Busy(st) then st
    else
      StepKeeps(ps, quantum, st);
      Loop(ps, quantum, Step(ps, quantum, st))
  }

  /** `processes.map((p) => ({...p, remainingBurst: p.burst, inQueue: false}))` with an empty
      queue and schedule at time 0, followed by the scan before the loop. */
  function Initial(ps: seq<Process>): (r: RrState)
    ensures Shaped(ps, r)
  {
    var start := RrState(seq(|ps|, j requires 0 <= j < |ps| => ps[j].burst), seq(|ps|, _ => false), [], 0, []);
    Enqueue(ps, start, false, 0)
  }

  /** With non-negative bursts the loop starts in its invariant. */
  lemma InitialInv(ps: seq<Process>)
    requires forall j :: 0 <= j < |ps| ==> ps[j].burst >= 0
    ensures RrInv(ps, Initial(ps))
  {
    var start := RrState(seq(|ps|, j requires 0 <= j < |ps| => ps[j].burst), seq(|ps|, _ => false), [], 0, []);
    EnqueueKeeps(ps, start, false);
    EnqueueFlags(ps, start, false, 0);
  }

  /** The schedule `scheduleRoundRobin(quantum)` returns. For a list with unique ids it gives
      every process exactly its burst, in ordered slices of at most a quantum that start no
      earlier than their process's arrival. */
  function RrSchedule(ps: seq<Process>, quantum: int): (s: seq<Interval>)
    requires quantum > 0 && forall j :: 0 <= j < |ps| ==> ps[j].burst >= 0
    ensures UniqueIds(ps) ==> WellFormedSchedule(ps, s)
    ensures UniqueIds(ps) ==> forall i :: 0 <= i < |s| ==> s[i].end - s[i].start <= quantum
  {
    InitialInv(ps);
    var r := Loop(ps, quantum, Initial(ps));
    if UniqueIds(ps) then
      InitialSlices(ps, quantum);
      LoopSlices(ps, quantum, Initial(ps));
      LoopExit(ps, quantum, Initial(ps));
      r.schedule
    else r.schedule
  }

  /** A `remaining.forEach(...)` scan over the `inQueue` flags kept in an array. */
  method EnqueueArrived(ps: seq<Process>, remaining: array<int>, inQueue: array<bool>, queue: seq<nat>,
                        time: int, checkWork: bool, ghost schedule: seq<Interval>) returns (queue': seq<nat>)
    requires remaining.Length == |ps| && inQueue.Length == |ps|
    requires forall m :: 0 <= m < |queue| ==> queue[m] < |ps|
    modifies inQueue
    ensures RrState(remaining[..], inQueue[..], queue', time, schedule)
      == Enqueue(ps, RrState(remaining[..], old(inQueue[..]), queue, time, schedule), checkWork, 0)
  {
    ghost var goal := Enqueue(ps, RrState(remaining[..], inQueue[..], queue, time, schedule), checkWork, 0);
    queue' := queue;
    for i := 0 to |ps|
      invariant forall m :: 0 <= m < |queue'| ==> queue'[m] < |ps|
      invariant Enqueue(ps, RrState(remaining[..], inQueue[..], queue', time, schedule), checkWork, i) == goal
    {
      if ps[i].arrival <= time && !inQueue[i] && (!checkWork || remaining[i] > 0) {
        queue' := queue' + [i];
        inQueue[i] := true;
      }
    }
  }

  /** `scheduleRoundRobin(quantum)` over the list `ps`. */
  method ScheduleRoundRobin(ps: seq<Process>, quantum: int) returns (schedule: seq<Interval>)
    requires quantum > 0
    requires forall j :: 0 <= j < |ps| ==> ps[j].burst >= 0
    ensures schedule == RrSchedule(ps, quantum)
  {
    var remaining := new int[|ps|](j requires 0 <= j < |ps| => ps[j].burst);
    var inQueue := new bool[|ps|](_ => false);
    schedule := [];
    var time := 0;
    var queue: seq<nat> := [];
    assert remaining[..] == seq(|ps|, j requires 0 <= j < |ps| => ps[j].burst);
    assert inQueue[..] == seq(|ps|, _ => false);
    queue := EnqueueArrived(ps, remaining, inQueue, queue, time, false, schedule);
    InitialInv(ps);
    ghost var goal := RrSchedule(ps, quantum);
    while |queue| > 0 || HasWork(remaining[..])
      invariant remaining.Length == |ps| && inQueue.Length == |ps|
      invariant RrInv(ps, RrState(remaining[..], inQueue[..], queue, time, schedule))
      invariant Loop(ps, quantum, RrState(remaining[..], inQueue[..], queue, time, schedule)).schedule == goal
      decreases Work(remaining[..]), Wait(ps, RrState(remaining[..], inQueue[..], queue, time, schedule)), |queue|
    {
      ghost var before := RrState(remaining[..], inQueue[..], queue, time, schedule);
      StepKeeps(ps, quantum, before);
      queue, time, schedule := Pass(ps, quantum, remaining, inQueue, queue, time, schedule);
    }
  }

  /** One pass of the `while` loop on the arrays. */
  method Pass(ps: seq<Process>, quantum: int, remaining: array<int>, inQueue: array<bool>, queue: seq<nat>,
              time: int, schedule: seq<Interval>) returns (queue': seq<nat>, time': int, schedule': seq<Interval>)
    requires remaining.Length == |ps| && inQueue.Length == |ps|
    requires forall m :: 0 <= m < |queue| ==> queue[m] < |ps|
    modifies remaining, inQueue
    ensures RrState(remaining[..], inQueue[..], queue', time', schedule')
      == Step(ps, quantum, RrState(old(remaining[..]), old(inQueue[..]), queue, time, schedule))
  {
    queue' := EnqueueArrived(ps, remaining, inQueue, queue, time, true, schedule);
    time', schedule' := time, schedule;
    if |queue'| == 0 {
      time' := time' + 1;
    } else {
      var k := queue'[0];
      queue', time', schedule' := RunHead(ps, quantum, remaining, inQueue, queue', time', schedule');
      queue' := EnqueueArrived(ps, remaining, inQueue, queue', time', true, schedule');
      if remaining[k] > 0 {
        queue' := queue' + [k];
        inQueue[k] := true;
      }
    }
  }

  /** `queue.shift()`, the slice of `Math.min(quantum, remainingBurst)` and its interval. */
  method RunHead(ps: seq<Process>, quantum: int, remaining: array<int>, inQueue: array<bool>, queue: seq<nat>,
                 time: int, schedule: seq<Interval>) returns (queue': seq<nat>, time': int, schedule': seq<Interval>)
    requires remaining.Length == |ps| && inQueue.Length == |ps| && |queue| > 0
    requires forall m :: 0 <= m < |queue| ==> queue[m] < |ps|
    modifies remaining, inQueue
    ensures RrState(remaining[..], inQueue[..], queue', time', schedule')
      == Dispatch(ps, quantum, RrState(old(remaining[..]), old(inQueue[..]), queue, time, schedule))
  {
    var k := queue[0];
    queue' := queue[1..];
    inQueue[k] := false;
    var execTime := Min(quantum, remaining[k]);
    var start := time;
    var end := start + execTime;
    schedule' := schedule + [Interval(ps[k].id, start, end, ps[k].color)];
    remaining[k] := remaining[k] - execTime;
    time' := end;
  }

  /** What the schedule built so far satisfies, for slices of at most `quantum`: queued
      processes have arrived, intervals are ordered and end by the clock, start after their
      process's arrival, last at most a quantum, and each process's CPU time plus its remaining
      burst is its burst. */
  predicate SliceInv(ps: seq<Process>, quantum: int, st: RrState)
    requires Shaped(ps, st)
  {
    && (forall m :: 0 <= m < |st.queue| ==> ps[st.queue[m]].arrival <= st.time)
    && Ordered(st.schedule)
    && (forall i :: 0 <= i < |st.schedule| ==> st.schedule[i].end <= st.time)
    && StartsAfterArrival(ps, st.schedule)
    && (forall i :: 0 <= i < |st.schedule| ==> st.schedule[i].end - st.schedule[i].start <= quantum)
    && (forall j :: 0 <= j < |ps| ==> TotalLength(st.schedule, ps[j].id) + st.remaining[j] == ps[j].burst)
  }

  lemma EnqueueSlices(ps: seq<Process>, quantum: int, st: RrState, checkWork: bool)
    requires Shaped(ps, st) && SliceInv(ps, quantum, st)
    ensures SliceInv(ps, quantum, Enqueue(ps, st, checkWork, 0))
  {
    var r := Enqueue(ps, st, checkWork, 0);
    EnqueueAppends(ps, st, checkWork, 0);
    forall m | 0 <= m < |r.queue| ensures ps[r.queue[m]].arrival <= r.time {
      if m < |st.queue| {
        assert r.queue[m] == r.queue[..|st.queue|][m];
      }
    }
  }

  /** Running the head for its slice keeps the schedule invariants. */
  lemma DispatchSlices(ps: seq<Process>, quantum: int, st: RrState)
    requires Shaped(ps, st) && |st.queue| > 0 && SliceInv(ps, quantum, st) && UniqueIds(ps) && quantum > 0
    requires forall j :: 0 <= j < |ps| ==> st.remaining[j] >= 0
    ensures SliceInv(ps, quantum, Dispatch(ps, quantum, st))
  {
    DispatchWork(ps, quantum, st);
    DispatchOrder(ps, quantum, st);
    DispatchArrivals(ps, quantum, st);
  }

  lemma DispatchWork(ps: seq<Process>, quantum: int, st: RrState)
    requires Shaped(ps, st) && |st.queue| > 0 && SliceInv(ps, quantum, st) && UniqueIds(ps)
    ensures var ran := Dispatch(ps, quantum, st);
      forall j :: 0 <= j < |ps| ==> TotalLength(ran.schedule, ps[j].id) + ran.remaining[j] == ps[j].burst
  {
    var k := st.queue[0];
    var ran := Dispatch(ps, quantum, st);
    var iv := Interval(ps[k].id, st.time, ran.time, ps[k].color);
    assert ran.schedule == st.schedule + [iv];
    forall j | 0 <= j < |ps| ensures TotalLength(ran.schedule, ps[j].id) + ran.remaining[j] == ps[j].burst {
      TotalLengthAppend(st.schedule, iv, ps[j].id);
      if j != k {
        assert ps[j].id != ps[k].id;
      }
    }
  }

  lemma DispatchOrder(ps: seq<Process>, quantum: int, st: RrState)
    requires Shaped(ps, st) && |st.queue| > 0 && SliceInv(ps, quantum, st) && quantum > 0
    requires forall j :: 0 <= j < |ps| ==> st.remaining[j] >= 0
    ensures var ran := Dispatch(ps, quantum, st);
      && Ordered(ran.schedule)
      && (forall i :: 0 <= i < |ran.schedule| ==> ran.schedule[i].end <= ran.time)
      && (forall i :: 0 <= i < |ran.schedule| ==> ran.schedule[i].end - ran.schedule[i].start <= quantum)
  {
    var ran := Dispatch(ps, quantum, st);
    assert forall i :: 0 <= i < |st.schedule| ==> ran.schedule[i] == st.schedule[i];
  }

  lemma DispatchArrivals(ps: seq<Process>, quantum: int, st: RrState)
    requires Shaped(ps, st) && |st.queue| > 0 && SliceInv(ps, quantum, st) && UniqueIds(ps) && quantum > 0
    requires forall j :: 0 <= j < |ps| ==> st.remaining[j] >= 0
    ensures var ran := Dispatch(ps, quantum, st);
      && (forall m :: 0 <= m < |ran.queue| ==> ps[ran.queue[m]].arrival <= ran.time)
      && StartsAfterArrival(ps, ran.schedule)
  {
    var k := st.queue[0];
    var ran := Dispatch(ps, quantum, st);
    FindUnique(ps, k);
    forall m | 0 <= m < |ran.queue| ensures ps[ran.queue[m]].arrival <= ran.time {
      assert ran.queue[m] == st.queue[m + 1];
    }
    forall i | 0 <= i < |ran.schedule|
      ensures Find(ps, ran.schedule[i].process).Some? && Find(ps, ran.schedule[i].process).value.arrival <= ran.schedule[i].start
    {
      if i < |st.schedule| {
        assert ran.schedule[i] == st.schedule[i];
      }
    }
  }

  lemma RequeueSlices(ps: seq<Process>, quantum: int, st: RrState, k: nat)
    requires Shaped(ps, st) && k < |ps| && SliceInv(ps, quantum, st) && ps[k].arrival <= st.time
    ensures SliceInv(ps, quantum, Requeue(ps, st, k))
  {
  }

  /** A whole pass keeps the schedule invariants. */
  lemma StepSlices(ps: seq<Process>, quantum: int, st: RrState)
    requires RrInv(ps, st) && SliceInv(ps, quantum, st) && UniqueIds(ps) && quantum > 0
    ensures SliceInv(ps, quantum, Step(ps, quantum, st))
  {
    var scanned := Enqueue(ps, st, true, 0);
    EnqueueSlices(ps, quantum, st, true);
    if |scanned.queue| > 0 {
      var k := scanned.queue[0];
      DispatchSlices(ps, quantum, scanned);
      var ran := Dispatch(ps, quantum, scanned);
      assert ps[k].arrival <= scanned.time <= ran.time;
      EnqueueSlices(ps, quantum, ran, true);
      var rescanned := Enqueue(ps, ran, true, 0);
      RequeueSlices(ps, quantum, rescanned, k);
      assert Step(ps, quantum, st) == Requeue(ps, rescanned, k);
    } else {
      assert Step(ps, quantum, st) == scanned.(time := scanned.time + 1);
    }
  }

  /** The loop keeps both invariants. */
  lemma {:induction false} LoopSlices(ps: seq<Process>, quantum: int, st: RrState)
    requires RrInv(ps, st) && SliceInv(ps, quantum, st) && UniqueIds(ps) && quantum > 0
    ensures var r := Loop(ps, quantum, st); RrInv(ps, r) && SliceInv(ps, quantum, r)
    decreases Work(st.remaining), Wait(ps, st), |st.queue|
  {
    if Busy(st) {
      StepKeeps(ps, quantum, st);
      StepSlices(ps, quantum, st);
      LoopSlices(ps, quantum, Step(ps, quantum, st));
    }
  }

  lemma InitialSlices(ps: seq<Process>, quantum: int)
    requires forall j :: 0 <= j < |ps| ==> ps[j].burst >= 0
    ensures SliceInv(ps, quantum, Initial(ps))
  {
    var start := RrState(seq(|ps|, j requires 0 <= j < |ps| => ps[j].burst), seq(|ps|, _ => false), [], 0, []);
    EnqueueSlices(ps, quantum, start, false);
  }

  /** The loop stops only with an empty queue and no remaining burst left. */
  lemma {:induction false} LoopExit(ps: seq<Process>, quantum: int, st: RrState)
    requires RrInv(ps, st) && quantum > 0
    ensures var r := Loop(ps, quantum, st);
      && RrInv(ps, r) && |r.queue| == 0 && forall j :: 0 <= j < |ps| ==> r.remaining[j] == 0
    decreases Work(st.remaining), Wait(ps, st), |st.queue|
  {
    if Busy(st) {
      StepKeeps(ps, quantum, st);
      LoopExit(ps, quantum, Step(ps, quantum, st));
    }
  }

  /** The loop only appends to the schedule. */
  lemma {:induction false} LoopExtends(ps: seq<Process>, quantum: int, st: RrState)
    requires RrInv(ps, st) && quantum > 0
    ensures var r := Loop(ps, quantum, st);
      |st.schedule| <= |r.schedule| && r.schedule[..|st.schedule|] == st.schedule
    decreases Work(st.remaining), Wait(ps, st), |st.queue|
  {
    if Busy(st) {
      StepKeeps(ps, quantum, st);
      var next := Step(ps, quantum, st);
      LoopExtends(ps, quantum, next);
      var r := Loop(ps, quantum, next);
      assert r.schedule[..|st.schedule|] == r.schedule[..|next.schedule|][..|st.schedule|];
    }
  }

  /** A slice that leaves work over puts its process back twice: the rescan appends it among
      the newly arrived, and the explicit push appends it once more. */
  lemma StepEnqueuesTwice(ps: seq<Process>, quantum: int, st: RrState)
    requires RrInv(ps, st) && SliceInv(ps, quantum, st) && quantum > 0
    requires var scanned := Enqueue(ps, st, true, 0);
      |scanned.queue| > 0 && scanned.remaining[scanned.queue[0]] > quantum
    ensures var scanned := Enqueue(ps, st, true, 0);
      var k, next := scanned.queue[0], Step(ps, quantum, st);
      && |scanned.queue| <= |next.queue| - 1
      && next.queue[..|scanned.queue| - 1] == scanned.queue[1..]
      && k in next.queue[|scanned.queue| - 1..|next.queue| - 1]
      && next.queue[|next.queue| - 1] == k
  {
    var scanned := Enqueue(ps, st, true, 0);
    EnqueueSlices(ps, quantum, st, true);
    var k := scanned.queue[0];
    var ran := Dispatch(ps, quantum, scanned);
    assert Eligible(ps, ran, true, k);
    EnqueueAll(ps, ran, true, 0);
    EnqueueAppends(ps, ran, true, 0);
    var rescanned := Enqueue(ps, ran, true, 0);
    var next := Step(ps, quantum, st);
    assert next.queue == rescanned.queue + [k];
    assert next.queue[..|scanned.queue| - 1] == rescanned.queue[..|ran.queue|];
    assert next.queue[|scanned.queue| - 1..|next.queue| - 1] == rescanned.queue[|ran.queue|..];
  }

  /** A pass of a loop that has not stopped leaves the rest of the loop to run. */
  lemma LoopStep(ps: seq<Process>, quantum: int, st: RrState)
    requires RrInv(ps, st) && quantum > 0 && Busy(st)
    ensures RrInv(ps, Step(ps, quantum, st))
    ensures Loop(ps, quantum, st) == Loop(ps, quantum, Step(ps, quantum, st))
  {
    StepKeeps(ps, quantum, st);
  }

  /** The scan at index `i` skips a process that is not eligible. */
  lemma EnqueueSkip(ps: seq<Process>, st: RrState, checkWork: bool, i: nat)
    requires Shaped(ps, st) && i < |ps| && !Eligible(ps, st, checkWork, i)
    ensures Enqueue(ps, st, checkWork, i) == Enqueue(ps, st, checkWork, i + 1)
  {
  }

  /** The scan at index `i` pushes and flags an eligible process. */
  lemma EnqueueTake(ps: seq<Process>, st: RrState, checkWork: bool, i: nat)
    requires Shaped(ps, st) && i < |ps| && Eligible(ps, st, checkWork, i)
    ensures Enqueue(ps, st, checkWork, i)
      == Enqueue(ps, st.(queue := st.queue + [i], inQueue := st.inQueue[i := true]), checkWork, i + 1)
  {
  }

  /** A process arriving at 0 with burst 3, under quantum 2. */
  const Lone := Process("P1", 0, 3, 1, 0)

  /** With quantum 2, a burst of 3 is run as [0,2) and [2,3), and the copy the rescan added
      before the explicit push is dequeued afterwards as the empty slice [3,3). */
  lemma LoneSchedule()
    ensures RrSchedule([Lone], 2) == [Interval("P1", 0, 2, 0), Interval("P1", 2, 3, 0), Interval("P1", 3, 3, 0)]
  {
    var s0 := RrState([3], [true], [0], 0, []);
    var s1 := RrState([1], [true], [0, 0], 2, [Interval("P1", 0, 2, 0)]);
    var s2 := RrState([0], [false], [0], 3, [Interval("P1", 0, 2, 0), Interval("P1", 2, 3, 0)]);
    var s3 := RrState([0], [false], [], 3, [Interval("P1", 0, 2, 0), Interval("P1", 2, 3, 0), Interval("P1", 3, 3, 0)]);
    LoneInitial();
    LoneStep1();
    LoneStep2();
    LoneStep3();
    InitialInv([Lone]);
    LoopStep([Lone], 2, s0);
    LoopStep([Lone], 2, s1);
    LoopStep([Lone], 2, s2);
    assert !Busy(s3);
  }

  lemma LoneInitial()
    ensures Initial([Lone]) == RrState([3], [true], [0], 0, [])
  {
    var start := RrState(seq(1, j requires 0 <= j < 1 => [Lone][j].burst), seq(1, _ => false), [], 0, []);
    assert start == RrState([3], [false], [], 0, []);
    EnqueueTake([Lone], start, false, 0);
  }

  lemma LoneStep1()
    ensures Step([Lone], 2, RrState([3], [true], [0], 0, []))
      == RrState([1], [true], [0, 0], 2, [Interval("P1", 0, 2, 0)])
  {
    var st := RrState([3], [true], [0], 0, []);
    EnqueueSkip([Lone], st, true, 0);
    var ran := RrState([1], [false], [], 2, [Interval("P1", 0, 2, 0)]);
    assert Dispatch([Lone], 2, st) == ran;
    EnqueueTake([Lone], ran, true, 0);
  }

  lemma LoneStep2()
    ensures Step([Lone], 2, RrState([1], [true], [0, 0], 2, [Interval("P1", 0, 2, 0)]))
      == RrState([0], [false], [0], 3, [Interval("P1", 0, 2, 0), Interval("P1", 2, 3, 0)])
  {
    var st := RrState([1], [true], [0, 0], 2, [Interval("P1", 0, 2, 0)]);
    EnqueueSkip([Lone], st, true, 0);
    var ran := RrState([0], [false], [0], 3, [Interval("P1", 0, 2, 0), Interval("P1", 2, 3, 0)]);
    assert Dispatch([Lone], 2, st) == ran;
    EnqueueSkip([Lone], ran, true, 0);
  }

  lemma LoneStep3()
    ensures Step([Lone], 2, RrState([0], [false], [0], 3, [Interval("P1", 0, 2, 0), Interval("P1", 2, 3, 0)]))
      == RrState([0], [false], [], 3, [Interval("P1", 0, 2, 0), Interval("P1", 2, 3, 0), Interval("P1", 3, 3, 0)])
  {
    var st := RrState([0], [false], [0], 3, [Interval("P1", 0, 2, 0), Interval("P1", 2, 3, 0)]);
    EnqueueSkip([Lone], st, true, 0);
    var ran := RrState([0], [false], [], 3, [Interval("P1", 0, 2, 0), Interval("P1", 2, 3, 0), Interval("P1", 3, 3, 0)]);
    assert Dispatch([Lone], 2, st) == ran;
    EnqueueSkip([Lone], ran, true, 0);
  }

  /** With quantum 5, longer than every burst, C runs [0,3). A and B both arrive during that
      slice, and the rescan enqueues them in list order, so A runs [3,4) before B runs [4,5). */
  lemma TrioSchedule(ps: seq<Process>, quantum: int)
    requires ps == Trio() && quantum == 5
    ensures RrSchedule(ps, quantum) == [Interval("C", 0, 3, 2), Interval("A", 3, 4, 0), Interval("B", 4, 5, 1)]
  {
    var s3 := TrioPasses(ps, quantum);
    assert !Busy(s3);
  }

  /** The state after the three passes of the loop. */
  lemma TrioPasses(ps: seq<Process>, quantum: int) returns (s3: RrState)
    requires ps == Trio() && quantum == 5
    ensures s3 == RrState([0, 0, 0], [false, false, false], [], 5,
                          [Interval("C", 0, 3, 2), Interval("A", 3, 4, 0), Interval("B", 4, 5, 1)])
    ensures RrInv(ps, Initial(ps)) && RrInv(ps, s3)
    ensures Loop(ps, quantum, Initial(ps)) == Loop(ps, quantum, s3)
  {
    var c, a, b := Interval("C", 0, 3, 2), Interval("A", 3, 4, 0), Interval("B", 4, 5, 1);
    var s0 := RrState([1, 1, 3], [false, false, true], [2], 0, []);
    var s1 := RrState([1, 1, 0], [true, true, false], [0, 1], 3, [c]);
    var s2 := RrState([0, 1, 0], [false, true, false], [1], 4, [c, a]);
    s3 := RrState([0, 0, 0], [false, false, false], [], 5, [c, a, b]);
    TrioInitial(ps);
    TrioPass1(ps, quantum, s0);
    TrioPass2(ps, quantum, s1);
    TrioPass3(ps, quantum, s2);
    InitialInv(ps);
    LoopChain(ps, quantum, s0, s1, s2, s3);
  }

  lemma TrioInitial(ps: seq<Process>)
    requires ps == Trio()
    ensures Initial(ps) == RrState([1, 1, 3], [false, false, true], [2], 0, [])
  {
    var start := RrState(seq(3, j requires 0 <= j < 3 => ps[j].burst), seq(3, _ => false), [], 0, []);
    assert start == RrState([1, 1, 3], [false, false, false], [], 0, []);
    EnqueueSkip(ps, start, false, 0);
    EnqueueSkip(ps, start, false, 1);
    EnqueueTake(ps, start, false, 2);
    var t := start.(queue := start.queue + [2], inQueue := start.inQueue[2 := true]);
    assert Enqueue(ps, t, false, 3) == t;
    assert t == RrState([1, 1, 3], [false, false, true], [2], 0, []);
  }

  /** C runs [0,3); the rescan then enqueues A and B, in list order. */
  lemma TrioPass1(ps: seq<Process>, quantum: int, st: RrState)
    requires ps == Trio() && quantum == 5
    requires st == RrState([1, 1, 3], [false, false, true], [2], 0, [])
    ensures Step(ps, quantum, st) == RrState([1, 1, 0], [true, true, false], [0, 1], 3, [Interval("C", 0, 3, 2)])
  {
    EnqueueNone(ps, st, true, 0);
    var ran := Dispatch(ps, quantum, st);
    assert ran == RrState([1, 1, 0], [false, false, false], [], 3, [Interval("C", 0, 3, 2)]);
    TrioRescan1(ps, ran);
    StepIs(ps, quantum, st, st, ran, Enqueue(ps, ran, true, 0),
           RrState([1, 1, 0], [true, true, false], [0, 1], 3, [Interval("C", 0, 3, 2)]));
  }

  lemma TrioRescan1(ps: seq<Process>, st: RrState)
    requires ps == Trio()
    requires st == RrState([1, 1, 0], [false, false, false], [], 3, [Interval("C", 0, 3, 2)])
    ensures Enqueue(ps, st, true, 0) == RrState([1, 1, 0], [true, true, false], [0, 1], 3, [Interval("C", 0, 3, 2)])
  {
    EnqueueTake(ps, st, true, 0);
    var a := st.(queue := st.queue + [0], inQueue := st.inQueue[0 := true]);
    EnqueueTake(ps, a, true, 1);
    var b := a.(queue := a.queue + [1], inQueue := a.inQueue[1 := true]);
    EnqueueSkip(ps, b, true, 2);
    assert Enqueue(ps, b, true, 3) == b;
    assert b.queue == [0, 1];
    assert b.inQueue == [true, true, false];
  }

  /** A runs [3,4) and finishes; nothing is enqueued. */
  lemma TrioPass2(ps: seq<Process>, quantum: int, st: RrState)
    requires ps == Trio() && quantum == 5
    requires st == RrState([1, 1, 0], [true, true, false], [0, 1], 3, [Interval("C", 0, 3, 2)])
    ensures Step(ps, quantum, st)
      == RrState([0, 1, 0], [false, true, false], [1], 4, [Interval("C", 0, 3, 2), Interval("A", 3, 4, 0)])
  {
    EnqueueNone(ps, st, true, 0);
    var ran := Dispatch(ps, quantum, st);
    assert ran == RrState([0, 1, 0], [false, true, false], [1], 4, [Interval("C", 0, 3, 2), Interval("A", 3, 4, 0)]);
    EnqueueNone(ps, ran, true, 0);
    StepIs(ps, quantum, st, st, ran, ran, ran);
  }

  /** B runs [4,5) and finishes; the queue is empty and no work is left. */
  lemma TrioPass3(ps: seq<Process>, quantum: int, st: RrState)
    requires ps == Trio() && quantum == 5
    requires st == RrState([0, 1, 0], [false, true, false], [1], 4, [Interval("C", 0, 3, 2), Interval("A", 3, 4, 0)])
    ensures Step(ps, quantum, st) == RrState([0, 0, 0], [false, false, false], [], 5,
                                             [Interval("C", 0, 3, 2), Interval("A", 3, 4, 0), Interval("B", 4, 5, 1)])
  {
    EnqueueNone(ps, st, true, 0);
    var ran := Dispatch(ps, quantum, st);
    assert ran == RrState([0, 0, 0], [false, false, false], [], 5,
                          [Interval("C", 0, 3, 2), Interval("A", 3, 4, 0), Interval("B", 4, 5, 1)]);
    EnqueueNone(ps, ran, true, 0);
    StepIs(ps, quantum, st, st, ran, ran, ran);
  }

  /** A pass that runs its head, written out through its parts. */
  lemma StepIs(ps: seq<Process>, quantum: int, st: RrState, scanned: RrState, ran: RrState, rescanned: RrState, next: RrState)
    requires Shaped(ps, st) && scanned == Enqueue(ps, st, true, 0) && |scanned.queue| > 0
    requires ran == Dispatch(ps, quantum, scanned) && rescanned == Enqueue(ps, ran, true, 0)
    requires next == Requeue(ps, rescanned, scanned.queue[0])
    ensures Step(ps, quantum, st) == next
  {
  }

  /** On the four sample processes with quantum 2 the schedule opens with P1 [0,2), P1 [2,4)
      and P2 [4,6): the rescan puts P1 back ahead of P2, which arrived while P1 ran. */
  lemma SampleOpening(ps: seq<Process>, quantum: int)
    requires ps == SampleProcesses() && quantum == 2
    ensures var s := RrSchedule(ps, quantum);
      && |s| >= 3
      && s[0] == Interval("P1", 0, 2, 0) && s[1] == Interval("P1", 2, 4, 0) && s[2] == Interval("P2", 4, 6, 1)
  {
    var s3 := SamplePasses(ps, quantum);
    LoopExtends(ps, quantum, s3);
    var s := Loop(ps, quantum, s3).schedule;
    assert s[..3] == s3.schedule;
    assert s[0] == s[..3][0] && s[1] == s[..3][1] && s[2] == s[..3][2];
  }

  /** The state after the first three passes. */
  lemma SamplePasses(ps: seq<Process>, quantum: int) returns (s3: RrState)
    requires ps == SampleProcesses() && quantum == 2
    ensures RrInv(ps, Initial(ps)) && RrInv(ps, s3)
    ensures Loop(ps, quantum, Initial(ps)) == Loop(ps, quantum, s3)
    ensures s3.schedule == [Interval("P1", 0, 2, 0), Interval("P1", 2, 4, 0), Interval("P2", 4, 6, 1)]
  {
    var s0 := RrState([5, 3, 8, 6], [true, false, false, false], [0], 0, []);
    var s1 := RrState([3, 3, 8, 6], [true, true, true, false], [0, 1, 2, 0], 2, [Interval("P1", 0, 2, 0)]);
    var s2 := RrState([1, 3, 8, 6], [true, true, true, true], [1, 2, 0, 0, 3, 0], 4,
                      [Interval("P1", 0, 2, 0), Interval("P1", 2, 4, 0)]);
    s3 := RrState([1, 1, 8, 6], [true, true, true, true], [2, 0, 0, 3, 0, 1, 1], 6,
                  [Interval("P1", 0, 2, 0), Interval("P1", 2, 4, 0), Interval("P2", 4, 6, 1)]);
    SampleInitial(ps);
    SamplePass1(ps, quantum, s0);
    SamplePass2(ps, quantum, s1);
    SamplePass3(ps, quantum, s2);
    InitialInv(ps);
    LoopChain(ps, quantum, s0, s1, s2, s3);
  }

  /** Three passes of a loop that has not stopped leave the rest of the loop to run. */
  lemma LoopChain(ps: seq<Process>, quantum: int, s0: RrState, s1: RrState, s2: RrState, s3: RrState)
    requires RrInv(ps, s0) && quantum > 0
    requires |s0.queue| > 0 && Step(ps, quantum, s0) == s1
    requires |s1.queue| > 0 && Step(ps, quantum, s1) == s2
    requires |s2.queue| > 0 && Step(ps, quantum, s2) == s3
    ensures RrInv(ps, s3) && Loop(ps, quantum, s0) == Loop(ps, quantum, s3)
  {
    LoopStep(ps, quantum, s0);
    LoopStep(ps, quantum, s1);
    LoopStep(ps, quantum, s2);
  }

  lemma SampleInitial(ps: seq<Process>)
    requires ps == SampleProcesses()
    ensures Initial(ps) == RrState([5, 3, 8, 6], [true, false, false, false], [0], 0, [])
  {
    var start := RrState(seq(4, j requires 0 <= j < 4 => ps[j].burst), seq(4, _ => false), [], 0, []);
    assert start == RrState([5, 3, 8, 6], [false, false, false, false], [], 0, []);
    EnqueueTake(ps, start, false, 0);
    var t := start.(queue := start.queue + [0], inQueue := start.inQueue[0 := true]);
    EnqueueNone(ps, t, false, 1);
    assert t == RrState([5, 3, 8, 6], [true, false, false, false], [0], 0, []);
  }

  lemma SamplePass1(ps: seq<Process>, quantum: int, st: RrState)
    requires ps == SampleProcesses() && quantum == 2
    requires st == RrState([5, 3, 8, 6], [true, false, false, false], [0], 0, [])
    ensures Step(ps, quantum, st)
      == RrState([3, 3, 8, 6], [true, true, true, false], [0, 1, 2, 0], 2, [Interval("P1", 0, 2, 0)])
  {
    EnqueueNone(ps, st, true, 0);
    var ran := Dispatch(ps, quantum, st);
    assert ran == RrState([3, 3, 8, 6], [false, false, false, false], [], 2, [Interval("P1", 0, 2, 0)]);
    SampleRescan1(ps, ran);
    StepIs(ps, quantum, st, st, ran, Enqueue(ps, ran, true, 0),
           RrState([3, 3, 8, 6], [true, true, true, false], [0, 1, 2, 0], 2, [Interval("P1", 0, 2, 0)]));
  }

  lemma SampleRescan1(ps: seq<Process>, st: RrState)
    requires ps == SampleProcesses()
    requires st == RrState([3, 3, 8, 6], [false, false, false, false], [], 2, [Interval("P1", 0, 2, 0)])
    ensures Enqueue(ps, st, true, 0) == RrState([3, 3, 8, 6], [true, true, true, false], [0, 1, 2], 2, [Interval("P1", 0, 2, 0)])
  {
    EnqueueTake(ps, st, true, 0);
    var a := st.(queue := st.queue + [0], inQueue := st.inQueue[0 := true]);
    EnqueueTake(ps, a, true, 1);
    var b := a.(queue := a.queue + [1], inQueue := a.inQueue[1 := true]);
    EnqueueTake(ps, b, true, 2);
    var c := b.(queue := b.queue + [2], inQueue := b.inQueue[2 := true]);
    EnqueueSkip(ps, c, true, 3);
    assert Enqueue(ps, c, true, 4) == c;
    assert c.queue == [0, 1, 2];
    assert c.inQueue == [true, true, true, false];
  }

  lemma SamplePass2(ps: seq<Process>, quantum: int, st: RrState)
    requires ps == SampleProcesses() && quantum == 2
    requires st == RrState([3, 3, 8, 6], [true, true, true, false], [0, 1, 2, 0], 2, [Interval("P1", 0, 2, 0)])
    ensures Step(ps, quantum, st)
      == RrState([1, 3, 8, 6], [true, true, true, true], [1, 2, 0, 0, 3, 0], 4,
                 [Interval("P1", 0, 2, 0), Interval("P1", 2, 4, 0)])
  {
    EnqueueNone(ps, st, true, 0);
    var ran := Dispatch(ps, quantum, st);
    assert ran == RrState([1, 3, 8, 6], [false, true, true, false], [1, 2, 0], 4,
                          [Interval("P1", 0, 2, 0), Interval("P1", 2, 4, 0)]);
    SampleRescan2(ps, ran);
    StepIs(ps, quantum, st, st, ran, Enqueue(ps, ran, true, 0),
           RrState([1, 3, 8, 6], [true, true, true, true], [1, 2, 0, 0, 3, 0], 4,
                   [Interval("P1", 0, 2, 0), Interval("P1", 2, 4, 0)]));
  }

  lemma SampleRescan2(ps: seq<Process>, st: RrState)
    requires ps == SampleProcesses()
    requires st == RrState([1, 3, 8, 6], [false, true, true, false], [1, 2, 0], 4,
                           [Interval("P1", 0, 2, 0), Interval("P1", 2, 4, 0)])
    ensures Enqueue(ps, st, true, 0) == RrState([1, 3, 8, 6], [true, true, true, true], [1, 2, 0, 0, 3], 4,
                                                [Interval("P1", 0, 2, 0), Interval("P1", 2, 4, 0)])
  {
    EnqueueTake(ps, st, true, 0);
    var a := st.(queue := st.queue + [0], inQueue := st.inQueue[0 := true]);
    EnqueueSkip(ps, a, true, 1);
    EnqueueSkip(ps, a, true, 2);
    EnqueueTake(ps, a, true, 3);
    var b := a.(queue := a.queue + [3], inQueue := a.inQueue[3 := true]);
    assert Enqueue(ps, b, true, 4) == b;
    assert b.queue == [1, 2, 0, 0, 3];
    assert b.inQueue == [true, true, true, true];
  }

  lemma SamplePass3(ps: seq<Process>, quantum: int, st: RrState)
    requires ps == SampleProcesses() && quantum == 2
    requires st == RrState([1, 3, 8, 6], [true, true, true, true], [1, 2, 0, 0, 3, 0], 4,
                           [Interval("P1", 0, 2, 0), Interval("P1", 2, 4, 0)])
    ensures Step(ps, quantum, st)
      == RrState([1, 1, 8, 6], [true, true, true, true], [2, 0, 0, 3, 0, 1, 1], 6,
                 [Interval("P1", 0, 2, 0), Interval("P1", 2, 4, 0), Interval("P2", 4, 6, 1)])
  {
    EnqueueNone(ps, st, true, 0);
    var ran := Dispatch(ps, quantum, st);
    assert ran == RrState([1, 1, 8, 6], [true, false, true, true], [2, 0, 0, 3, 0], 6,
                          [Interval("P1", 0, 2, 0), Interval("P1", 2, 4, 0), Interval("P2", 4, 6, 1)]);
    SampleRescan3(ps, ran);
    StepIs(ps, quantum, st, st, ran, Enqueue(ps, ran, true, 0),
           RrState([1, 1, 8, 6], [true, true, true, true], [2, 0, 0, 3, 0, 1, 1], 6,
                   [Interval("P1", 0, 2, 0), Interval("P1", 2, 4, 0), Interval("P2", 4, 6, 1)]));
  }

  lemma SampleRescan3(ps: seq<Process>, st: RrState)
    requires ps == SampleProcesses()
    requires st == RrState([1, 1, 8, 6], [true, false, true, true], [2, 0, 0, 3, 0], 6,
                           [Interval("P1", 0, 2, 0), Interval("P1", 2, 4, 0), Interval("P2", 4, 6, 1)])
    ensures Enqueue(ps, st, true, 0) == RrState([1, 1, 8, 6], [true, true, true, true], [2, 0, 0, 3, 0, 1], 6,
                                                [Interval("P1", 0, 2, 0), Interval("P1", 2, 4, 0), Interval("P2", 4, 6, 1)])
  {
    EnqueueSkip(ps, st, true, 0);
    EnqueueTake(ps, st, true, 1);
    var a := st.(queue := st.queue + [1], inQueue := st.inQueue[1 := true]);
    EnqueueSkip(ps, a, true, 2);
    EnqueueSkip(ps, a, true, 3);
    assert Enqueue(ps, a, true, 4) == a;
    assert a.queue == [2, 0, 0, 3, 0, 1];
    assert a.inQueue == [true, true, true, true];
  }
}
