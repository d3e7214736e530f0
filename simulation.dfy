/** `startSimulation`: the checks before a run, the quantum default, and the choice of
    scheduler; and what the results table then shows about the schedule. */
module Simulation {
  import opened Types
  import opened Timeline
  import opened Sorting
  import opened Fcfs
  import opened Picker
  import opened RoundRobin
  import opened Results

  /** Why a start produces no schedule. */
  datatype SimError =
    | NoProcesses              // "Please add at least one process"
    | AlreadyRunning           // a run is in progress: the click is ignored
    | NeverFinishes(quantum: int)  // a negative quantum keeps the round-robin loop going forever

  /** `Number.parseInt(field) || 2`: `NaN` (here `None`) and 0 fall back to 2; any other value,
      negative ones included, is kept. */
  function QuantumOf(field: Option<int>): (q: int)
    ensures q != 0
    ensures field.Some? && field.value != 0 ==> q == field.value
    ensures q == 2 <==> field.None? || field.value == 0 || field.value == 2
    ensures q < 0 <==> field.Some? && field.value < 0
  {
    if field.None? || field.value == 0 then 2 else field.value
  }

  /** The schedule a start produces for the list `ps`, the selected algorithm, and the quantum
      field; an unknown algorithm runs first-come-first-served. */
  function Simulate(ps: seq<Process>, running: bool, algorithm: string, field: Option<int>)
    : (r: Result<seq<Interval>, SimError>)
    requires ValidProcesses(ps)
    ensures r.Err? <==> |ps| == 0 || running || (algorithm == "rr" && field.Some? && field.value < 0)
  {
    if |ps| == 0 then Err(NoProcesses)
    else if running then Err(AlreadyRunning)
    else if algorithm == "sjf" then Ok(PickSchedule(ShortestBurst, ps))
    else if algorithm == "priority" then Ok(PickSchedule(LowestPriority, ps))
    else if algorithm == "rr" then
      var q := QuantumOf(field);
      if q < 0 then Err(NeverFinishes(q)) else Ok(RrSchedule(ps, q))
    else Ok(FcfsSchedule(ps))
  }

  /** `startSimulation` up to the start of the animation. */
  method StartSimulation(ps: seq<Process>, running: bool, algorithm: string, field: Option<int>)
    returns (r: Result<seq<Interval>, SimError>)
    requires ValidProcesses(ps)
    ensures r == Simulate(ps, running, algorithm, field)
  {
    if |ps| == 0 {
      return Err(NoProcesses);
    }
    if running {
      return Err(AlreadyRunning);
    }
    var quantum := QuantumOf(field);
    var schedule: seq<Interval>;
    if algorithm == "fcfs" {
      schedule := ScheduleFCFS(ps);
    } else if algorithm == "sjf" {
      schedule := ScheduleSJF(ps);
    } else if algorithm == "priority" {
      schedule := SchedulePriority(ps);
    } else if algorithm == "rr" {
      if quantum < 0 {
        return Err(NeverFinishes(quantum));
      }
      schedule := ScheduleRoundRobin(ps, quantum);
    } else {
      schedule := ScheduleFCFS(ps);
    }
    r := Ok(schedule);
  }

  /** A start fails exactly on an empty list, while a run is in progress, or for round robin
      with a negative quantum. */
  lemma SimulateFails(ps: seq<Process>, running: bool, algorithm: string, field: Option<int>)
    requires ValidProcesses(ps)
    ensures Simulate(ps, running, algorithm, field) == Err(NoProcesses) <==> |ps| == 0
    ensures Simulate(ps, running, algorithm, field) == Err(AlreadyRunning) <==> |ps| > 0 && running
    ensures Simulate(ps, running, algorithm, field).Err? <==>
      |ps| == 0 || running || (algorithm == "rr" && field.Some? && field.value < 0)
  {
  }

  /** Every scheduler yields a well-formed schedule of a list the editor can build. */
  lemma SimulateWellFormed(ps: seq<Process>, running: bool, algorithm: string, field: Option<int>)
    requires ValidProcesses(ps) && Simulate(ps, running, algorithm, field).Ok?
    ensures WellFormedSchedule(ps, Simulate(ps, running, algorithm, field).value)
  {
    if algorithm == "sjf" {
      PickWellFormed(ShortestBurst, ps);
    } else if algorithm == "priority" {
      PickWellFormed(LowestPriority, ps);
    } else if algorithm != "rr" {
      FcfsWellFormed(ps);
    }
    // for "rr" the contract of `RrSchedule` states it
  }

  /** A schedule that gives every process of a non-empty list its burst is not empty. */
  lemma WellFormedNonEmpty(ps: seq<Process>, s: seq<Interval>)
    requires ValidProcesses(ps) && |ps| > 0 && ConservesWork(ps, s)
    ensures s != []
  {
    assert TotalLength(s, ps[0].id) == ps[0].burst;
  }

  /** What the results table shows after any successful start: `calculateResults` succeeds,
      every process has a row with its arrival and burst, no waiting time is negative (so neither
      is the average), the rows are not empty, and the CPU utilisation is between 0% and 100%. */
  lemma SimulationResults(ps: seq<Process>, running: bool, algorithm: string, field: Option<int>)
    requires ValidProcesses(ps) && Simulate(ps, running, algorithm, field).Ok?
    ensures var s := Simulate(ps, running, algorithm, field).value;
      && CalculateResults(ps, s).Ok?
      && RowsSound(ps, CalculateResults(ps, s).value)
      && |CalculateResults(ps, s).value| > 0
      && 0 <= TotalBurst(CalculateResults(ps, s).value) <= MaxEnd(s)
      && TotalWaiting(CalculateResults(ps, s).value) >= 0
  {
    var s := Simulate(ps, running, algorithm, field).value;
    SimulateWellFormed(ps, running, algorithm, field);
    WellFormedNonEmpty(ps, s);
    WellFormedResults(ps, s);
    UtilisationBounded(ps, s, CalculateResults(ps, s).value);
  }

  /** A quantum longer than every burst does not make round robin first-come-first-served:
      every burst of `Trio()` is below 5, yet with quantum 5 round robin runs A before B, because
      the rescan after C's slice enqueues the arrived processes in list order, while FCFS runs B,
      which arrived first, before A. */
  lemma LargeQuantumNotFcfs(ps: seq<Process>, quantum: int)
    requires ps == Trio() && quantum == 5
    ensures RrSchedule(ps, quantum) != FcfsSchedule(ps)
  {
    var rr := TrioRoundRobinSecond(ps, quantum);
    var fcfs := TrioFcfsSecond(ps);
    assert rr[1] != fcfs[1];
  }

  /** Round robin runs A second. */
  lemma TrioRoundRobinSecond(ps: seq<Process>, quantum: int) returns (s: seq<Interval>)
    requires ps == Trio() && quantum == 5
    ensures s == RrSchedule(ps, quantum) && |s| == 3 && s[1] == Interval("A", 3, 4, 0)
  {
    TrioSchedule(ps, quantum);
    s := RrSchedule(ps, quantum);
  }

  /** FCFS runs B second. */
  lemma TrioFcfsSecond(ps: seq<Process>) returns (s: seq<Interval>)
    requires ps == Trio()
    ensures s == FcfsSchedule(ps) && |s| == 3 && s[1] == Interval("B", 3, 4, 1)
  {
    TrioFcfs(ps);
    s := FcfsSchedule(ps);
  }
}
