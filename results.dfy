/** `calculateResults(schedule)` and the integer aggregates `showResults` derives from it. */
module Results {
  import opened Types
  import opened Timeline

  /** One row of the results table. */
  datatype ResultRow = ResultRow(process: string, arrival: int, burst: int, completion: int,
                                 turnaround: int, waiting: int)

  /** The ids of the rows, in order. */
  function RowIds(rows: seq<ResultRow>): (ids: seq<string>)
    ensures |ids| == |rows| && forall k :: 0 <= k < |rows| ==> ids[k] == rows[k].process
  {
    if rows == [] then [] else [rows[0].process] + RowIds(rows[1..])
  }

  /** `schedule.map((s) => s.process)`. */
  function ScheduledIds(s: seq<Interval>): (ids: seq<string>)
    ensures |ids| == |s| && forall i :: 0 <= i < |s| ==> ids[i] == s[i].process
  {
    if s == [] then [] else [s[0].process] + ScheduledIds(s[1..])
  }

  /** `[...new Set(ids)]`: each id once, in the order of its first occurrence. */
  function Distinct(ids: seq<string>): (d: seq<string>)
    ensures forall x :: x in d <==> x in ids
    ensures forall i, j :: 0 <= i < j < |d| ==> d[i] != d[j]
    ensures forall i, j :: 0 <= i < j < |d| ==> IndexOf(ids, d[i]) < IndexOf(ids, d[j])
  {
    if ids == [] then []
    else
      var front := ids[..|ids| - 1];
      var d := Distinct(front);
      assert ids == front + [ids[|ids| - 1]];
      FirstInFront(front, ids[|ids| - 1]);
      if ids[|ids| - 1] in d then d else d + [ids[|ids| - 1]]
  }

  /** An element of a list's front is first found at the same place in the whole list; the
      last element, when the front lacks it, is first found last. */
  lemma FirstInFront(front: seq<string>, last: string)
    ensures forall x :: x in front ==> IndexOf(front + [last], x) == IndexOf(front, x)
    ensures last !in front ==> IndexOf(front + [last], last) == |front|
  {
    var ids := front + [last];
    forall x | x in front
      ensures IndexOf(ids, x) == IndexOf(front, x)
    {
      FirstIndexUnique(ids, x, IndexOf(ids, x), IndexOf(front, x));
    }
  }

  /** Why `calculateResults` cannot finish: `processes.find` found no process for a scheduled
      id, and reading `proc.arrival` throws. */
  datatype ResultsError = UnknownProcess(id: string)

  /** The row pushed for `pid`: the process's arrival and burst, completion at the latest end
      among its intervals, turnaround measured from arrival, waiting the turnaround less the
      burst. It fails when no process has that id. */
  function RowOf(ps: seq<Process>, s: seq<Interval>, pid: string): (r: Result<ResultRow, ResultsError>)
    requires IntervalsOf(s, pid) != []
    ensures r.Err? <==> Find(ps, pid).None?
    ensures r.Ok? ==> r.value.process == pid
  {
    match Find(ps, pid)
    case None => Err(UnknownProcess(pid))
    case Some(proc) =>
      var completion := MaxEnd(IntervalsOf(s, pid));
      var turnaround := completion - proc.arrival;
      Ok(ResultRow(pid, proc.arrival, proc.burst, completion, turnaround, turnaround - proc.burst))
  }

  /** A row holds the arrival and burst of the process it names, completes when the last of
      that process's intervals ends, and its turnaround and waiting follow from those. */
  lemma RowMeaning(ps: seq<Process>, s: seq<Interval>, pid: string)
    requires IntervalsOf(s, pid) != [] && RowOf(ps, s, pid).Ok?
    ensures var row := RowOf(ps, s, pid).value;
      && row.arrival == Find(ps, pid).value.arrival
      && row.burst == Find(ps, pid).value.burst
      && (forall i :: 0 <= i < |s| && s[i].process == pid ==> s[i].end <= row.completion)
      && (exists i :: 0 <= i < |s| && s[i].process == pid && s[i].end == row.completion)
      && row.turnaround == row.completion - row.arrival
      && row.waiting == row.turnaround - row.burst
  {
    CompletionIsLastEnd(s, pid);
  }

  /** `Math.max(...procSchedule.map((s) => s.end))` is the latest end of the process's intervals. */
  lemma CompletionIsLastEnd(s: seq<Interval>, pid: string)
    requires IntervalsOf(s, pid) != []
    ensures forall i :: 0 <= i < |s| && s[i].process == pid ==> s[i].end <= MaxEnd(IntervalsOf(s, pid))
    ensures exists i :: 0 <= i < |s| && s[i].process == pid && s[i].end == MaxEnd(IntervalsOf(s, pid))
  {
    var mine := IntervalsOf(s, pid);
    forall i | 0 <= i < |s| && s[i].process == pid ensures s[i].end <= MaxEnd(mine) {
      assert mine[IndexOf(mine, s[i])] == s[i];
    }
    var j :| 0 <= j < |mine| && mine[j].end == MaxEnd(mine);
    assert mine[j] in mine;
    var i := IndexOf(s, mine[j]);
    assert s[i].process == pid && s[i].end == MaxEnd(mine);
  }

  /** The `forEach` over the distinct ids, stopping at the first one with no process. */
  function RowsOf(ps: seq<Process>, s: seq<Interval>, pids: seq<string>): (r: Result<seq<ResultRow>, ResultsError>)
    requires forall x :: x in pids ==> IntervalsOf(s, x) != []
    ensures r.Ok? ==> |r.value| == |pids|
  {
    if pids == [] then Ok([])
    else
      var head := RowOf(ps, s, pids[0]);
      var rest := RowsOf(ps, s, pids[1..]);
      if head.Err? then Err(head.error)
      else if rest.Err? then Err(rest.error)
      else Ok([head.value] + rest.value)
  }

  /** The rows are those of the ids, one each, in order. */
  lemma {:induction false} RowsOfRows(ps: seq<Process>, s: seq<Interval>, pids: seq<string>)
    requires forall x :: x in pids ==> IntervalsOf(s, x) != []
    requires RowsOf(ps, s, pids).Ok?
    ensures forall i :: 0 <= i < |pids| ==> RowOf(ps, s, pids[i]) == Ok(RowsOf(ps, s, pids).value[i])
  {
    if pids != [] {
      RowsOfRows(ps, s, pids[1..]);
      var rows := RowsOf(ps, s, pids).value;
      assert rows[1..] == RowsOf(ps, s, pids[1..]).value;
      forall i | 1 <= i < |pids| ensures RowOf(ps, s, pids[i]) == Ok(rows[i]) {
        assert pids[i] == pids[1..][i - 1] && rows[i] == rows[1..][i - 1];
      }
    }
  }

  /** The computation succeeds exactly when every id has a process. */
  lemma {:induction false} RowsOfFails(ps: seq<Process>, s: seq<Interval>, pids: seq<string>)
    requires forall x :: x in pids ==> IntervalsOf(s, x) != []
    ensures RowsOf(ps, s, pids).Ok? <==> forall j :: 0 <= j < |pids| ==> Find(ps, pids[j]).Some?
  {
    if pids != [] {
      var tail := pids[1..];
      RowsOfFails(ps, s, tail);
      assert RowsOf(ps, s, pids).Ok? <==> RowOf(ps, s, pids[0]).Ok? && RowsOf(ps, s, tail).Ok?;
      assert forall j :: 1 <= j < |pids| ==> pids[j] == tail[j - 1];
    }
  }

  /** Code-unit order on ids, standing in for `localeCompare`. */
  predicate IdLe(a: string, b: string) {
    a == [] || (b != [] && (a[0] < b[0] || (a[0] == b[0] && IdLe(a[1..], b[1..]))))
  }

  lemma {:induction false} IdLeTotal(a: string, b: string)
    ensures IdLe(a, b) || IdLe(b, a)
  {
    if a != [] && b != [] && a[0] == b[0] {
      IdLeTotal(a[1..], b[1..]);
    }
  }

  lemma {:induction false} IdLeTrans(a: string, b: string, c: string)
    requires IdLe(a, b) && IdLe(b, c)
    ensures IdLe(a, c)
  {
    if a != [] && b != [] && c != [] && a[0] == b[0] && b[0] == c[0] {
      IdLeTrans(a[1..], b[1..], c[1..]);
    }
  }

  predicate SortedById(rows: seq<ResultRow>) {
    forall i, j :: 0 <= i < j < |rows| ==> IdLe(rows[i].process, rows[j].process)
  }

  function InsertById(x: ResultRow, rows: seq<ResultRow>): (r: seq<ResultRow>)
    ensures multiset(r) == multiset(rows) + multiset{x}
  {
    if rows == [] || IdLe(x.process, rows[0].process) then [x] + rows
    else
      assert rows == [rows[0]] + rows[1..];
      [rows[0]] + InsertById(x, rows[1..])
  }

  lemma RowsSortedTail(rows: seq<ResultRow>)
    requires rows != [] && SortedById(rows)
    ensures SortedById(rows[1..])
    ensures forall y :: y in rows[1..] ==> IdLe(rows[0].process, y.process)
  {
    var tail := rows[1..];
    forall i, j | 0 <= i < j < |tail| ensures IdLe(tail[i].process, tail[j].process) {
      assert tail[i] == rows[i + 1] && tail[j] == rows[j + 1];
    }
    forall y | y in tail ensures IdLe(rows[0].process, y.process) {
      assert rows[IndexOf(tail, y) + 1] == y;
    }
  }

  lemma RowsSortedCons(y: ResultRow, t: seq<ResultRow>)
    requires SortedById(t)
    requires forall z :: z in t ==> IdLe(y.process, z.process)
    ensures SortedById([y] + t)
  {
    var r := [y] + t;
    forall i, j | 0 <= i < j < |r| ensures IdLe(r[i].process, r[j].process) {
      assert r[j] == t[j - 1];
      if i > 0 {
        assert r[i] == t[i - 1];
      } else {
        assert t[j - 1] in t;
      }
    }
  }

  lemma {:induction false} InsertByIdSorted(x: ResultRow, rows: seq<ResultRow>)
    requires SortedById(rows)
    ensures SortedById(InsertById(x, rows))
  {
    if rows == [] || IdLe(x.process, rows[0].process) {
      if rows != [] {
        RowsSortedTail(rows);
        forall z | z in rows ensures IdLe(x.process, z.process) {
          if z != rows[0] {
            assert z in rows[1..] by { assert rows == [rows[0]] + rows[1..]; }
            IdLeTrans(x.process, rows[0].process, z.process);
          }
        }
      }
      RowsSortedCons(x, rows);
    } else {
      RowsSortedTail(rows);
      InsertByIdSorted(x, rows[1..]);
      var t := InsertById(x, rows[1..]);
      IdLeTotal(x.process, rows[0].process);
      forall y | y in t ensures IdLe(rows[0].process, y.process) {
        assert y in multiset(t);
        assert y == x || y in multiset(rows[1..]);
      }
      RowsSortedCons(rows[0], t);
    }
  }

  /** `results.sort((a, b) => a.process.localeCompare(b.process))`. */
  function SortById(rows: seq<ResultRow>): (r: seq<ResultRow>)
    ensures multiset(r) == multiset(rows)
    ensures SortedById(r)
  {
    if rows == [] then []
    else
      assert rows == [rows[0]] + rows[1..];
      InsertByIdSorted(rows[0], SortById(rows[1..]));
      InsertById(rows[0], SortById(rows[1..]))
  }

  /** `calculateResults(schedule)` for the process list `ps`. */
  function CalculateResults(ps: seq<Process>, s: seq<Interval>): (r: Result<seq<ResultRow>, ResultsError>)
    ensures r.Ok? ==> SortedById(r.value) && |r.value| == |Distinct(ScheduledIds(s))|
  {
    var pids := Distinct(ScheduledIds(s));
    DistinctScheduled(s);
    match RowsOf(ps, s, pids)
    case Err(e) => Err(e)
    case Ok(rows) =>
      assert |multiset(SortById(rows))| == |multiset(rows)|;
      Ok(SortById(rows))
  }

  /** Every distinct scheduled id has intervals. */
  lemma DistinctScheduled(s: seq<Interval>)
    ensures forall x :: x in Distinct(ScheduledIds(s)) ==> IntervalsOf(s, x) != []
  {
    forall x | x in Distinct(ScheduledIds(s)) ensures IntervalsOf(s, x) != [] {
      var i := IndexOf(ScheduledIds(s), x);
      assert s[i] in IntervalsOf(s, x);
    }
  }

  /** `calculateResults` succeeds exactly when every scheduled id names a process. */
  lemma CalculateResultsFails(ps: seq<Process>, s: seq<Interval>)
    ensures CalculateResults(ps, s).Ok? <==> forall i :: 0 <= i < |s| ==> Find(ps, s[i].process).Some?
  {
    var ids := ScheduledIds(s);
    var pids := Distinct(ids);
    DistinctScheduled(s);
    RowsOfFails(ps, s, pids);
    if forall i :: 0 <= i < |s| ==> Find(ps, s[i].process).Some? {
      forall j | 0 <= j < |pids| ensures Find(ps, pids[j]).Some? {
        assert pids[j] in ids;
        assert pids[j] == s[IndexOf(ids, pids[j])].process;
      }
    }
    if forall j :: 0 <= j < |pids| ==> Find(ps, pids[j]).Some? {
      forall i | 0 <= i < |s| ensures Find(ps, s[i].process).Some? {
        assert ids[i] in ids;
        assert s[i].process == pids[IndexOf(pids, ids[i])];
      }
    }
  }

  /** What a successful `calculateResults` returns: one row per distinct scheduled id, sorted by
      id, each the row of its id. */
  lemma CalculateResultsRows(ps: seq<Process>, s: seq<Interval>, rows: seq<ResultRow>)
    requires CalculateResults(ps, s) == Ok(rows)
    ensures SortedById(rows)
    ensures |rows| == |Distinct(ScheduledIds(s))|
    ensures forall a, b :: 0 <= a < b < |rows| ==> rows[a].process != rows[b].process
    ensures forall i :: 0 <= i < |s| ==> s[i].process in RowIds(rows)
    ensures forall k :: 0 <= k < |rows| ==>
      IntervalsOf(s, rows[k].process) != [] && RowOf(ps, s, rows[k].process) == Ok(rows[k])
  {
    var ids := ScheduledIds(s);
    var pids := Distinct(ids);
    DistinctScheduled(s);
    var unsorted := RowsOf(ps, s, pids).value;
    assert rows == SortById(unsorted);
    UnsortedRows(ps, s, pids, unsorted);
    SortedRows(ps, s, pids, unsorted, rows);
    forall i | 0 <= i < |s| ensures s[i].process in RowIds(rows) {
      assert ids[i] in ids;
      assert s[i].process in pids;
    }
  }

  /** The sorted rows are the rows of the distinct ids, each once. */
  lemma SortedRows(ps: seq<Process>, s: seq<Interval>, pids: seq<string>, unsorted: seq<ResultRow>,
                   rows: seq<ResultRow>)
    requires forall x :: x in pids ==> IntervalsOf(s, x) != []
    requires |unsorted| == |pids|
    requires forall j :: 0 <= j < |pids| ==> unsorted[j].process == pids[j] && RowOf(ps, s, pids[j]) == Ok(unsorted[j])
    requires forall i, j :: 0 <= i < j < |pids| ==> pids[i] != pids[j]
    requires multiset(rows) == multiset(unsorted)
    ensures |rows| == |pids|
    ensures forall a, b :: 0 <= a < b < |rows| ==> rows[a].process != rows[b].process
    ensures forall x :: x in pids ==> x in RowIds(rows)
    ensures forall k :: 0 <= k < |rows| ==>
      IntervalsOf(s, rows[k].process) != [] && RowOf(ps, s, rows[k].process) == Ok(rows[k])
  {
    PermutedMembers(unsorted, rows);
    PermutedDistinct(unsorted, rows);
    forall k | 0 <= k < |rows|
      ensures IntervalsOf(s, rows[k].process) != [] && RowOf(ps, s, rows[k].process) == Ok(rows[k])
    {
      var j := IndexOf(unsorted, rows[k]);
      assert pids[j] in pids;
    }
    forall x | x in pids ensures x in RowIds(rows) {
      var j := IndexOf(pids, x);
      var k := IndexOf(rows, unsorted[j]);
      assert RowIds(rows)[k] == x;
    }
  }

  /** Before sorting, the j-th row is the row of the j-th distinct id. */
  lemma UnsortedRows(ps: seq<Process>, s: seq<Interval>, pids: seq<string>, unsorted: seq<ResultRow>)
    requires forall x :: x in pids ==> IntervalsOf(s, x) != []
    requires RowsOf(ps, s, pids) == Ok(unsorted)
    ensures |unsorted| == |pids|
    ensures forall j :: 0 <= j < |pids| ==> unsorted[j].process == pids[j] && RowOf(ps, s, pids[j]) == Ok(unsorted[j])
  {
    RowsOfRows(ps, s, pids);
  }

  /** A reordering holds the same rows. */
  lemma PermutedMembers(unsorted: seq<ResultRow>, rows: seq<ResultRow>)
    requires multiset(rows) == multiset(unsorted)
    ensures |rows| == |unsorted|
    ensures forall k :: 0 <= k < |rows| ==> rows[k] in unsorted
    ensures forall j :: 0 <= j < |unsorted| ==> unsorted[j] in rows
  {
    assert |multiset(rows)| == |multiset(unsorted)|;
    forall k | 0 <= k < |rows| ensures rows[k] in unsorted {
      assert rows[k] in multiset(unsorted);
    }
    forall j | 0 <= j < |unsorted| ensures unsorted[j] in rows {
      assert unsorted[j] in multiset(rows);
    }
  }

  /** Reordering rows whose ids are distinct keeps the ids distinct. */
  lemma PermutedDistinct(unsorted: seq<ResultRow>, rows: seq<ResultRow>)
    requires multiset(rows) == multiset(unsorted)
    requires forall a, b :: 0 <= a < b < |unsorted| ==> unsorted[a].process != unsorted[b].process
    ensures forall a, b :: 0 <= a < b < |rows| ==> rows[a].process != rows[b].process
  {
    forall a, b | 0 <= a < b < |rows| ensures rows[a].process != rows[b].process {
      if rows[a].process == rows[b].process {
        assert rows[a] in multiset(unsorted) && rows[b] in multiset(unsorted);
        var ja := IndexOf(unsorted, rows[a]);
        var jb := IndexOf(unsorted, rows[b]);
        assert ja == jb;
        CountTwo(rows, a, b);
        CountOne(unsorted, rows[a]);
      }
    }
  }

  /** An element found at two positions occurs at least twice. */
  lemma CountTwo<T>(s: seq<T>, a: nat, b: nat)
    requires a < b < |s| && s[a] == s[b]
    ensures multiset(s)[s[a]] >= 2
  {
    assert s == s[..a] + [s[a]] + s[a + 1..b] + [s[b]] + s[b + 1..];
  }

  /** In a list without repeats every element occurs at most once. */
  lemma {:induction false} CountOne<T>(s: seq<T>, x: T)
    requires forall a, b :: 0 <= a < b < |s| ==> s[a] != s[b]
    ensures multiset(s)[x] <= 1
  {
    if s != [] {
      assert s == [s[0]] + s[1..];
      forall a, b | 0 <= a < b < |s| - 1 ensures s[1..][a] != s[1..][b] {
        assert s[1..][a] == s[a + 1] && s[1..][b] == s[b + 1];
      }
      CountOne(s[1..], x);
      if s[0] == x {
        forall k | 0 <= k < |s| - 1 ensures s[1..][k] != x {
          assert s[1..][k] == s[k + 1];
        }
      }
    }
  }

  /** With unique ids, the row of an id carries that process's arrival and burst, and its
      waiting time is never negative: a process cannot finish sooner than its burst after it
      arrives. */
  lemma {:induction false} RowOfScheduled(ps: seq<Process>, s: seq<Interval>, pid: string)
    requires WellFormedSchedule(ps, s)
    requires IntervalsOf(s, pid) != []
    ensures RowOf(ps, s, pid).Ok?
    ensures RowOf(ps, s, pid).value.waiting >= 0
  {
    assert IntervalsOf(s, pid)[0] in IntervalsOf(s, pid);
    var i := IndexOf(s, IntervalsOf(s, pid)[0]);
    var p := Find(ps, pid).value;
    var k := IndexOf(ps, p);
    assert TotalLength(s, ps[k].id) == ps[k].burst;
    WorkFitsBeforeCompletion(s, pid, p.arrival);
  }

  /** The row names a listed process and shows that process's arrival and burst. */
  predicate CarriesProcess(ps: seq<Process>, row: ResultRow) {
    && Find(ps, row.process).Some?
    && row.arrival == Find(ps, row.process).value.arrival
    && row.burst == Find(ps, row.process).value.burst
  }

  /** Rows no waiting time of which is negative, each carrying the arrival and burst of the
      process it names, with a row for every process of `ps`. */
  predicate RowsSound(ps: seq<Process>, rows: seq<ResultRow>) {
    && (forall k :: 0 <= k < |rows| ==> rows[k].waiting >= 0)
    && (forall k :: 0 <= k < |rows| ==> CarriesProcess(ps, rows[k]))
    && (forall j :: 0 <= j < |ps| ==> ps[j].id in RowIds(rows))
  }

  /** For a well-formed schedule of a valid list, `calculateResults` succeeds and its rows are
      sound. */
  lemma WellFormedResults(ps: seq<Process>, s: seq<Interval>)
    requires ValidProcesses(ps) && WellFormedSchedule(ps, s)
    ensures CalculateResults(ps, s).Ok?
    ensures RowsSound(ps, CalculateResults(ps, s).value)
  {
    CalculateResultsFails(ps, s);
    var rows := CalculateResults(ps, s).value;
    CalculateResultsRows(ps, s, rows);
    RowsWaitNonNegative(ps, s, rows);
    RowsCoverProcesses(ps, s, rows);
  }

  lemma RowsWaitNonNegative(ps: seq<Process>, s: seq<Interval>, rows: seq<ResultRow>)
    requires WellFormedSchedule(ps, s)
    requires forall k :: 0 <= k < |rows| ==>
      IntervalsOf(s, rows[k].process) != [] && RowOf(ps, s, rows[k].process) == Ok(rows[k])
    ensures forall k :: 0 <= k < |rows| ==> rows[k].waiting >= 0
    ensures forall k :: 0 <= k < |rows| ==> CarriesProcess(ps, rows[k])
  {
    forall k | 0 <= k < |rows| ensures rows[k].waiting >= 0 {
      RowOfScheduled(ps, s, rows[k].process);
    }
  }

  lemma RowsCoverProcesses(ps: seq<Process>, s: seq<Interval>, rows: seq<ResultRow>)
    requires ValidProcesses(ps) && ConservesWork(ps, s)
    requires forall i :: 0 <= i < |s| ==> s[i].process in RowIds(rows)
    ensures forall j :: 0 <= j < |ps| ==> ps[j].id in RowIds(rows)
  {
    forall j | 0 <= j < |ps| ensures ps[j].id in RowIds(rows) {
      assert TotalLength(s, ps[j].id) == ps[j].burst;
      if IntervalsOf(s, ps[j].id) == [] {
        TotalLengthAbsent(s, ps[j].id);
      }
      assert IntervalsOf(s, ps[j].id)[0] in IntervalsOf(s, ps[j].id);
      var i := IndexOf(s, IntervalsOf(s, ps[j].id)[0]);
    }
  }

  /** `results.reduce((sum, r) => sum + r.waiting, 0)`. */
  function TotalWaiting(rows: seq<ResultRow>): (t: int)
    ensures (forall k :: 0 <= k < |rows| ==> rows[k].waiting >= 0) ==> t >= 0
  {
    if rows == [] then 0 else rows[0].waiting + TotalWaiting(rows[1..])
  }

  /** `results.reduce((sum, r) => sum + r.turnaround, 0)`. */
  function TotalTurnaround(rows: seq<ResultRow>): (t: int)
    ensures (forall k :: 0 <= k < |rows| ==> rows[k].turnaround >= 0) ==> t >= 0
  {
    if rows == [] then 0 else rows[0].turnaround + TotalTurnaround(rows[1..])
  }

  /** `results.reduce((sum, r) => sum + r.burst, 0)`, the numerator of the CPU utilisation. */
  function TotalBurst(rows: seq<ResultRow>): (t: int)
    ensures (forall k :: 0 <= k < |rows| ==> rows[k].burst >= 1) ==> t >= |rows|
  {
    if rows == [] then 0 else rows[0].burst + TotalBurst(rows[1..])
  }

  lemma {:induction false} TotalsAdd(rows: seq<ResultRow>)
    requires forall k :: 0 <= k < |rows| ==> rows[k].turnaround == rows[k].waiting + rows[k].burst
    ensures TotalTurnaround(rows) == TotalWaiting(rows) + TotalBurst(rows)
  {
    if rows != [] {
      assert forall k :: 0 <= k < |rows| - 1 ==> rows[1..][k] == rows[k + 1];
      TotalsAdd(rows[1..]);
    }
  }

  /** The average turnaround exceeds the average waiting time by the average burst: the two
      sums `showResults` divides by the row count differ by the summed bursts. */
  lemma ResultTotals(ps: seq<Process>, s: seq<Interval>, rows: seq<ResultRow>)
    requires CalculateResults(ps, s) == Ok(rows)
    ensures TotalTurnaround(rows) == TotalWaiting(rows) + TotalBurst(rows)
  {
    CalculateResultsRows(ps, s, rows);
    forall k | 0 <= k < |rows| ensures rows[k].turnaround == rows[k].waiting + rows[k].burst {
      assert RowOf(ps, s, rows[k].process) == Ok(rows[k]);
    }
    TotalsAdd(rows);
  }

  /** The CPU time of all intervals together. */
  function BusyTime(s: seq<Interval>): int {
    if s == [] then 0 else (s[0].end - s[0].start) + BusyTime(s[1..])
  }

  /** In an ordered schedule whose first interval starts at `from` or later, the CPU is busy
      for at most the span from `from` to the last end. */
  lemma {:induction false} BusyWithinSpan(s: seq<Interval>, from: int)
    requires s != [] && Ordered(s) && from <= s[0].start
    ensures BusyTime(s) <= MaxEnd(s) - from
  {
    var t := s[1..];
    if t != [] {
      assert Ordered(t) by {
        assert forall i :: 0 <= i < |t| ==> t[i] == s[i + 1];
      }
      assert t[0] == s[1];
      BusyWithinSpan(t, s[0].end);
      var j :| 0 <= j < |t| && t[j].end == MaxEnd(t);
      assert t[j] == s[j + 1];
    }
  }

  /** The CPU time given to the ids `xs`, summed id by id. */
  function TimeOfIds(s: seq<Interval>, xs: seq<string>): int {
    if xs == [] then 0 else TotalLength(s, xs[0]) + TimeOfIds(s, xs[1..])
  }

  /** What one interval of `id` adds to the sum over `xs`: its length once per occurrence. */
  function Hits(xs: seq<string>, id: string, len: int): int {
    if xs == [] then 0 else (if xs[0] == id then len else 0) + Hits(xs[1..], id, len)
  }

  lemma {:induction false} HitsOnce(xs: seq<string>, id: string, len: int)
    requires forall a, b :: 0 <= a < b < |xs| ==> xs[a] != xs[b]
    ensures Hits(xs, id, len) == if id in xs then len else 0
  {
    if xs != [] {
      var t := xs[1..];
      forall a, b | 0 <= a < b < |t| ensures t[a] != t[b] {
        assert t[a] == xs[a + 1] && t[b] == xs[b + 1];
      }
      HitsOnce(t, id, len);
      if xs[0] == id {
        forall a | 0 <= a < |t| ensures t[a] != id {
          assert t[a] == xs[a + 1];
        }
      }
      assert xs == [xs[0]] + t;
    }
  }

  lemma {:induction false} TimeOfIdsCons(iv: Interval, t: seq<Interval>, xs: seq<string>)
    ensures TimeOfIds([iv] + t, xs) == Hits(xs, iv.process, iv.end - iv.start) + TimeOfIds(t, xs)
  {
    assert ([iv] + t)[1..] == t;
    if xs != [] {
      TimeOfIdsCons(iv, t, xs[1..]);
    }
  }

  lemma {:induction false} TimeOfIdsEmpty(xs: seq<string>)
    ensures TimeOfIds([], xs) == 0
  {
    if xs != [] {
      TimeOfIdsEmpty(xs[1..]);
    }
  }

  /** Summing the CPU time id by id over distinct ids that cover the schedule counts every
      interval exactly once. */
  lemma {:induction false} TimeOfIdsIsBusyTime(s: seq<Interval>, xs: seq<string>)
    requires forall a, b :: 0 <= a < b < |xs| ==> xs[a] != xs[b]
    requires forall i :: 0 <= i < |s| ==> s[i].process in xs
    ensures TimeOfIds(s, xs) == BusyTime(s)
  {
    if s == [] {
      TimeOfIdsEmpty(xs);
    } else {
      var t := s[1..];
      assert s == [s[0]] + t;
      assert forall i :: 0 <= i < |t| ==> t[i] == s[i + 1];
      TimeOfIdsIsBusyTime(t, xs);
      TimeOfIdsCons(s[0], t, xs);
      HitsOnce(xs, s[0].process, s[0].end - s[0].start);
    }
  }

  /** Rows whose bursts are their processes' CPU time in `s` sum to the time of their ids. */
  lemma {:induction false} BurstsAreTimes(s: seq<Interval>, rows: seq<ResultRow>)
    requires forall k :: 0 <= k < |rows| ==> rows[k].burst == TotalLength(s, rows[k].process)
    ensures TotalBurst(rows) == TimeOfIds(s, RowIds(rows))
  {
    if rows != [] {
      assert forall k :: 0 <= k < |rows| - 1 ==> rows[1..][k] == rows[k + 1];
      BurstsAreTimes(s, rows[1..]);
      assert RowIds(rows)[1..] == RowIds(rows[1..]);
    }
  }

  /** CPU utilisation never exceeds 100%: for a well-formed schedule of a valid list, the
      summed bursts of the rows fit between time 0 and `maxTime`, the latest end; and a
      non-empty schedule gives at least one row, so the averages divide by a positive count. */
  lemma UtilisationBounded(ps: seq<Process>, s: seq<Interval>, rows: seq<ResultRow>)
    requires ValidProcesses(ps) && WellFormedSchedule(ps, s) && s != []
    requires CalculateResults(ps, s) == Ok(rows)
    ensures |rows| > 0
    ensures 0 <= TotalBurst(rows) <= MaxEnd(s)
  {
    CalculateResultsRows(ps, s, rows);
    RowsWaitNonNegative(ps, s, rows);
    forall k | 0 <= k < |rows| ensures rows[k].burst == TotalLength(s, rows[k].process) {
      assert CarriesProcess(ps, rows[k]);
      var j := IndexOf(ps, Find(ps, rows[k].process).value);
      assert TotalLength(s, ps[j].id) == ps[j].burst;
    }
    BurstsAreTimes(s, rows);
    forall a, b | 0 <= a < b < |rows| ensures RowIds(rows)[a] != RowIds(rows)[b] {
    }
    TimeOfIdsIsBusyTime(s, RowIds(rows));
    var p := Find(ps, s[0].process).value;
    assert ps[IndexOf(ps, p)] == p;
    BusyWithinSpan(s, 0);
    BusyNonNegative(s);
  }

  lemma {:induction false} BusyNonNegative(s: seq<Interval>)
    requires forall i :: 0 <= i < |s| ==> s[i].start <= s[i].end
    ensures BusyTime(s) >= 0
  {
    if s != [] {
      assert forall i :: 0 <= i < |s| - 1 ==> s[1..][i] == s[i + 1];
      BusyNonNegative(s[1..]);
    }
  }
}
