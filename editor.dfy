/** The process-list editor: adding and deleting processes, and the undo/redo history that
    stores a copy of the list after every edit. */
module Editor {
  import opened Types

  /** What `addProcess` refuses, in the order it checks. */
  datatype AddError =
    | MissingId            // "Please enter a Process ID"
    | DuplicateId(id: string)
    | BadArrival           // not a number, or negative
    | BadBurst             // not a number, or below 1
    | BadPriority          // not a number, or below 1

  /** No process of `ps` has the id `id`. */
  predicate IdUnused(ps: seq<Process>, id: string) {
    forall k :: 0 <= k < |ps| ==> ps[k].id != id
  }

  /** The checks of `addProcess` on the form's values: the trimmed id and the parsed numbers,
      `None` standing for `NaN`. Each refusal is reported exactly when every earlier check
      passed and its own fails. The new process takes palette entry `|ps| % 12`. */
  function CheckNewProcess(ps: seq<Process>, id: string, arrival: Option<int>, burst: Option<int>,
                           priority: Option<int>): (r: Result<Process, AddError>)
    ensures r.Ok? <==>
      && id != [] && IdUnused(ps, id)
      && arrival.Some? && arrival.value >= 0
      && burst.Some? && burst.value >= 1
      && priority.Some? && priority.value >= 1
    ensures r.Ok? ==> r.value == Process(id, arrival.value, burst.value, priority.value, |ps| % PaletteSize)
    ensures r == Err(MissingId) <==> id == []
    ensures r == Err(DuplicateId(id)) <==> id != [] && !IdUnused(ps, id)
    ensures r.Err? && r.error.DuplicateId? ==> r.error.id == id
    ensures r == Err(BadArrival) <==> id != [] && IdUnused(ps, id) && (arrival.None? || arrival.value < 0)
    ensures r == Err(BadBurst) <==>
      && id != [] && IdUnused(ps, id) && arrival.Some? && arrival.value >= 0
      && (burst.None? || burst.value < 1)
    ensures r == Err(BadPriority) <==>
      && id != [] && IdUnused(ps, id) && arrival.Some? && arrival.value >= 0
      && burst.Some? && burst.value >= 1
      && (priority.None? || priority.value < 1)
  {
    if id == [] then Err(MissingId)
    else if exists k :: 0 <= k < |ps| && ps[k].id == id then Err(DuplicateId(id))
    else if arrival.None? || arrival.value < 0 then Err(BadArrival)
    else if burst.None? || burst.value < 1 then Err(BadBurst)
    else if priority.None? || priority.value < 1 then Err(BadPriority)
    else Ok(Process(id, arrival.value, burst.value, priority.value, |ps| % PaletteSize))
  }

  /** A process `addProcess` accepts keeps the list valid. */
  lemma AddKeepsValid(ps: seq<Process>, id: string, arrival: Option<int>, burst: Option<int>,
                      priority: Option<int>)
    requires ValidProcesses(ps)
    requires CheckNewProcess(ps, id, arrival, burst, priority).Ok?
    ensures ValidProcesses(ps + [CheckNewProcess(ps, id, arrival, burst, priority).value])
  {
    var r := ps + [CheckNewProcess(ps, id, arrival, burst, priority).value];
    assert forall k :: 0 <= k < |ps| ==> r[k] == ps[k];
  }

  /** `processes.splice(index, 1)` for an index from the rendered list: it removes that entry;
      an index past the end removes nothing. */
  function DeleteAt(ps: seq<Process>, index: nat): (r: seq<Process>)
    ensures index < |ps| ==> |r| == |ps| - 1 && multiset(r) + multiset{ps[index]} == multiset(ps)
    ensures index < |ps| ==> forall k :: 0 <= k < |r| ==> r[k] == ps[if k < index then k else k + 1]
    ensures index >= |ps| ==> r == ps
  {
    if index < |ps| then RemoveAt(ps, index) else ps
  }

  /** Deleting keeps the list valid and the order of the other processes. */
  lemma DeleteKeepsValid(ps: seq<Process>, index: nat)
    requires ValidProcesses(ps)
    ensures ValidProcesses(DeleteAt(ps, index))
    ensures index < |ps| ==> forall k :: 0 <= k < |ps| - 1 ==>
      DeleteAt(ps, index)[k] == ps[if k < index then k else k + 1]
  {
  }

  /** The list with `samples` pushed in order, each with palette entry `length % 12` of the
      list it joins. */
  function PushColoured(ps: seq<Process>, samples: seq<Process>): (r: seq<Process>)
    ensures |r| == |ps| + |samples|
    ensures r[..|ps|] == ps
    ensures forall i :: 0 <= i < |samples| ==> r[|ps| + i] == samples[i].(color := (|ps| + i) % PaletteSize)
    decreases |samples|
  {
    if samples == [] then ps
    else PushColoured(ps + [samples[0].(color := |ps| % PaletteSize)], samples[1..])
  }

  /** The sample rows of `initializeSampleData`, before colouring. */
  function Samples(): seq<Process> {
    [Process("P1", 0, 5, 2, 0), Process("P2", 1, 3, 1, 0), Process("P3", 2, 8, 3, 0), Process("P4", 3, 6, 4, 0)]
  }

  /** Loading the samples into the empty list gives palette entries 0 to 3. */
  lemma SamplesLoaded()
    ensures PushColoured([], Samples()) == SampleProcesses()
  {
  }

  /** The sample list is a valid process list. */
  lemma SamplesValid()
    ensures ValidProcesses(SampleProcesses())
  {
    var ps := SampleProcesses();
    assert forall i :: 0 <= i < 4 ==> ps[i].id == ['P', "1234"[i]];
  }

  /** The editor's state: the list, the saved copies, and the position of the current copy. */
  datatype Snapshot = Snapshot(processes: seq<Process>, history: seq<seq<Process>>, index: int)

  /** The state every handler leaves: the index is -1 only before the first save, otherwise it
      points at a copy equal to the list; every list is valid. */
  predicate Consistent(st: Snapshot) {
    && -1 <= st.index < |st.history|
    && (st.index == -1 ==> st.history == [])
    && (st.index >= 0 ==> st.processes == st.history[st.index])
    && ValidProcesses(st.processes)
    && (forall k :: 0 <= k < |st.history| ==> ValidProcesses(st.history[k]))
  }

  /** `historyIndex <= 0`: the undo button is disabled. */
  predicate UndoDisabled(st: Snapshot) {
    st.index <= 0
  }

  /** `historyIndex >= history.length - 1`: the redo button is disabled. */
  predicate RedoDisabled(st: Snapshot) {
    st.index >= |st.history| - 1
  }

  /** `saveState`: drop the copies after the current one, then push a copy of the list. */
  function Saved(st: Snapshot): (r: Snapshot)
    requires -1 <= st.index < |st.history|
    ensures r.processes == st.processes
    ensures |r.history| == st.index + 2 && r.index == |r.history| - 1
    ensures forall k :: 0 <= k <= st.index ==> r.history[k] == st.history[k]
    ensures r.history[r.index] == st.processes
  {
    Snapshot(st.processes, st.history[..st.index + 1] + [st.processes], st.index + 1)
  }

  /** `undo`: step back one copy and restore it, unless the button is disabled. */
  function Undone(st: Snapshot): (r: Snapshot)
    requires st.index < |st.history|
    ensures r.history == st.history
    ensures UndoDisabled(st) ==> r == st
    ensures !UndoDisabled(st) ==> r.index == st.index - 1 && r.processes == st.history[r.index]
  {
    if UndoDisabled(st) then st else Snapshot(st.history[st.index - 1], st.history, st.index - 1)
  }

  /** `redo`: step forward one copy and restore it, unless the button is disabled. */
  function Redone(st: Snapshot): (r: Snapshot)
    requires -1 <= st.index
    ensures r.history == st.history
    ensures RedoDisabled(st) ==> r == st
    ensures !RedoDisabled(st) ==> r.index == st.index + 1 && r.processes == st.history[r.index]
  {
    if RedoDisabled(st) then st else Snapshot(st.history[st.index + 1], st.history, st.index + 1)
  }

  /** Saving after an edit to a valid list keeps the state consistent; afterwards nothing can be
      redone, and undo is available exactly when there was an earlier copy. */
  lemma SavedConsistent(st: Snapshot, edited: seq<Process>)
    requires Consistent(st) && ValidProcesses(edited)
    ensures Consistent(Saved(st.(processes := edited)))
    ensures RedoDisabled(Saved(st.(processes := edited)))
    ensures UndoDisabled(Saved(st.(processes := edited))) <==> st.index == -1
  {
    var r := Saved(st.(processes := edited));
    forall k | 0 <= k < |r.history| ensures ValidProcesses(r.history[k]) {
      if k <= st.index {
        assert r.history[k] == st.history[k];
      }
    }
  }

  /** Undoing right after saving an edit brings back the list from before the edit, and redoing
      then brings the edit back. */
  lemma UndoRevertsEdit(st: Snapshot, edited: seq<Process>)
    requires Consistent(st) && st.index >= 0
    ensures Undone(Saved(st.(processes := edited))).processes == st.processes
    ensures Redone(Undone(Saved(st.(processes := edited)))) == Saved(st.(processes := edited))
  {
  }

  lemma UndoConsistent(st: Snapshot)
    requires Consistent(st)
    ensures Consistent(Undone(st))
  {
  }

  lemma RedoConsistent(st: Snapshot)
    requires Consistent(st)
    ensures Consistent(Redone(st))
  {
  }

  /** Undo followed by redo restores the state. */
  lemma UndoThenRedo(st: Snapshot)
    requires Consistent(st) && !UndoDisabled(st)
    ensures !RedoDisabled(Undone(st))
    ensures Redone(Undone(st)) == st
  {
  }

  /** Redo followed by undo restores the state. */
  lemma RedoThenUndo(st: Snapshot)
    requires Consistent(st) && !RedoDisabled(st)
    ensures !UndoDisabled(Redone(st))
    ensures Undone(Redone(st)) == st
  {
  }

  /** A history button is disabled exactly when clicking it would change nothing. */
  lemma ButtonsDisabled(st: Snapshot)
    requires Consistent(st)
    ensures UndoDisabled(st) <==> Undone(st) == st
    ensures RedoDisabled(st) <==> Redone(st) == st
  {
  }

  /** The page's process list together with its history (`processes`, `history`,
      `historyIndex`). */
  class Session {
    var processes: seq<Process>
    var history: seq<seq<Process>>
    var historyIndex: int

    function State(): Snapshot
      reads this
    {
      Snapshot(processes, history, historyIndex)
    }

    ghost predicate Valid()
      reads this
    {
      Consistent(State())
    }

    /** The page load: the empty state of the globals, then `initializeSampleData`, which
        pushes each sample with the next palette entry and saves. */
    constructor ()
      ensures Valid()
      ensures processes == SampleProcesses() && history == [SampleProcesses()] && historyIndex == 0
      ensures UndoDisabled(State()) && RedoDisabled(State())
    {
      processes := [];
      history := [];
      historyIndex := -1;
      new;
      var samples := Samples();
      var i := 0;
      while i < |samples|
        invariant 0 <= i <= |samples|
        invariant history == [] && historyIndex == -1
        invariant PushColoured(processes, samples[i..]) == SampleProcesses()
      {
        assert samples[i..][1..] == samples[i + 1..];
        processes := processes + [samples[i].(color := |processes| % PaletteSize)];
        i := i + 1;
      }
      SamplesLoaded();
      SamplesValid();
      SaveState();
    }

    /** `saveState`. */
    method SaveState()
      requires -1 <= historyIndex < |history|
      modifies this
      ensures State() == Saved(old(State()))
    {
      history := history[..historyIndex + 1] + [processes];
      historyIndex := historyIndex + 1;
    }

    /** `undo`. */
    method Undo()
      requires Valid()
      modifies this
      ensures Valid() && State() == Undone(old(State()))
    {
      UndoConsistent(State());
      if historyIndex > 0 {
        historyIndex := historyIndex - 1;
        processes := history[historyIndex];
      }
    }

    /** `redo`. */
    method Redo()
      requires Valid()
      modifies this
      ensures Valid() && State() == Redone(old(State()))
    {
      RedoConsistent(State());
      if historyIndex < |history| - 1 {
        historyIndex := historyIndex + 1;
        processes := history[historyIndex];
      }
    }

    /** `addProcess`: on success push the new process and save; on a refused entry change
        nothing. */
    method AddProcess(id: string, arrival: Option<int>, burst: Option<int>, priority: Option<int>)
      returns (r: Result<Process, AddError>)
      requires Valid()
      modifies this
      ensures r == CheckNewProcess(old(processes), id, arrival, burst, priority)
      ensures Valid()
      ensures r.Ok? ==> State() == Saved(old(State()).(processes := old(processes) + [r.value]))
      ensures r.Err? ==> State() == old(State())
    {
      r := CheckNewProcess(processes, id, arrival, burst, priority);
      if r.Ok? {
        AddKeepsValid(processes, id, arrival, burst, priority);
        SavedConsistent(State(), processes + [r.value]);
        processes := processes + [r.value];
        SaveState();
      }
    }

    /** `deleteProcess(index)`: splice, then save. */
    method DeleteProcess(index: nat)
      requires Valid()
      modifies this
      ensures Valid()
      ensures State() == Saved(old(State()).(processes := DeleteAt(old(processes), index)))
    {
      DeleteKeepsValid(processes, index);
      SavedConsistent(State(), DeleteAt(processes, index));
      processes := DeleteAt(processes, index);
      SaveState();
    }

    /** `clearAllProcesses`: nothing on an empty list; otherwise, once the user confirms, empty
        the list and save. */
    method ClearAllProcesses(confirmed: bool)
      requires Valid()
      modifies this
      ensures Valid()
      ensures if |old(processes)| > 0 && confirmed then State() == Saved(old(State()).(processes := []))
              else State() == old(State())
    {
      if |processes| == 0 {
        return;
      }
      if confirmed {
        SavedConsistent(State(), []);
        processes := [];
        SaveState();
      }
    }
  }
}
