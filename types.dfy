/** Process descriptors, execution intervals and the invariants of a process list. */
module Types {

  datatype Option<T> = None | Some(value: T)

  datatype Result<T, E> = Ok(value: T) | Err(error: E)

  /** Number of entries of the colour palette. */
  const PaletteSize: nat := 12

  /** A process of the process list; `color` is the index of its palette entry. */
  datatype Process = Process(id: string, arrival: int, burst: int, priority: int, color: nat)

  /** `{process, start, end, color}`: process `process` holds the CPU during [start, end);
      `color` is its palette index, for the Gantt chart. */
  datatype Interval = Interval(process: string, start: int, end: int, color: nat)

  function Max(a: int, b: int): int { if a < b then b else a }

  function Min(a: int, b: int): int { if a < b then a else b }

  /** `s.splice(i, 1)` for an index inside `s`. */
  function RemoveAt<T>(s: seq<T>, i: nat): (r: seq<T>)
    requires i < |s|
    ensures |r| == |s| - 1
    ensures forall k :: 0 <= k < i ==> r[k] == s[k]
    ensures forall k :: i <= k < |r| ==> r[k] == s[k + 1]
    ensures multiset(r) + multiset{s[i]} == multiset(s)
  {
    assert s == s[..i] + [s[i]] + s[i + 1..];
    s[..i] + s[i + 1..]
  }

  lemma RemoveAtHead<T>(s: seq<T>)
    requires 0 < |s|
    ensures RemoveAt(s, 0) == s[1..]
  {
  }

  lemma RemoveAtCons<T>(s: seq<T>, i: nat)
    requires 0 < i < |s|
    ensures RemoveAt(s, i) == [s[0]] + RemoveAt(s[1..], i - 1)
  {
    assert s[..i] == [s[0]] + s[1..][..i - 1];
    assert s[i + 1..] == s[1..][i..];
  }

  /** Taking the head off one list and a copy of it off a reordering leaves reorderings. */
  lemma PermutationTail<T>(a: seq<T>, b: seq<T>, i: nat)
    requires a != [] && i < |b| && b[i] == a[0] && multiset(a) == multiset(b)
    ensures multiset(a[1..]) == multiset(RemoveAt(b, i))
  {
    assert a == [a[0]] + a[1..];
    assert multiset(a) == multiset{a[0]} + multiset(a[1..]);
    assert multiset(RemoveAt(b, i)) + multiset{a[0]} == multiset(a[1..]) + multiset{a[0]};
    forall x ensures multiset(a[1..])[x] == multiset(RemoveAt(b, i))[x] {
      assert (multiset(RemoveAt(b, i)) + multiset{a[0]})[x] == (multiset(a[1..]) + multiset{a[0]})[x];
    }
  }

  /** `s.indexOf(x)`: the first position holding `x`. */
  function IndexOf<T(==)>(s: seq<T>, x: T): (i: nat)
    requires x in s
    ensures i < |s| && s[i] == x
    ensures forall k :: 0 <= k < i ==> s[k] != x
  {
    if s[0] == x then 0 else 1 + IndexOf(s[1..], x)
  }

  /** Two first positions of the same element coincide. */
  lemma FirstIndexUnique<T>(s: seq<T>, x: T, i: nat, j: nat)
    requires i < |s| && s[i] == x && forall k :: 0 <= k < i ==> s[k] != x
    requires j < |s| && s[j] == x && forall k :: 0 <= k < j ==> s[k] != x
    ensures i == j
  {
  }

  /** What the process form accepts: a non-empty id, arrival >= 0, burst >= 1, priority >= 1,
      and a palette index. */
  predicate ValidProcess(p: Process) {
    p.id != [] && p.arrival >= 0 && p.burst >= 1 && p.priority >= 1 && p.color < PaletteSize
  }

  predicate UniqueIds(ps: seq<Process>) {
    forall i, j :: 0 <= i < j < |ps| ==> ps[i].id != ps[j].id
  }

  /** The invariant of every process list the editor can build. */
  predicate ValidProcesses(ps: seq<Process>) {
    (forall i :: 0 <= i < |ps| ==> ValidProcess(ps[i])) && UniqueIds(ps)
  }

  /** `processes.find((p) => p.id === id)`: the first process with that id, if any. */
  function Find(ps: seq<Process>, id: string): (r: Option<Process>)
    ensures r.Some? ==> r.value in ps && r.value.id == id
    ensures r.Some? ==> forall i :: 0 <= i < |ps| && ps[i].id == id && (forall k :: 0 <= k < i ==> ps[k].id != id) ==>
      ps[i] == r.value
    ensures r.None? <==> forall i :: 0 <= i < |ps| ==> ps[i].id != id
  {
    if ps == [] then None
    else if ps[0].id == id then Some(ps[0])
    else
      var r := Find(ps[1..], id);
      assert r.None? ==> forall i :: 1 <= i < |ps| ==> ps[i].id != id by {
        if r.None? {
          forall i | 1 <= i < |ps| ensures ps[i].id != id { assert ps[i] == ps[1..][i - 1]; }
        }
      }
      r
  }

  lemma {:induction false} UniqueIdsTail(ps: seq<Process>)
    requires ps != [] && UniqueIds(ps)
    ensures UniqueIds(ps[1..])
  {
    forall i, j | 0 <= i < j < |ps| - 1 ensures ps[1..][i].id != ps[1..][j].id {
      assert ps[1..][i] == ps[i + 1] && ps[1..][j] == ps[j + 1];
    }
  }

  /** With unique ids, looking a process up by its id finds that very process. */
  lemma {:induction false} FindUnique(ps: seq<Process>, k: nat)
    requires UniqueIds(ps) && k < |ps|
    ensures Find(ps, ps[k].id) == Some(ps[k])
  {
    if k > 0 {
      assert ps[0].id != ps[k].id;
      UniqueIdsTail(ps);
      assert ps[1..][k - 1] == ps[k];
      FindUnique(ps[1..], k - 1);
    }
  }

  /** The four processes the page starts with: id, arrival, burst, priority, colour. */
  const P1 := Process("P1", 0, 5, 2, 0)
  const P2 := Process("P2", 1, 3, 1, 1)
  const P3 := Process("P3", 2, 8, 3, 2)
  const P4 := Process("P4", 3, 6, 4, 3)

  function SampleProcesses(): seq<Process> {
    [P1, P2, P3, P4]
  }

  /** Three processes listed against their arrival order: A arrives at 2, B at 1, C at 0. */
  const A := Process("A", 2, 1, 1, 0)
  const B := Process("B", 1, 1, 1, 1)
  const C := Process("C", 0, 3, 1, 2)

  function Trio(): seq<Process> {
    [A, B, C]
  }
}
