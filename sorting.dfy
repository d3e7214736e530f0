/** `Array.prototype.sort` with the comparators of the schedulers. ECMAScript 2019 (ECMA-262,
    10th edition, section 22.1.3.27) requires the sort to be stable, so it is modelled as a
    stable insertion sort, specified by: sorted, a permutation, and stable. */
module Sorting {
  import opened Types

  /** The field a non-preemptive scheduler minimises. */
  datatype Criterion = ShortestBurst | LowestPriority

  /** The comparators handed to `sort`. */
  datatype SortOrder =
    | ByArrival                   // `a.arrival - b.arrival`
    | ByArrivalThen(c: Criterion) // arrival first, ties by the criterion
    | ByCriterion(c: Criterion)   // `a.burst - b.burst` or `a.priority - b.priority`

  function Sel(c: Criterion, p: Process): int {
    match c
    case ShortestBurst => p.burst
    case LowestPriority => p.priority
  }

  /** What the comparator of `o` looks at: the first component, then the second. */
  function Key(o: SortOrder, p: Process): (int, int) {
    match o
    case ByArrival => (p.arrival, 0)
    case ByArrivalThen(c) => (p.arrival, Sel(c, p))
    case ByCriterion(c) => (Sel(c, p), 0)
  }

  /** The comparator's value: negative puts `a` first, zero keeps the input order. It is the
      comparator of the source: for `ByArrivalThen(c)` it is the criterion's difference when the
      arrivals are equal and the arrivals' difference otherwise. */
  function Compare(o: SortOrder, a: Process, b: Process): int {
    var ka, kb := Key(o, a), Key(o, b);
    if ka.0 == kb.0 then ka.1 - kb.1 else ka.0 - kb.0
  }

  predicate Sorted(o: SortOrder, s: seq<Process>) {
    forall i, j :: 0 <= i < j < |s| ==> Compare(o, s[i], s[j]) <= 0
  }

  /** Puts `x` in front of the first element it does not come after. */
  function Insert(o: SortOrder, x: Process, s: seq<Process>): (r: seq<Process>)
    ensures |r| == |s| + 1
    ensures multiset(r) == multiset(s) + multiset{x}
  {
    if s == [] || Compare(o, x, s[0]) <= 0 then [x] + s
    else
      assert s == [s[0]] + s[1..];
      [s[0]] + Insert(o, x, s[1..])
  }

  lemma {:induction false} SortedTail(o: SortOrder, s: seq<Process>)
    requires s != [] && Sorted(o, s)
    ensures Sorted(o, s[1..])
    ensures forall y :: y in s[1..] ==> Compare(o, s[0], y) <= 0
  {
    forall i, j | 0 <= i < j < |s| - 1 ensures Compare(o, s[1..][i], s[1..][j]) <= 0 {
      assert s[1..][i] == s[i + 1] && s[1..][j] == s[j + 1];
    }
    forall y | y in s[1..] ensures Compare(o, s[0], y) <= 0 {
      var j := IndexOf(s[1..], y);
      assert s[j + 1] == y;
    }
  }

  lemma {:induction false} SortedCons(o: SortOrder, y: Process, t: seq<Process>)
    requires Sorted(o, t)
    requires forall z :: z in t ==> Compare(o, y, z) <= 0
    ensures Sorted(o, [y] + t)
  {
    var r := [y] + t;
    forall i, j | 0 <= i < j < |r| ensures Compare(o, r[i], r[j]) <= 0 {
      assert r[j] == t[j - 1];
      if i > 0 {
        assert r[i] == t[i - 1];
      } else {
        assert t[j - 1] in t;
      }
    }
  }

  lemma {:induction false} InsertSorted(o: SortOrder, x: Process, s: seq<Process>)
    requires Sorted(o, s)
    ensures Sorted(o, Insert(o, x, s))
  {
    if s == [] || Compare(o, x, s[0]) <= 0 {
      if s != [] {
        SortedTail(o, s);
      }
      SortedCons(o, x, s);
    } else {
      var t := Insert(o, x, s[1..]);
      SortedTail(o, s);
      InsertSorted(o, x, s[1..]);
      forall y | y in t ensures Compare(o, s[0], y) <= 0 {
        assert y in multiset(t);
        assert y == x || y in multiset(s[1..]);
      }
      SortedCons(o, s[0], t);
    }
  }

  /** `[...s].sort(cmp)` for the comparator of `o`. */
  function StableSort(o: SortOrder, s: seq<Process>): (r: seq<Process>)
    ensures |r| == |s|
    ensures multiset(r) == multiset(s)
    ensures Sorted(o, r)
  {
    if s == [] then []
    else
      assert s == [s[0]] + s[1..];
      InsertSorted(o, s[0], StableSort(o, s[1..]));
      Insert(o, s[0], StableSort(o, s[1..]))
  }

  /** Removing an element keeps a list sorted. */
  lemma SortedRemoveAt(o: SortOrder, s: seq<Process>, i: nat)
    requires i < |s| && Sorted(o, s)
    ensures Sorted(o, RemoveAt(s, i))
  {
    var r := RemoveAt(s, i);
    forall a, b | 0 <= a < b < |r| ensures Compare(o, r[a], r[b]) <= 0 {
      var a', b' := if a < i then a else a + 1, if b < i then b else b + 1;
      assert r[a] == s[a'] && r[b] == s[b'];
    }
  }

  /** Sorting a list that is already in order leaves it unchanged. */
  lemma {:induction false} StableSortOfSorted(o: SortOrder, s: seq<Process>)
    requires Sorted(o, s)
    ensures StableSort(o, s) == s
  {
    if s != [] {
      SortedTail(o, s);
      StableSortOfSorted(o, s[1..]);
      InsertFront(o, s[0], s[1..]);
      assert s == [s[0]] + s[1..];
    }
  }

  lemma InsertFront(o: SortOrder, x: Process, t: seq<Process>)
    requires forall y :: y in t ==> Compare(o, x, y) <= 0
    ensures Insert(o, x, t) == [x] + t
  {
    if t != [] {
      assert t[0] in t;
    }
  }

  /** The elements the comparator ranks equal to `k`, in their order in `s`. */
  function Tied(o: SortOrder, s: seq<Process>, k: Process): seq<Process> {
    if s == [] then []
    else (if Key(o, s[0]) == Key(o, k) then [s[0]] else []) + Tied(o, s[1..], k)
  }

  lemma TiedCons(o: SortOrder, y: Process, t: seq<Process>, k: Process)
    ensures Tied(o, [y] + t, k) == (if Key(o, y) == Key(o, k) then [y] else []) + Tied(o, t, k)
  {
    assert ([y] + t)[0] == y && ([y] + t)[1..] == t;
  }

  lemma {:induction false} InsertTied(o: SortOrder, x: Process, s: seq<Process>, k: Process)
    ensures Tied(o, Insert(o, x, s), k) == (if Key(o, x) == Key(o, k) then [x] else []) + Tied(o, s, k)
  {
    if s == [] || Compare(o, x, s[0]) <= 0 {
      TiedCons(o, x, s, k);
    } else {
      InsertTied(o, x, s[1..], k);
      InsertTiedLater(o, x, s, k);
    }
  }

  /** The step of `InsertTied` where `x` goes past the head of `s`. */
  lemma InsertTiedLater(o: SortOrder, x: Process, s: seq<Process>, k: Process)
    requires s != [] && Compare(o, x, s[0]) > 0
    requires Tied(o, Insert(o, x, s[1..]), k) == (if Key(o, x) == Key(o, k) then [x] else []) + Tied(o, s[1..], k)
    ensures Tied(o, Insert(o, x, s), k) == (if Key(o, x) == Key(o, k) then [x] else []) + Tied(o, s, k)
  {
    assert s == [s[0]] + s[1..];
    TiedSkip(o, x, s[0], Insert(o, x, s[1..]), s[1..], k);
  }

  /** Consing an element whose key differs from `x`'s onto both sides keeps them related. */
  lemma TiedSkip(o: SortOrder, x: Process, y: Process, t: seq<Process>, u: seq<Process>, k: Process)
    requires Key(o, x) != Key(o, y)
    requires Tied(o, t, k) == (if Key(o, x) == Key(o, k) then [x] else []) + Tied(o, u, k)
    ensures Tied(o, [y] + t, k) == (if Key(o, x) == Key(o, k) then [x] else []) + Tied(o, [y] + u, k)
  {
    TiedCons(o, y, t, k);
    TiedCons(o, y, u, k);
    SwapFronts(if Key(o, x) == Key(o, k) then [x] else [], if Key(o, y) == Key(o, k) then [y] else [],
               Tied(o, u, k));
  }

  lemma SwapFronts<T>(a: seq<T>, b: seq<T>, rest: seq<T>)
    requires a == [] || b == []
    ensures a + (b + rest) == b + (a + rest)
  {
    if a == [] {
      assert a + (b + rest) == b + rest == b + (a + rest);
    } else {
      assert a + (b + rest) == a + rest == b + (a + rest);
    }
  }

  /** Stability: elements the comparator ranks equal keep their input order. */
  lemma {:induction false} StableSortIsStable(o: SortOrder, s: seq<Process>, k: Process)
    ensures Tied(o, StableSort(o, s), k) == Tied(o, s, k)
  {
    if s != [] {
      StableSortIsStable(o, s[1..], k);
      InsertTied(o, s[0], StableSort(o, s[1..]), k);
    }
  }

  /** Position of the first element that no other element comes before. */
  function FirstMin(o: SortOrder, s: seq<Process>): (k: nat)
    requires s != []
    ensures k < |s|
    ensures forall j :: 0 <= j < |s| ==> Compare(o, s[k], s[j]) <= 0
    ensures forall j :: 0 <= j < k ==> Compare(o, s[j], s[k]) > 0
  {
    if |s| == 1 then 0
    else
      var k := FirstMin(o, s[1..]);
      assert forall j :: 1 <= j < |s| ==> s[j] == s[1..][j - 1];
      if Compare(o, s[0], s[1..][k]) <= 0 then 0 else k + 1
  }

  /** The head of the sorted copy, which `available[0]` reads, is the first minimal element. */
  lemma {:induction false} SortHeadIsFirstMin(o: SortOrder, s: seq<Process>)
    requires s != []
    ensures StableSort(o, s)[0] == s[FirstMin(o, s)]
  {
    if |s| > 1 {
      SortHeadIsFirstMin(o, s[1..]);
    }
  }
}
