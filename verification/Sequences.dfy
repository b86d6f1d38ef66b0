/** Sequences, the multisets of their elements, and sorting. */
module Sequences {
  lemma RemoveAt<T>(s: seq<T>, i: nat)
    requires i < |s|
    ensures multiset(s[..i] + s[i + 1..]) == multiset(s) - multiset{s[i]}
  {
    assert s == s[..i] + [s[i]] + s[i + 1..];
  }

  lemma TailCounts<T>(s: seq<T>)
    requires s != []
    ensures multiset(s[1..]) == multiset(s) - multiset{s[0]}
  {
    assert s == [s[0]] + s[1..];
  }

  // ---------- Filtering ----------

  /** The elements that pass, in order. */
  function Filter<T>(keep: T -> bool, s: seq<T>): seq<T> {
    if s == [] then []
    else Filter(keep, s[..|s| - 1]) + (if keep(s[|s| - 1]) then [s[|s| - 1]] else [])
  }

  lemma {:induction false} FilterAppend<T>(keep: T -> bool, a: seq<T>, b: seq<T>)
    ensures Filter(keep, a + b) == Filter(keep, a) + Filter(keep, b)
    decreases |b|
  {
    if b == [] {
      assert a + b == a;
    } else {
      assert (a + b)[..|a + b| - 1] == a + b[..|b| - 1];
      FilterAppend(keep, a, b[..|b| - 1]);
    }
  }

  lemma FilterOne<T>(keep: T -> bool, x: T)
    ensures Filter(keep, [x]) == if keep(x) then [x] else []
  {
    assert [x][..0] == [];
  }

  lemma {:induction false} FilterMembers<T>(keep: T -> bool, s: seq<T>, x: T)
    ensures x in Filter(keep, s) <==> x in s && keep(x)
    decreases |s|
  {
    if s != [] { FilterMembers(keep, s[..|s| - 1], x); }
  }

  // ---------- Sorting ----------

  type Order<!T> = (T, T) -> bool

  /** Reflexive, transitive, and any two elements compare. */
  ghost predicate IsOrder<T(!new)>(le: Order<T>) {
    && (forall a, b :: le(a, b) || le(b, a))
    && (forall a, b, c :: le(a, b) && le(b, c) ==> le(a, c))
  }

  predicate SortedBy<T>(le: Order<T>, s: seq<T>) {
    forall i, j | 0 <= i < j < |s| :: le(s[i], s[j])
  }

  /** Puts an element before the first one that must come strictly after it. */
  function Inserted<T>(le: Order<T>, x: T, s: seq<T>): seq<T> {
    if s == [] || le(x, s[0]) then [x] + s else [s[0]] + Inserted(le, x, s[1..])
  }

  /** The result of a stable sort. */
  function InsertionSort<T>(le: Order<T>, s: seq<T>): seq<T> {
    if s == [] then [] else Inserted(le, s[0], InsertionSort(le, s[1..]))
  }

  lemma {:induction false} InsertedCounts<T>(le: Order<T>, x: T, s: seq<T>)
    ensures multiset(Inserted(le, x, s)) == multiset(s) + multiset{x}
    decreases |s|
  {
    if s != [] && !le(x, s[0]) {
      InsertedCounts(le, x, s[1..]);
      assert s == [s[0]] + s[1..];
    }
  }

  lemma SortedCons<T>(le: Order<T>, x: T, s: seq<T>)
    requires SortedBy(le, s) && forall i | 0 <= i < |s| :: le(x, s[i])
    ensures SortedBy(le, [x] + s)
  {
  }

  lemma {:induction false} InsertedSorted<T(!new)>(le: Order<T>, x: T, s: seq<T>)
    requires IsOrder(le) && SortedBy(le, s)
    ensures SortedBy(le, Inserted(le, x, s))
    decreases |s|
  {
    if s != [] && !le(x, s[0]) {
      var rest := Inserted(le, x, s[1..]);
      InsertedSorted(le, x, s[1..]);
      InsertedCounts(le, x, s[1..]);
      forall i | 0 <= i < |rest| ensures le(s[0], rest[i]) {
        assert rest[i] in multiset(rest);
        assert rest[i] == x || rest[i] in s[1..];
      }
      SortedCons(le, s[0], rest);
    } else {
      forall i | 0 <= i < |s| ensures le(x, s[i]) {
        assert i > 0 ==> le(s[0], s[i]);
      }
      SortedCons(le, x, s);
    }
  }

  lemma {:induction false} InsertionSortShape<T(!new)>(le: Order<T>, s: seq<T>)
    requires IsOrder(le)
    ensures SortedBy(le, InsertionSort(le, s)) && multiset(InsertionSort(le, s)) == multiset(s)
    decreases |s|
  {
    if s != [] {
      InsertionSortShape(le, s[1..]);
      InsertedSorted(le, s[0], InsertionSort(le, s[1..]));
      InsertedCounts(le, s[0], InsertionSort(le, s[1..]));
      assert s == [s[0]] + s[1..];
    }
  }
}
