/** Python's `sorted(..., key=..., reverse=True)` and `list.sort`, as used by
    the simulator: a stable sort. `before(x, y)` says that `x` may stand
    before `y` (for a descending sort on a key: key(x) >= key(y)). Elements
    that may stand before each other are equivalent and keep their input
    order, which is what Python's stable sort guarantees, also with
    `reverse=True`. */
module Sorting {

  /** `before` is total and transitive: a total preorder. */
  ghost predicate TotalPreorder<T(!new)>(before: (T, T) -> bool)
  {
    && (forall x, y :: before(x, y) || before(y, x))
    && (forall x, y, z :: before(x, y) && before(y, z) ==> before(x, z))
  }

  /** Every element may stand before every later one. */
  ghost predicate Ordered<T>(s: seq<T>, before: (T, T) -> bool)
  {
    forall i, j :: 0 <= i < j < |s| ==> before(s[i], s[j])
  }

  predicate Equivalent<T>(x: T, y: T, before: (T, T) -> bool)
  {
    before(x, y) && before(y, x)
  }

  /** The elements of `s` equivalent to `v`, in their order in `s`. */
  function Class<T>(s: seq<T>, before: (T, T) -> bool, v: T): seq<T>
    decreases |s|
  {
    if s == [] then []
    else (if Equivalent(s[0], v, before) then [s[0]] else []) + Class(s[1..], before, v)
  }

  /** Inserts `x` in front of the first element it may stand before. */
  function Insert<T>(x: T, s: seq<T>, before: (T, T) -> bool): seq<T>
    decreases |s|
  {
    if s == [] || before(x, s[0]) then [x] + s
    else [s[0]] + Insert(x, s[1..], before)
  }

  /** Stable insertion sort. */
  function SortBy<T>(s: seq<T>, before: (T, T) -> bool): seq<T>
    decreases |s|
  {
    if s == [] then [] else Insert(s[0], SortBy(s[1..], before), before)
  }

  /** Applies `f` to every element. */
  function Project<T, U>(s: seq<T>, f: T -> U): (r: seq<U>)
    ensures |r| == |s|
    ensures forall m :: 0 <= m < |s| ==> r[m] == f(s[m])
    decreases |s|
  {
    if s == [] then [] else [f(s[0])] + Project(s[1..], f)
  }

  lemma {:induction false} ProjectAppend<T, U>(s: seq<T>, t: seq<T>, f: T -> U)
    ensures Project(s + t, f) == Project(s, f) + Project(t, f)
    decreases |s|
  {
    if s != [] {
      assert (s + t)[1..] == s[1..] + t;
      ProjectAppend(s[1..], t, f);
    } else {
      assert s + t == t;
    }
  }

  lemma {:induction false} InsertPermutes<T>(x: T, s: seq<T>, before: (T, T) -> bool)
    ensures multiset(Insert(x, s, before)) == multiset{x} + multiset(s)
    decreases |s|
  {
    if s != [] && !before(x, s[0]) {
      InsertPermutes(x, s[1..], before);
      assert s == [s[0]] + s[1..];
    }
  }

  /** The sort rearranges its input: same elements, same multiplicities. */
  lemma {:induction false} SortByPermutes<T>(s: seq<T>, before: (T, T) -> bool)
    ensures multiset(SortBy(s, before)) == multiset(s)
    ensures |SortBy(s, before)| == |s|
    decreases |s|
  {
    if s != [] {
      SortByPermutes(s[1..], before);
      InsertPermutes(s[0], SortBy(s[1..], before), before);
      assert s == [s[0]] + s[1..];
    }
  }

  lemma {:induction false} InsertOrdered<T(!new)>(x: T, s: seq<T>, before: (T, T) -> bool)
    requires TotalPreorder(before) && Ordered(s, before)
    ensures Ordered(Insert(x, s, before), before)
    decreases |s|
  {
    if s != [] && !before(x, s[0]) {
      InsertOrdered(x, s[1..], before);
      InsertPermutes(x, s[1..], before);
      var r := Insert(x, s[1..], before);
      forall j | 0 <= j < |r|
        ensures before(s[0], r[j])
      {
        assert r[j] in multiset(r);
        assert r[j] == x || r[j] in s[1..];
      }
    }
  }

  /** The sort's output is ordered: every element may stand before every
      later one. */
  lemma {:induction false} SortByOrdered<T(!new)>(s: seq<T>, before: (T, T) -> bool)
    requires TotalPreorder(before)
    ensures Ordered(SortBy(s, before), before)
    decreases |s|
  {
    if s != [] {
      SortByOrdered(s[1..], before);
      InsertOrdered(s[0], SortBy(s[1..], before), before);
    }
  }

  lemma {:induction false} InsertClass<T(!new)>(x: T, s: seq<T>, before: (T, T) -> bool, v: T)
    requires TotalPreorder(before)
    ensures Class(Insert(x, s, before), before, v)
         == (if Equivalent(x, v, before) then [x] else []) + Class(s, before, v)
    decreases |s|
  {
    if s == [] || before(x, s[0]) {
      assert ([x] + s)[1..] == s;
    } else {
      var rest := Insert(x, s[1..], before);
      InsertClass(x, s[1..], before, v);
      assert ([s[0]] + rest)[1..] == rest;
      var a := if Equivalent(s[0], v, before) then [s[0]] else [];
      var b := if Equivalent(x, v, before) then [x] else [];
      assert Class(Insert(x, s, before), before, v) == a + Class(rest, before, v);
      assert Class(s, before, v) == a + Class(s[1..], before, v);
      var y := s[0];
      assert before(x, v) && before(v, y) ==> before(x, y);
      assert a == [] || b == [];
    }
  }

  /** Stability: within every class of equivalent elements the sort keeps
      the input order. */
  lemma {:induction false} SortByStable<T(!new)>(s: seq<T>, before: (T, T) -> bool, v: T)
    requires TotalPreorder(before)
    ensures Class(SortBy(s, before), before, v) == Class(s, before, v)
    decreases |s|
  {
    if s != [] {
      SortByStable(s[1..], before, v);
      InsertClass(s[0], SortBy(s[1..], before), before, v);
    }
  }

  lemma {:induction false} ProjectInsert<T, U>(x: T, s: seq<T>, before: (T, T) -> bool, f: T -> U)
    ensures multiset(Project(Insert(x, s, before), f)) == multiset{f(x)} + multiset(Project(s, f))
    decreases |s|
  {
    if s != [] && !before(x, s[0]) {
      ProjectInsert(x, s[1..], before, f);
      assert Project(s, f) == [f(s[0])] + Project(s[1..], f);
    }
  }

  /** Sorting rearranges any projection of the elements as well (for
      instance the team names of standings rows). */
  lemma {:induction false} SortByProjectPermutes<T, U>(s: seq<T>, before: (T, T) -> bool, f: T -> U)
    ensures multiset(Project(SortBy(s, before), f)) == multiset(Project(s, f))
    decreases |s|
  {
    if s != [] {
      SortByProjectPermutes(s[1..], before, f);
      ProjectInsert(s[0], SortBy(s[1..], before), before, f);
      assert Project(s, f) == [f(s[0])] + Project(s[1..], f);
    }
  }
}
