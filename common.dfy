/** Shared vocabulary of the tournament simulator: teams, the opaque match
    predictor, the shared random stream, and small sequence utilities. */
module Common {

  /** Teams are identified by their names. */
  type Team = string

  datatype Option<+T> = None | Some(value: T)

  /** What the match predictor reports for `home` against `away`: sampled
      outcome frequencies and the model's expected goals (all real-valued). */
  datatype Prediction = Prediction(
    homeWin: real,
    draw: real,
    awayWin: real,
    expHome: real,
    expAway: real)

  /** Everything the simulator takes from outside its own code.
      - `predict(a, b, k)`: the match predictor. It may answer "no data"
        (None). It is handed the position `k` of the shared random stream,
        since its own Poisson sampling draws from that same stream.
      - `rng(k)`: the k-th uniform draw of the shared random stream.
      - `elo`: the loaded Elo table, consulted when no prediction exists. */
  datatype Env = Env(
    predict: (Team, Team, nat) -> Option<Prediction>,
    rng: nat -> real,
    elo: map<Team, real>)

  function Min(a: int, b: int): int
  {
    if a < b then a else b
  }

  /** No element occurs twice. */
  predicate NoDup<T(==)>(s: seq<T>)
  {
    forall i, j :: 0 <= i < j < |s| ==> s[i] != s[j]
  }

  /** Pairs `s[0]` with `s[1]`, `s[2]` with `s[3]`, and so on; a trailing odd
      element is dropped. This is the pairing of every `range(0, len, 2)` loop
      guarded by `i + 1 < len` in the simulator. */
  function Adjacent<T>(s: seq<T>): seq<(T, T)>
    decreases |s|
  {
    if |s| < 2 then [] else [(s[0], s[1])] + Adjacent(s[2..])
  }

  /** The two teams of every pair, in order. */
  function Flatten<T>(pairs: seq<(T, T)>): seq<T>
    decreases |pairs|
  {
    if pairs == [] then [] else [pairs[0].0, pairs[0].1] + Flatten(pairs[1..])
  }

  lemma {:induction false} AdjacentShape<T>(s: seq<T>)
    ensures |Adjacent(s)| == |s| / 2
    ensures forall m :: 0 <= m < |s| / 2 ==> Adjacent(s)[m] == (s[2 * m], s[2 * m + 1])
    decreases |s|
  {
    if |s| >= 2 {
      AdjacentShape(s[2..]);
      forall m | 0 <= m < |s| / 2
        ensures Adjacent(s)[m] == (s[2 * m], s[2 * m + 1])
      {
        if m > 0 {
          assert Adjacent(s)[m] == Adjacent(s[2..])[m - 1];
        }
      }
    }
  }

  /** Pairing the first `i + 2` elements adds exactly the pair at `i`. */
  lemma AdjacentSnoc<T>(s: seq<T>, i: nat)
    requires i % 2 == 0 && i + 2 <= |s|
    ensures Adjacent(s[..i + 2]) == Adjacent(s[..i]) + [(s[i], s[i + 1])]
  {
    AdjacentShape(s[..i + 2]);
    AdjacentShape(s[..i]);
  }

  /** A trailing odd element contributes no pair. */
  lemma AdjacentDropLast<T>(s: seq<T>)
    requires |s| % 2 == 1
    ensures Adjacent(s[..|s| - 1]) == Adjacent(s)
  {
    AdjacentShape(s[..|s| - 1]);
    AdjacentShape(s);
  }

  lemma {:induction false} FlattenShape<T>(pairs: seq<(T, T)>)
    ensures |Flatten(pairs)| == 2 * |pairs|
    ensures forall m :: 0 <= m < |pairs| ==>
      Flatten(pairs)[2 * m] == pairs[m].0 && Flatten(pairs)[2 * m + 1] == pairs[m].1
    decreases |pairs|
  {
    if pairs != [] {
      FlattenShape(pairs[1..]);
      forall m | 0 <= m < |pairs|
        ensures Flatten(pairs)[2 * m] == pairs[m].0 && Flatten(pairs)[2 * m + 1] == pairs[m].1
      {
        if m > 0 {
          assert Flatten(pairs)[2 * m] == Flatten(pairs[1..])[2 * (m - 1)];
          assert Flatten(pairs)[2 * m + 1] == Flatten(pairs[1..])[2 * (m - 1) + 1];
        }
      }
    }
  }

  lemma {:induction false} FlattenAppend<T>(p: seq<(T, T)>, q: seq<(T, T)>)
    ensures Flatten(p + q) == Flatten(p) + Flatten(q)
    decreases |p|
  {
    if p == [] {
      assert p + q == q;
    } else {
      assert (p + q)[1..] == p[1..] + q;
      FlattenAppend(p[1..], q);
    }
  }

  lemma FlattenSnoc<T>(pairs: seq<(T, T)>)
    requires pairs != []
    ensures var last := pairs[|pairs| - 1];
      Flatten(pairs) == Flatten(pairs[..|pairs| - 1]) + [last.0, last.1]
  {
    var init, last := pairs[..|pairs| - 1], pairs[|pairs| - 1];
    assert pairs == init + [last];
    FlattenAppend(init, [last]);
    assert Flatten([last]) == [last.0, last.1];
  }

  /** Pairing and then flattening gives back the even-length prefix. */
  lemma FlattenAdjacent<T>(s: seq<T>)
    ensures Flatten(Adjacent(s)) == s[..|s| / 2 * 2]
  {
    AdjacentShape(s);
    FlattenShape(Adjacent(s));
  }

  /** The elements at even positions, `s[0], s[2], ...`. */
  function Evens<T>(s: seq<T>): seq<T>
    decreases |s|, 1
  {
    if s == [] then [] else [s[0]] + Odds(s[1..])
  }

  /** The elements at odd positions, `s[1], s[3], ...`. */
  function Odds<T>(s: seq<T>): seq<T>
    decreases |s|, 0
  {
    if s == [] then [] else Evens(s[1..])
  }

  lemma {:induction false} EvensOddsShape<T>(s: seq<T>)
    ensures |Evens(s)| == (|s| + 1) / 2 && |Odds(s)| == |s| / 2
    ensures forall k :: 0 <= k < (|s| + 1) / 2 ==> Evens(s)[k] == s[2 * k]
    ensures forall k :: 0 <= k < |s| / 2 ==> Odds(s)[k] == s[2 * k + 1]
    decreases |s|
  {
    if s != [] {
      var t := s[1..];
      EvensOddsShape(t);
      assert Evens(s) == [s[0]] + Odds(t) && Odds(s) == Evens(t);
      forall k | 0 < k < (|s| + 1) / 2
        ensures Evens(s)[k] == s[2 * k]
      {
        assert Evens(s)[k] == Odds(t)[k - 1] == t[2 * (k - 1) + 1];
      }
      forall k | 0 <= k < |s| / 2
        ensures Odds(s)[k] == s[2 * k + 1]
      {
        assert Odds(s)[k] == Evens(t)[k] == t[2 * k];
      }
    }
  }

  /** Splitting a list into its even and odd positions loses nothing. */
  lemma {:induction false} EvensOddsPermute<T>(s: seq<T>)
    ensures multiset(Evens(s)) + multiset(Odds(s)) == multiset(s)
    decreases |s|
  {
    if s != [] {
      EvensOddsPermute(s[1..]);
      assert s == [s[0]] + s[1..];
    }
  }

  /** Two lists without repetitions and without common elements make a
      list without repetitions. */
  lemma NoDupAppend<T>(a: seq<T>, b: seq<T>)
    requires NoDup(a) && NoDup(b)
    requires forall x :: x in a ==> x !in b
    ensures NoDup(a + b)
  {
    forall i, j | 0 <= i < j < |a + b|
      ensures (a + b)[i] != (a + b)[j]
    {
      if i < |a| && j >= |a| {
        assert (a + b)[i] in a && (a + b)[j] == b[j - |a|];
      }
    }
  }

  /** The parts of a list without repetitions repeat nothing and share
      nothing. */
  lemma NoDupSplit<T>(a: seq<T>, b: seq<T>)
    requires NoDup(a + b)
    ensures NoDup(a) && NoDup(b)
    ensures forall x :: x in a ==> x !in b
  {
    forall i, j | 0 <= i < j < |a|
      ensures a[i] != a[j]
    {
      assert a[i] == (a + b)[i] && a[j] == (a + b)[j];
    }
    forall i, j | 0 <= i < j < |b|
      ensures b[i] != b[j]
    {
      assert b[i] == (a + b)[|a| + i] && b[j] == (a + b)[|a| + j];
    }
    forall i, j | 0 <= i < |a| && 0 <= j < |b|
      ensures a[i] != b[j]
    {
      assert a[i] == (a + b)[i] && b[j] == (a + b)[|a| + j];
    }
  }

  /** A list whose every position shows the element of `base` at a
      position given by `f`, different positions of the list going to
      different positions of `base`, repeats nothing when `base` repeats
      nothing. */
  lemma NoDupByIndex<T>(s: seq<T>, base: seq<T>, f: int -> int)
    requires NoDup(base)
    requires forall q :: 0 <= q < |s| ==> 0 <= f(q) < |base| && s[q] == base[f(q)]
    requires forall q, q' :: 0 <= q < q' < |s| ==> f(q) != f(q')
    ensures NoDup(s)
  {
    forall q, q' | 0 <= q < q' < |s|
      ensures s[q] != s[q']
    {
      assert f(q) != f(q');
      if f(q) < f(q') {
        assert base[f(q)] != base[f(q')];
      } else {
        assert base[f(q')] != base[f(q)];
      }
    }
  }

  /** A list with the same elements, counted with multiplicity, as a list
      without repetitions has no repetitions either. */
  lemma NoDupPermutation<T>(s: seq<T>, t: seq<T>)
    requires multiset(s) == multiset(t) && NoDup(t)
    ensures NoDup(s)
  {
    forall i, j | 0 <= i < j < |s|
      ensures s[i] != s[j]
    {
      if s[i] == s[j] {
        assert s == s[..j] + s[j..];
        assert s[i] in s[..j];
        assert multiset(s)[s[i]] == multiset(s[..j])[s[i]] + multiset(s[j..])[s[i]];
        assert multiset(s[j..])[s[i]] >= 1 by { assert s[j..][0] == s[i]; }
        NoDupCountsOnce(t, s[i]);
      }
    }
  }

  lemma {:induction false} NoDupCountsOnce<T>(t: seq<T>, x: T)
    requires NoDup(t)
    ensures multiset(t)[x] <= 1
    decreases |t|
  {
    if t != [] {
      assert t == [t[0]] + t[1..];
      NoDupCountsOnce(t[1..], x);
      if t[0] == x {
        assert x !in t[1..];
      }
    }
  }
}
