/** The group-stage resolver of backend/predictor.py (`simulate_group_stage`):
    every pair of a group meets once, one uniform draw decides each match,
    points, wins, goal difference and goals for are accumulated in a
    standings dictionary, and the table is stably sorted on
    (points, goal difference, goals for), highest first. */
module GroupStage {

  import opened Common
  import opened Sorting

  /** One team's line in the standings dictionary. Goals are the predictor's
      expected goals, hence real-valued. */
  datatype Stats = Stats(points: int, gd: real, gf: real, wins: int)

  const Blank: Stats := Stats(0, 0.0, 0.0, 0)

  /** One row of a sorted group table: `(team, stats)`. */
  datatype Standing = Standing(team: Team, stats: Stats)

  /** A group as the request gives it, and its resolved table. */
  datatype Group = Group(name: string, teams: seq<Team>)
  datatype GroupResult = GroupResult(name: string, table: seq<Standing>)

  datatype Outcome = HomeWin | Draw | AwayWin

  function Add(s: Stats, t: Stats): Stats
  {
    Stats(s.points + t.points, s.gd + t.gd, s.gf + t.gf, s.wins + t.wins)
  }

  /** The uniform draw `r` against the predicted frequencies: a home win
      below `homeWin`, a draw below `homeWin + draw`, an away win otherwise. */
  function Decide(p: Prediction, r: real): (o: Outcome)
    ensures o == HomeWin <==> r < p.homeWin
    ensures o == Draw <==> p.homeWin <= r < p.homeWin + p.draw
  {
    if r < p.homeWin then HomeWin
    else if r < p.homeWin + p.draw then Draw
    else AwayWin
  }

  /** Credits one decided match between `a` (home) and `b` (away) to the
      standings, `a`'s line first (the away team's first on an away win),
      exactly in the order the dictionary entries are updated. */
  function Record(st: map<Team, Stats>, a: Team, b: Team, p: Prediction, r: real): (st': map<Team, Stats>)
    requires a in st && b in st
    ensures st'.Keys == st.Keys
  {
    var eh, ea := p.expHome, p.expAway;
    match Decide(p, r)
    case HomeWin =>
      var s1 := st[a := Add(st[a], Stats(3, eh - ea, eh, 1))];
      s1[b := Add(s1[b], Stats(0, ea - eh, ea, 0))]
    case Draw =>
      var s1 := st[a := Add(st[a], Stats(1, 0.0, eh, 0))];
      s1[b := Add(s1[b], Stats(1, 0.0, ea, 0))]
    case AwayWin =>
      var s1 := st[b := Add(st[b], Stats(3, ea - eh, ea, 1))];
      s1[a := Add(s1[a], Stats(0, eh - ea, eh, 0))]
  }

  /** One fixture: ask the predictor; with no prediction the fixture is
      skipped and no draw is taken, otherwise one draw decides it. */
  function PlayFixture(st: map<Team, Stats>, k: nat, a: Team, b: Team, env: Env): (r: (map<Team, Stats>, nat))
    requires a in st && b in st
    ensures r.0.Keys == st.Keys
  {
    match env.predict(a, b, k)
    case None => (st, k)
    case Some(p) => (Record(st, a, b, p, env.rng(k)), k + 1)
  }

  /** The fixtures of `teams[i]` against every later team. */
  function Row(teams: seq<Team>, i: nat): (row: seq<(Team, Team)>)
    requires i < |teams|
    ensures |row| == |teams| - i - 1
    ensures forall m :: 0 <= m < |row| ==> row[m] == (teams[i], teams[i + 1 + m])
  {
    seq(|teams| - i - 1, m requires 0 <= m < |teams| - i - 1 => (teams[i], teams[i + 1 + m]))
  }

  /** The fixtures of the first `i` rows of the round robin, in the order the
      nested loops play them. */
  function RowsBefore(teams: seq<Team>, i: nat): seq<(Team, Team)>
    requires i <= |teams|
  {
    if i == 0 then [] else RowsBefore(teams, i - 1) + Row(teams, i - 1)
  }

  /** All fixtures of a group: `(teams[i], teams[j])` for `i < j`. */
  function Fixtures(teams: seq<Team>): seq<(Team, Team)>
  {
    RowsBefore(teams, |teams|)
  }

  ghost predicate Within(fixtures: seq<(Team, Team)>, st: map<Team, Stats>)
  {
    forall m :: 0 <= m < |fixtures| ==> fixtures[m].0 in st && fixtures[m].1 in st
  }

  /** Plays `fixtures` in order from standings `st` and stream position `k`. */
  function PlayAll(st: map<Team, Stats>, k: nat, fixtures: seq<(Team, Team)>, env: Env): (r: (map<Team, Stats>, nat))
    requires Within(fixtures, st)
    ensures r.0.Keys == st.Keys
    decreases |fixtures|
  {
    if fixtures == [] then (st, k)
    else
      var last := fixtures[|fixtures| - 1];
      var prev := PlayAll(st, k, fixtures[..|fixtures| - 1], env);
      PlayFixture(prev.0, prev.1, last.0, last.1, env)
  }

  /** The teams of a group once each, in first-occurrence order: the key
      order of the standings dictionary built from the group's list. */
  function Distinct(s: seq<Team>): seq<Team>
    decreases |s|
  {
    if s == [] then []
    else
      var d := Distinct(s[..|s| - 1]);
      if s[|s| - 1] in d then d else d + [s[|s| - 1]]
  }

  /** The standings dictionary before any match: every team at zero. */
  function Opening(teams: seq<Team>): map<Team, Stats>
  {
    map t | t in teams :: Blank
  }

  /** The dictionary's items in key order. */
  function Entries(order: seq<Team>, st: map<Team, Stats>): (rows: seq<Standing>)
    requires forall t :: t in order ==> t in st
    ensures |rows| == |order|
  {
    seq(|order|, m requires 0 <= m < |order| => Standing(order[m], st[order[m]]))
  }

  /** The sort key `(points, gd, gf)` of `x` is at least that of `y`
      (Python's lexicographic tuple comparison). */
  predicate Ahead(x: Standing, y: Standing)
  {
    var s, t := x.stats, y.stats;
    s.points > t.points
    || (s.points == t.points && (s.gd > t.gd || (s.gd == t.gd && s.gf >= t.gf)))
  }

  function TeamOf(row: Standing): Team
  {
    row.team
  }

  /** The standings after every fixture of the group has been played, and
      the stream position after the group's draws. */
  function Played(teams: seq<Team>, env: Env, k0: nat): (map<Team, Stats>, nat)
  {
    FixturesWithin(teams);
    PlayAll(Opening(teams), k0, Fixtures(teams), env)
  }

  /** The standings dictionary's items before sorting. */
  function Unsorted(teams: seq<Team>, env: Env, k0: nat): seq<Standing>
  {
    FixturesWithin(teams);
    DistinctMembers(teams);
    Entries(Distinct(teams), Played(teams, env, k0).0)
  }

  /** What `simulate_group_stage` computes for one group: the sorted table
      and the stream position after the group's draws. */
  function GroupTable(teams: seq<Team>, env: Env, k0: nat): (seq<Standing>, nat)
  {
    (SortBy(Unsorted(teams, env, k0), Ahead), Played(teams, env, k0).1)
  }

  /** The fixtures played once the outer loop is at `i` and the inner loop
      has played `n` matches of row `i`. */
  function Prefix(teams: seq<Team>, i: nat, n: nat): seq<(Team, Team)>
    requires i < |teams| && n <= |teams| - i - 1
  {
    RowsBefore(teams, i) + Row(teams, i)[..n]
  }

  /** One fixture of the nested loops, updating the standings in place. */
  method PlayMatch(st0: map<Team, Stats>, k0: nat, a: Team, b: Team, env: Env)
    returns (st: map<Team, Stats>, k: nat)
    requires a in st0 && b in st0
    ensures (st, k) == PlayFixture(st0, k0, a, b, env)
  {
    st, k := st0, k0;
    match env.predict(a, b, k) {
      case None =>
      case Some(p) =>
        var rand := env.rng(k);
        var eh, ea := p.expHome, p.expAway;
        if rand < p.homeWin {
          st := st[a := Add(st[a], Stats(3, eh - ea, eh, 1))];
          st := st[b := Add(st[b], Stats(0, ea - eh, ea, 0))];
        } else if rand < p.homeWin + p.draw {
          st := st[a := Add(st[a], Stats(1, 0.0, eh, 0))];
          st := st[b := Add(st[b], Stats(1, 0.0, ea, 0))];
        } else {
          st := st[b := Add(st[b], Stats(3, ea - eh, ea, 1))];
          st := st[a := Add(st[a], Stats(0, eh - ea, eh, 0))];
        }
        k := k + 1;
    }
  }

  /** `simulate_group_stage` for one group: a nested loop over the pairs
      `i < j`, then the sort. */
  method SimulateGroup(teams: seq<Team>, env: Env, k0: nat) returns (table: seq<Standing>, k: nat)
    ensures (table, k) == GroupTable(teams, env, k0)
    ensures multiset(Project(table, TeamOf)) == multiset(Distinct(teams))
    ensures Ordered(table, Ahead)
    ensures k0 <= k <= k0 + |Fixtures(teams)|
  {
    var order := Distinct(teams);
    var st := Opening(teams);
    k := k0;
    var i := 0;
    RowsBeforeWithin(teams, 0);
    ghost var done := RowsBefore(teams, 0);
    while i < |teams|
      invariant 0 <= i <= |teams|
      invariant done == RowsBefore(teams, i)
      invariant Within(done, Opening(teams))
      invariant (st, k) == PlayAll(Opening(teams), k0, done, env)
    {
      st, k := PlayRow(teams, i, env, k0, done, st, k);
      done := RowsBefore(teams, i + 1);
      i := i + 1;
    }
    assert (st, k) == Played(teams, env, k0);
    DistinctMembers(teams);
    table := SortBy(Entries(order, st), Ahead);
    assert Entries(order, st) == Unsorted(teams, env, k0);
    GroupTableFacts(teams, env, k0);
  }

  /** The inner loop of the round robin: `teams[i]` against every later
      team, continuing from the standings after the earlier rows. */
  method PlayRow(teams: seq<Team>, i: nat, env: Env, ghost k0: nat, ghost before: seq<(Team, Team)>,
                 st0: map<Team, Stats>, k1: nat)
    returns (st: map<Team, Stats>, k: nat)
    requires i < |teams| && before == RowsBefore(teams, i)
    requires Within(before, Opening(teams))
    requires (st0, k1) == PlayAll(Opening(teams), k0, before, env)
    ensures Within(RowsBefore(teams, i + 1), Opening(teams))
    ensures (st, k) == PlayAll(Opening(teams), k0, RowsBefore(teams, i + 1), env)
  {
    st, k := st0, k1;
    var j := i + 1;
    PrefixStart(teams, i);
    ghost var n := 0;
    while j < |teams|
      invariant j == i + 1 + n && j <= |teams|
      invariant Within(Prefix(teams, i, n), Opening(teams))
      invariant (st, k) == PlayAll(Opening(teams), k0, Prefix(teams, i, n), env)
    {
      PlayStep(teams, i, n, env, k0);
      st, k := PlayMatch(st, k, teams[i], teams[j], env);
      n, j := n + 1, j + 1;
    }
    PrefixEnd(teams, i);
  }

  /** Playing the next fixture of row `i` extends the fixtures played. */
  lemma PlayStep(teams: seq<Team>, i: nat, n: nat, env: Env, k0: nat)
    requires i < |teams| && n < |teams| - i - 1
    requires Within(Prefix(teams, i, n), Opening(teams))
    ensures Within(Prefix(teams, i, n + 1), Opening(teams))
    ensures var prev := PlayAll(Opening(teams), k0, Prefix(teams, i, n), env);
      && teams[i] in prev.0 && teams[i + 1 + n] in prev.0
      && PlayAll(Opening(teams), k0, Prefix(teams, i, n + 1), env)
         == PlayFixture(prev.0, prev.1, teams[i], teams[i + 1 + n], env)
  {
    PrefixStep(teams, i, n);
    PlayAllSnoc(Opening(teams), k0, Prefix(teams, i, n), (teams[i], teams[i + 1 + n]), env);
  }

  lemma PrefixStart(teams: seq<Team>, i: nat)
    requires i < |teams|
    ensures Prefix(teams, i, 0) == RowsBefore(teams, i)
  {
    assert Row(teams, i)[..0] == [];
  }

  lemma PrefixStep(teams: seq<Team>, i: nat, n: nat)
    requires i < |teams| && n < |teams| - i - 1
    requires Within(Prefix(teams, i, n), Opening(teams))
    ensures Prefix(teams, i, n + 1) == Prefix(teams, i, n) + [(teams[i], teams[i + 1 + n])]
    ensures Within(Prefix(teams, i, n + 1), Opening(teams))
  {
    assert Row(teams, i)[..n + 1] == Row(teams, i)[..n] + [Row(teams, i)[n]];
  }

  lemma PrefixEnd(teams: seq<Team>, i: nat)
    requires i < |teams|
    ensures Prefix(teams, i, |teams| - i - 1) == RowsBefore(teams, i + 1)
    ensures Within(RowsBefore(teams, i + 1), Opening(teams))
  {
    assert Row(teams, i)[..|teams| - i - 1] == Row(teams, i);
    RowsBeforeWithin(teams, i + 1);
  }

  lemma PlayAllSnoc(st: map<Team, Stats>, k: nat, fs: seq<(Team, Team)>, f: (Team, Team), env: Env)
    requires Within(fs + [f], st)
    ensures Within(fs, st)
    ensures var prev := PlayAll(st, k, fs, env);
      f.0 in prev.0 && f.1 in prev.0
      && PlayAll(st, k, fs + [f], env) == PlayFixture(prev.0, prev.1, f.0, f.1, env)
  {
    assert (fs + [f])[..|fs|] == fs;
    assert forall m :: 0 <= m < |fs| ==> fs[m] == (fs + [f])[m];
    assert (fs + [f])[|fs|] == f;
  }

  // ---------------------------------------------------------------------
  // Facts about the fixtures

  /** Row `x` holds `|teams| - x - 1` fixtures, so the first `i` rows hold
      `i (2 |teams| - i - 1) / 2`. */
  lemma {:induction false} RowsBeforeCount(teams: seq<Team>, i: nat)
    requires i <= |teams|
    ensures 2 * |RowsBefore(teams, i)| == i * (2 * |teams| - i - 1)
    decreases i
  {
    if i > 0 {
      RowsBeforeCount(teams, i - 1);
      CountStep(i, |teams|);
    }
  }

  lemma CountStep(i: int, n: int)
    ensures (i - 1) * (2 * n - i) + 2 * (n - i) == i * (2 * n - i - 1)
  {
    assert (i - 1) * (2 * n - i) == i * (2 * n - i) - (2 * n - i);
    assert i * (2 * n - i - 1) == i * (2 * n - i) - i;
  }

  lemma {:induction false} RowsBeforeShape(teams: seq<Team>, i: nat)
    requires i <= |teams|
    ensures forall f :: f in RowsBefore(teams, i) <==>
      exists x, y :: 0 <= x < i && x < y < |teams| && f == (teams[x], teams[y])
    decreases i
  {
    if i > 0 {
      RowsBeforeShape(teams, i - 1);
      var prev, row := RowsBefore(teams, i - 1), Row(teams, i - 1);
      assert RowsBefore(teams, i) == prev + row;
      forall f
        ensures f in RowsBefore(teams, i) <==>
          exists x, y :: 0 <= x < i && x < y < |teams| && f == (teams[x], teams[y])
      {
        if f in row {
          var m :| 0 <= m < |row| && row[m] == f;
          assert f == (teams[i - 1], teams[i - 1 + 1 + m]);
        }
        if exists x, y :: 0 <= x < i && x < y < |teams| && f == (teams[x], teams[y]) {
          var x, y :| 0 <= x < i && x < y < |teams| && f == (teams[x], teams[y]);
          if x == i - 1 {
            assert row[y - i] == f;
          }
        }
      }
    }
  }

  lemma FixturesWithin(teams: seq<Team>)
    ensures Within(Fixtures(teams), Opening(teams))
  {
    RowsBeforeShape(teams, |teams|);
    forall m | 0 <= m < |Fixtures(teams)|
      ensures Fixtures(teams)[m].0 in Opening(teams) && Fixtures(teams)[m].1 in Opening(teams)
    {
      assert Fixtures(teams)[m] in Fixtures(teams);
    }
  }

  lemma RowsBeforeWithin(teams: seq<Team>, i: nat)
    requires i <= |teams|
    ensures Within(RowsBefore(teams, i), Opening(teams))
  {
    RowsBeforeShape(teams, i);
    var fs := RowsBefore(teams, i);
    forall m | 0 <= m < |fs|
      ensures fs[m].0 in Opening(teams) && fs[m].1 in Opening(teams)
    {
      assert fs[m] in fs;
    }
  }

  lemma RowsPrefixWithin(teams: seq<Team>, i: nat, n: nat)
    requires i < |teams| && n <= |teams| - i - 1
    ensures Within(RowsBefore(teams, i) + Row(teams, i)[..n], Opening(teams))
  {
    RowsBeforeWithin(teams, i);
  }

  lemma {:induction false} RowsBeforeNoDup(teams: seq<Team>, i: nat)
    requires i <= |teams| && NoDup(teams)
    ensures NoDup(RowsBefore(teams, i))
    decreases i
  {
    if i > 0 {
      RowsBeforeNoDup(teams, i - 1);
      RowsBeforeShape(teams, i - 1);
      var prev, row := RowsBefore(teams, i - 1), Row(teams, i - 1);
      forall f | f in prev
        ensures f !in row
      {
        var x, y :| 0 <= x < i - 1 && x < y < |teams| && f == (teams[x], teams[y]);
        forall m | 0 <= m < |row|
          ensures row[m] != f
        {
          assert row[m].0 == teams[i - 1] && f.0 == teams[x];
        }
      }
      NoDupAppend(prev, row);
    }
  }

  lemma FixturesOneOrientation(teams: seq<Team>)
    requires NoDup(teams)
    ensures forall f :: f in Fixtures(teams) ==> (f.1, f.0) !in Fixtures(teams)
  {
    RowsBeforeShape(teams, |teams|);
    forall f | f in Fixtures(teams)
      ensures (f.1, f.0) !in Fixtures(teams)
    {
      var x, y :| 0 <= x < y < |teams| && f == (teams[x], teams[y]);
      forall x', y' | 0 <= x' < y' < |teams|
        ensures (teams[x'], teams[y']) != (f.1, f.0)
      {
        if teams[x'] == f.1 {
          assert x' == y;
        }
      }
    }
  }

  /** The round robin: `(x, y)` is a fixture exactly when `x` is listed
      before `y`; a group of `n` teams has `n (n - 1) / 2` fixtures (6 for
      4 teams); and when the group's teams are distinct no fixture occurs
      twice, in either orientation. */
  lemma FixturesExactlyOnce(teams: seq<Team>)
    ensures |Fixtures(teams)| == |teams| * (|teams| - 1) / 2
    ensures forall f :: f in Fixtures(teams) <==>
      exists x, y :: 0 <= x < y < |teams| && f == (teams[x], teams[y])
    ensures NoDup(teams) ==> NoDup(Fixtures(teams))
    ensures NoDup(teams) ==> forall f :: f in Fixtures(teams) ==> (f.1, f.0) !in Fixtures(teams)
  {
    RowsBeforeShape(teams, |teams|);
    RowsBeforeCount(teams, |teams|);
    if NoDup(teams) {
      RowsBeforeNoDup(teams, |teams|);
      FixturesOneOrientation(teams);
    }
  }

  lemma FourTeamsSixFixtures(teams: seq<Team>)
    requires |teams| == 4
    ensures |Fixtures(teams)| == 6
  {
    FixturesExactlyOnce(teams);
  }

  // ---------------------------------------------------------------------
  // Facts about Distinct

  lemma {:induction false} DistinctMembers(s: seq<Team>)
    ensures forall t :: t in Distinct(s) <==> t in s
    ensures NoDup(Distinct(s))
    ensures NoDup(s) ==> Distinct(s) == s
    decreases |s|
  {
    if s != [] {
      var init := s[..|s| - 1];
      DistinctMembers(init);
      assert s == init + [s[|s| - 1]];
      if NoDup(s) {
        assert NoDup(init);
        assert s[|s| - 1] !in init;
      }
    }
  }

  // ---------------------------------------------------------------------
  // Conservation: what every played match adds to the whole group

  /** The column sums of the standings over `order`. */
  function Sum(order: seq<Team>, st: map<Team, Stats>): Stats
    decreases |order|
  {
    if order == [] then Blank
    else Add(if order[0] in st then st[order[0]] else Blank, Sum(order[1..], st))
  }

  /** The column sums of a table's rows. */
  function TableSum(rows: seq<Standing>): Stats
    decreases |rows|
  {
    if rows == [] then Blank else Add(rows[0].stats, TableSum(rows[1..]))
  }

  /** What one match adds to the group's column sums: 3 points and one win
      when decisive, 2 points and no win when drawn, both expected goal
      tallies to goals for, and nothing to goal difference. */
  function Swing(p: Prediction, r: real): Stats
  {
    if Decide(p, r) == Draw then Stats(2, 0.0, p.expHome + p.expAway, 0)
    else Stats(3, 0.0, p.expHome + p.expAway, 1)
  }

  lemma {:induction false} SumUpdate(order: seq<Team>, st: map<Team, Stats>, a: Team, v: Stats)
    requires NoDup(order) && a in st
    ensures a in order ==> Add(Sum(order, st[a := v]), st[a]) == Add(Sum(order, st), v)
    ensures a !in order ==> Sum(order, st[a := v]) == Sum(order, st)
    decreases |order|
  {
    if order != [] {
      assert NoDup(order[1..]);
      SumUpdate(order[1..], st, a, v);
      if order[0] == a {
        assert a !in order[1..];
      }
    }
  }

  /** Scoring of one match between two different teams of the group: a win
      gives the winner 3 points and a win and the loser nothing, a draw one
      point each and no win; each side's expected goals go to its own goals
      for, whatever the outcome; goal difference moves by `+d` and `-d` in a
      decisive match and not at all in a draw; nobody else is touched. */
  lemma RecordScoring(st: map<Team, Stats>, a: Team, b: Team, p: Prediction, r: real)
    requires a in st && b in st && a != b
    ensures var st' := Record(st, a, b, p, r);
      var o := Decide(p, r);
      && (forall t :: t in st && t != a && t != b ==> st'[t] == st[t])
      && st'[a].gf == st[a].gf + p.expHome
      && st'[b].gf == st[b].gf + p.expAway
      && (o == HomeWin ==>
            st'[a].points == st[a].points + 3 && st'[a].wins == st[a].wins + 1
            && st'[b].points == st[b].points && st'[b].wins == st[b].wins)
      && (o == AwayWin ==>
            st'[b].points == st[b].points + 3 && st'[b].wins == st[b].wins + 1
            && st'[a].points == st[a].points && st'[a].wins == st[a].wins)
      && (o == Draw ==>
            st'[a].points == st[a].points + 1 && st'[b].points == st[b].points + 1
            && st'[a].wins == st[a].wins && st'[b].wins == st[b].wins
            && st'[a].gd == st[a].gd && st'[b].gd == st[b].gd)
      && (o != Draw ==>
            st'[a].gd == st[a].gd + (p.expHome - p.expAway)
            && st'[b].gd == st[b].gd - (p.expHome - p.expAway))
  {
  }

  /** Crediting `da` to `a` and then `db` to another team `b` adds both to
      the group's column sums. */
  lemma SumTwoUpdates(order: seq<Team>, st: map<Team, Stats>, a: Team, b: Team, da: Stats, db: Stats)
    requires NoDup(order) && a in st && b in st && a != b && a in order && b in order
    ensures var s1 := st[a := Add(st[a], da)];
      Sum(order, s1[b := Add(s1[b], db)]) == Add(Sum(order, st), Add(da, db))
  {
    var s1 := st[a := Add(st[a], da)];
    SumUpdate(order, st, a, Add(st[a], da));
    SumUpdate(order, s1, b, Add(s1[b], db));
  }

  /** A team listed twice in a group meets itself: its line is credited
      as home side and then as away side, which adds the whole swing of
      the match to that one line. */
  lemma RecordSelf(st: map<Team, Stats>, a: Team, p: Prediction, r: real)
    requires a in st
    ensures Record(st, a, a, p, r) == st[a := Add(st[a], Swing(p, r))]
  {
  }

  /** One match adds exactly its swing to the group's column sums, also
      when a team listed twice meets itself. */
  lemma RecordSums(order: seq<Team>, st: map<Team, Stats>, a: Team, b: Team, p: Prediction, r: real)
    requires NoDup(order) && a in st && b in st && a in order && b in order
    ensures Sum(order, Record(st, a, b, p, r)) == Add(Sum(order, st), Swing(p, r))
  {
    var eh, ea := p.expHome, p.expAway;
    if a == b {
      RecordSelf(st, a, p, r);
      SumUpdate(order, st, a, Add(st[a], Swing(p, r)));
    } else {
      match Decide(p, r)
      case HomeWin =>
        SumTwoUpdates(order, st, a, b, Stats(3, eh - ea, eh, 1), Stats(0, ea - eh, ea, 0));
      case Draw =>
        SumTwoUpdates(order, st, a, b, Stats(1, 0.0, eh, 0), Stats(1, 0.0, ea, 0));
      case AwayWin =>
        SumTwoUpdates(order, st, b, a, Stats(3, ea - eh, ea, 1), Stats(0, eh - ea, eh, 0));
    }
  }

  /** Over any run of fixtures between teams of the group:
      goal difference sums are unchanged, the points gained equal the wins
      gained plus two per played match (3 for a decisive match, 2 for a
      draw), and the number of played matches, which is the number of draws
      taken from the stream, is at most the number of fixtures. */
  lemma {:induction false} PlayAllSums(order: seq<Team>, st: map<Team, Stats>, k: nat,
                                      fixtures: seq<(Team, Team)>, env: Env)
    requires NoDup(order) && Within(fixtures, st)
    requires forall m :: 0 <= m < |fixtures| ==> fixtures[m].0 in order && fixtures[m].1 in order
    ensures var r := PlayAll(st, k, fixtures, env);
      var s0, s1 := Sum(order, st), Sum(order, r.0);
      && k <= r.1 <= k + |fixtures|
      && s1.gd == s0.gd
      && s1.points - s0.points == (s1.wins - s0.wins) + 2 * (r.1 - k)
      && 0 <= s1.wins - s0.wins <= r.1 - k
    decreases |fixtures|
  {
    if fixtures != [] {
      var init := fixtures[..|fixtures| - 1];
      var last := fixtures[|fixtures| - 1];
      PlayAllSums(order, st, k, init, env);
      var prev := PlayAll(st, k, init, env);
      match env.predict(last.0, last.1, prev.1)
      case None =>
      case Some(p) =>
        RecordSums(order, prev.0, last.0, last.1, p, env.rng(prev.1));
    }
  }

  lemma {:induction false} SumBlank(order: seq<Team>, teams: seq<Team>)
    ensures Sum(order, Opening(teams)) == Blank
    decreases |order|
  {
    if order != [] {
      SumBlank(order[1..], teams);
    }
  }

  lemma {:induction false} EntriesSum(order: seq<Team>, st: map<Team, Stats>)
    requires forall t :: t in order ==> t in st
    ensures TableSum(Entries(order, st)) == Sum(order, st)
    decreases |order|
  {
    if order != [] {
      EntriesSum(order[1..], st);
      assert Entries(order, st)[1..] == Entries(order[1..], st);
    }
  }

  lemma {:induction false} InsertSum(x: Standing, rows: seq<Standing>)
    ensures TableSum(Insert(x, rows, Ahead)) == Add(x.stats, TableSum(rows))
    decreases |rows|
  {
    if rows != [] && !Ahead(x, rows[0]) {
      InsertSum(x, rows[1..]);
    }
  }

  lemma {:induction false} SortSum(rows: seq<Standing>)
    ensures TableSum(SortBy(rows, Ahead)) == TableSum(rows)
    decreases |rows|
  {
    if rows != [] {
      SortSum(rows[1..]);
      InsertSum(rows[0], SortBy(rows[1..], Ahead));
    }
  }

  /** The returned table of a group balances: its goal differences sum to
      zero, and its points equal its wins plus two per played match; each
      played match took one draw from the stream, so the group raised its
      points by 3 or 2 per played match. This holds also for a group that
      lists a team twice, whose line then meets itself. */
  lemma GroupTableSums(teams: seq<Team>, env: Env, k0: nat)
    ensures var (table, k) := GroupTable(teams, env, k0);
      var s := TableSum(table);
      && s.gd == 0.0
      && s.points == s.wins + 2 * (k - k0)
      && 0 <= s.wins <= k - k0 <= |Fixtures(teams)|
  {
    FixturesWithin(teams);
    FixturesExactlyOnce(teams);
    DistinctMembers(teams);
    var order := Distinct(teams);
    var played := PlayAll(Opening(teams), k0, Fixtures(teams), env);
    forall m | 0 <= m < |Fixtures(teams)|
      ensures Fixtures(teams)[m].0 in order && Fixtures(teams)[m].1 in order
    {
      assert Fixtures(teams)[m] in Fixtures(teams);
    }
    PlayAllSums(order, Opening(teams), k0, Fixtures(teams), env);
    SumBlank(order, teams);
    EntriesSum(order, played.0);
    SortSum(Entries(order, played.0));
  }

  // ---------------------------------------------------------------------
  // The table is a stable, descending rearrangement of the group

  lemma AheadTotalPreorder()
    ensures TotalPreorder(Ahead)
  {
  }

  lemma EntriesTeams(order: seq<Team>, st: map<Team, Stats>)
    requires forall t :: t in order ==> t in st
    ensures Project(Entries(order, st), TeamOf) == order
  {
  }

  /** The table lists every team of the group exactly once (in the group's
      first-occurrence order before sorting), non-increasing in
      (points, gd, gf), and teams with equal keys keep that order. */
  lemma GroupTableFacts(teams: seq<Team>, env: Env, k0: nat)
    ensures var (table, k) := GroupTable(teams, env, k0);
      && multiset(Project(table, TeamOf)) == multiset(Distinct(teams))
      && Ordered(table, Ahead)
      && k0 <= k <= k0 + |Fixtures(teams)|
  {
    FixturesWithin(teams);
    DistinctMembers(teams);
    var played := PlayAll(Opening(teams), k0, Fixtures(teams), env);
    var rows := Entries(Distinct(teams), played.0);
    SortByProjectPermutes(rows, Ahead, TeamOf);
    EntriesTeams(Distinct(teams), played.0);
    AheadTotalPreorder();
    SortByOrdered(rows, Ahead);
    PlayAllCursor(Opening(teams), k0, Fixtures(teams), env);
  }

  lemma {:induction false} PlayAllCursor(st: map<Team, Stats>, k: nat, fixtures: seq<(Team, Team)>, env: Env)
    requires Within(fixtures, st)
    ensures k <= PlayAll(st, k, fixtures, env).1 <= k + |fixtures|
    decreases |fixtures|
  {
    if fixtures != [] {
      PlayAllCursor(st, k, fixtures[..|fixtures| - 1], env);
    }
  }

  /** Ties keep the group's order: the rows whose key equals that of `v`
      appear in the table in the order their teams were first listed. */
  lemma GroupTableStable(teams: seq<Team>, env: Env, k0: nat, v: Standing)
    ensures Class(GroupTable(teams, env, k0).0, Ahead, v) == Class(Unsorted(teams, env, k0), Ahead, v)
  {
    AheadTotalPreorder();
    SortByStable(Unsorted(teams, env, k0), Ahead, v);
  }

  // ---------------------------------------------------------------------
  // The whole group stage

  /** `result` is what the group stage reports for `group`: the same label,
      a table listing each of the group's teams once, best first. */
  ghost predicate Resolved(group: Group, result: GroupResult)
  {
    && result.name == group.name
    && multiset(Project(result.table, TeamOf)) == multiset(Distinct(group.teams))
    && Ordered(result.table, Ahead)
  }

  /** The group stage over all groups, in the dictionary's order, sharing
      one random stream. */
  function Stage(groups: seq<Group>, env: Env, k0: nat): (seq<GroupResult>, nat)
    decreases |groups|
  {
    if groups == [] then ([], k0)
    else
      var prev := Stage(groups[..|groups| - 1], env, k0);
      var last := groups[|groups| - 1];
      var (table, k) := GroupTable(last.teams, env, prev.1);
      (prev.0 + [GroupResult(last.name, table)], k)
  }

  /** `simulate_group_stage`. */
  method SimulateGroupStage(groups: seq<Group>, env: Env, k0: nat) returns (results: seq<GroupResult>, k: nat)
    ensures (results, k) == Stage(groups, env, k0)
  {
    results := [];
    k := k0;
    var g := 0;
    while g < |groups|
      invariant 0 <= g <= |groups|
      invariant (results, k) == Stage(groups[..g], env, k0)
    {
      assert groups[..g + 1][..g] == groups[..g];
      var table;
      table, k := SimulateGroup(groups[g].teams, env, k);
      results := results + [GroupResult(groups[g].name, table)];
      g := g + 1;
    }
    assert groups[..|groups|] == groups;
  }

  /** Every group gets its own result, in order, under its own label, with
      each of its teams listed once and best first; the stream only moves
      forward. */
  lemma {:induction false} StageResolved(groups: seq<Group>, env: Env, k0: nat)
    ensures var (results, k) := Stage(groups, env, k0);
      && |results| == |groups|
      && (forall g :: 0 <= g < |groups| ==> Resolved(groups[g], results[g]))
      && k >= k0
    decreases |groups|
  {
    if groups != [] {
      var init, last := groups[..|groups| - 1], groups[|groups| - 1];
      StageResolved(init, env, k0);
      var prev := Stage(init, env, k0);
      var gt := GroupTable(last.teams, env, prev.1);
      var results := prev.0 + [GroupResult(last.name, gt.0)];
      assert Stage(groups, env, k0) == (results, gt.1);
      GroupTableFacts(last.teams, env, prev.1);
      ResolvedSnoc(groups, prev.0, GroupResult(last.name, gt.0));
    }
  }

  lemma ResolvedSnoc(groups: seq<Group>, prev: seq<GroupResult>, r: GroupResult)
    requires groups != [] && |prev| == |groups| - 1
    requires forall g :: 0 <= g < |prev| ==> Resolved(groups[..|groups| - 1][g], prev[g])
    requires Resolved(groups[|groups| - 1], r)
    ensures forall g :: 0 <= g < |groups| ==> Resolved(groups[g], (prev + [r])[g])
  {
    forall g | 0 <= g < |groups|
      ensures Resolved(groups[g], (prev + [r])[g])
    {
      if g < |prev| {
        assert groups[..|groups| - 1][g] == groups[g] && (prev + [r])[g] == prev[g];
      }
    }
  }
}
