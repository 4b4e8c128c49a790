/** Trials for a complete draw: groups carrying each label once, in any
    order, four different teams each, and (for 48 teams) no team in two
    groups. Such a draw never makes a bracket builder raise, and the
    counters grow by a fixed amount per trial. */
module Complete {

  import opened Common
  import opened Sorting
  import opened GroupStage
  import opened Knockout
  import opened Brackets
  import opened Tournament
  import opened Outcomes

  function GroupName(g: Group): string
  {
    g.name
  }

  /** The groups carry the labels `letters`, each once and in any order
      (their labels are a rearrangement of `letters`), and four different
      teams each. */
  ghost predicate Lettered(groups: seq<Group>, letters: seq<string>)
  {
    && multiset(Project(groups, GroupName)) == multiset(letters)
    && forall i :: 0 <= i < |groups| ==> |groups[i].teams| == 4 && NoDup(groups[i].teams)
  }

  /** A complete draw for the 32-team format: groups A to H, in any order. */
  ghost predicate Complete32(groups: seq<Group>)
  {
    Lettered(groups, Letters32)
  }

  /** A complete draw for the 48-team format: groups A to L, in any order,
      no team in two of them. */
  ghost predicate Complete48(groups: seq<Group>)
  {
    Lettered(groups, Letters) && Apart(groups)
  }

  /** No team is drawn into two groups. */
  ghost predicate Apart(groups: seq<Group>)
  {
    forall g, g', x :: 0 <= g < g' < |groups| && x in groups[g].teams ==> x !in groups[g'].teams
  }

  lemma LettersDistinct()
    ensures NoDup(Letters32) && NoDup(Letters)
  {
  }

  /** For a lettered draw the results dictionary has exactly the labels
      `letters`, each holding a four-row table, and every group is
      reported under its own label. */
  lemma LetteredTables(groups: seq<Group>, letters: seq<string>, env: Env, k: nat)
    requires Lettered(groups, letters) && NoDup(letters)
    ensures var results := Stage(groups, env, k).0;
      && |results| == |groups| == |letters|
      && multiset(Labels(results)) == multiset(letters)
      && (forall g :: 0 <= g < |results| ==> results[g].name == groups[g].name && |results[g].table| == 4)
      && (forall name :: name in Tables(results) <==> name in letters)
      && (forall name :: name in Tables(results) ==> |Tables(results)[name]| == 4)
  {
    var results := Stage(groups, env, k).0;
    StageShape(groups, env, k);
    forall g | 0 <= g < |groups|
      ensures |results[g].table| == 4
    {
      DistinctMembers(groups[g].teams);
    }
    var names := Project(groups, GroupName);
    assert Labels(results) == names;
    assert |names| == |multiset(names)| == |multiset(letters)| == |letters|;
    NoDupPermutation(names, letters);
    TablesKeys(results);
    forall name
      ensures name in Tables(results) <==> name in letters
    {
      assert name in names <==> name in multiset(names);
    }
    forall name | name in Tables(results)
      ensures |Tables(results)[name]| == 4
    {
      var g :| 0 <= g < |names| && names[g] == name;
      TablesUnique(results, g);
    }
  }

  /** A complete 32-team draw always gives the eight-match first round. */
  lemma Complete32Round(groups: seq<Group>)
    requires Complete32(groups)
    ensures FirstRound(groups, "32_team", 8)
  {
    forall env: Env, k: nat
      ensures var results := Stage(groups, env, k).0;
        && Bracket(results, "32_team", Ranked(results, "32_team")).Some?
        && |Bracket(results, "32_team", Ranked(results, "32_team")).value| == 8
    {
      StageSeeded32(groups, env, k);
      Bracket32Slots(Stage(groups, env, k).0);
    }
  }

  /** A complete 32-team draw seeds every group A to H. */
  lemma StageSeeded32(groups: seq<Group>, env: Env, k: nat)
    requires Complete32(groups)
    ensures AllSeeded32(Tables(Stage(groups, env, k).0))
  {
    LettersDistinct();
    LetteredTables(groups, Letters32, env, k);
    var t := Tables(Stage(groups, env, k).0);
    forall i | 0 <= i < 8
      ensures Seeded(t, Letters32[i])
    {
      assert Letters32[i] in Letters32;
    }
  }

  // ---------------------------------------------------------------------
  // The 48-team format

  /** No team stands in two places of the tables. */
  ghost predicate CellsDistinct(results: seq<GroupResult>)
  {
    forall g, j, g', j' ::
      0 <= g < |results| && 0 <= j < |results[g].table| &&
      0 <= g' < |results| && 0 <= j' < |results[g'].table| && (g != g' || j != j')
      ==> results[g].table[j].team != results[g'].table[j'].team
  }

  /** A table of a group of different teams lists each once, and only the
      group's own teams. */
  lemma TableOfGroup(group: Group, result: GroupResult)
    requires Resolved(group, result) && NoDup(group.teams)
    ensures NoDup(Project(result.table, TeamOf))
    ensures forall j :: 0 <= j < |result.table| ==> result.table[j].team in group.teams
  {
    DistinctMembers(group.teams);
    var teams := Project(result.table, TeamOf);
    NoDupPermutation(teams, group.teams);
    forall j | 0 <= j < |result.table|
      ensures result.table[j].team in group.teams
    {
      assert teams[j] in multiset(teams);
    }
  }

  /** When no team is drawn twice, no team appears twice in the tables. */
  lemma CompleteCells(groups: seq<Group>, env: Env, k: nat)
    requires Apart(groups) && forall g :: 0 <= g < |groups| ==> NoDup(groups[g].teams)
    ensures CellsDistinct(Stage(groups, env, k).0)
  {
    var results := Stage(groups, env, k).0;
    StageResolved(groups, env, k);
    forall g | 0 <= g < |groups|
      ensures NoDup(Project(results[g].table, TeamOf))
      ensures forall j :: 0 <= j < |results[g].table| ==> results[g].table[j].team in groups[g].teams
    {
      TableOfGroup(groups[g], results[g]);
    }
    forall g, j, g', j' |
      0 <= g < |results| && 0 <= j < |results[g].table| &&
      0 <= g' < |results| && 0 <= j' < |results[g'].table| && (g != g' || j != j')
      ensures results[g].table[j].team != results[g'].table[j'].team
    {
      if g == g' {
        var teams := Project(results[g].table, TeamOf);
        assert teams[j] == results[g].table[j].team && teams[j'] == results[g].table[j'].team;
      } else if g < g' {
        assert results[g].table[j].team in groups[g].teams;
      } else {
        assert results[g'].table[j'].team in groups[g'].teams;
      }
    }
  }

  /** A list whose every position shows a different place of the tables
      repeats nothing when no team stands in two places. */
  lemma CellsNoDup(results: seq<GroupResult>, s: seq<Team>, gs: seq<int>, js: seq<int>)
    requires CellsDistinct(results) && |gs| == |s| && |js| == |s|
    requires forall q :: 0 <= q < |s| ==>
      0 <= gs[q] < |results| && 0 <= js[q] < |results[gs[q]].table| && s[q] == results[gs[q]].table[js[q]].team
    requires forall q, q' :: 0 <= q < q' < |s| ==> gs[q] != gs[q'] || js[q] != js[q']
    ensures NoDup(s)
  {
  }

  /** Twelve groups A to L, in any order, with tables of four rows. */
  ghost predicate Full48(results: seq<GroupResult>)
  {
    && |results| == 12
    && multiset(Labels(results)) == multiset(Letters)
    && forall g :: 0 <= g < 12 ==> |results[g].table| == 4
  }

  /** The third-placed entries of different groups differ, since they
      name different groups. */
  lemma ThirdsDistinct(results: seq<GroupResult>)
    requires Full48(results)
    ensures NoDup(Thirds(results))
  {
    LettersDistinct();
    NoDupPermutation(Labels(results), Letters);
    ThirdsApart(results);
  }

  /** Groups under different labels, each with a third row, have different
      third-placed entries. */
  lemma ThirdsApart(results: seq<GroupResult>)
    requires NoDup(Labels(results))
    requires forall g :: 0 <= g < |results| ==> |results[g].table| > 2
    ensures NoDup(Thirds(results))
  {
    var thirds := Thirds(results);
    ThirdsFull(results);
    forall g, g' | 0 <= g < g' < |results|
      ensures thirds[g] != thirds[g']
    {
      assert thirds[g].name == Labels(results)[g] && thirds[g'].name == Labels(results)[g'];
    }
  }

  /** The eight best third-placed teams come from eight different groups:
      `gs[m]` is the group of the `m`-th. */
  lemma ThirdGroups(results: seq<GroupResult>) returns (gs: seq<int>)
    requires Full48(results)
    ensures var ranked := SortBy(Thirds(results), ThirdAhead);
      && |ranked| == 12 && |gs| == 8
      && (forall m :: 0 <= m < 8 ==> 0 <= gs[m] < 12 && ranked[m] == ThirdOf(results[gs[m]]))
      && (forall m, m' :: 0 <= m < m' < 8 ==> gs[m] != gs[m'])
  {
    var thirds := Thirds(results);
    ThirdsFull(results);
    RankedDistinct(results);
    gs := Positions(thirds, SortBy(thirds, ThirdAhead), 8);
  }

  /** Where each of the first `n` entries of a rearrangement without
      repetitions stands in the original list: `n` different positions. */
  lemma Positions<T>(thirds: seq<T>, ranked: seq<T>, n: nat) returns (gs: seq<int>)
    requires multiset(ranked) == multiset(thirds) && NoDup(ranked) && n <= |ranked|
    ensures |gs| == n
    ensures forall m :: 0 <= m < n ==> 0 <= gs[m] < |thirds| && ranked[m] == thirds[gs[m]]
    ensures forall m, m' :: 0 <= m < m' < n ==> gs[m] != gs[m']
  {
    gs := [];
    while |gs| < n
      invariant |gs| <= n
      invariant forall m :: 0 <= m < |gs| ==> 0 <= gs[m] < |thirds| && ranked[m] == thirds[gs[m]]
      invariant forall m, m' :: 0 <= m < m' < |gs| ==> gs[m] != gs[m']
    {
      var m := |gs|;
      var g := FindThird(thirds, ranked, m);
      forall m' | 0 <= m' < m
        ensures gs[m'] != g
      {
        assert ranked[m'] != ranked[m];
      }
      gs := gs + [g];
    }
  }

  /** The ranking of the twelve third-placed entries repeats none. */
  lemma RankedDistinct(results: seq<GroupResult>)
    requires Full48(results)
    ensures var ranked := SortBy(Thirds(results), ThirdAhead);
      |ranked| == 12 && NoDup(ranked) && multiset(ranked) == multiset(Thirds(results))
  {
    var thirds := Thirds(results);
    ThirdsFull(results);
    ThirdsDistinct(results);
    SortByPermutes(thirds, ThirdAhead);
    NoDupPermutation(SortBy(thirds, ThirdAhead), thirds);
  }

  /** The position in the original list of the entry standing at position
      `m` of a rearrangement. */
  lemma FindThird<T>(thirds: seq<T>, ranked: seq<T>, m: nat) returns (g: int)
    requires multiset(ranked) == multiset(thirds) && m < |ranked|
    ensures 0 <= g < |thirds| && thirds[g] == ranked[m]
  {
    assert ranked[m] in multiset(thirds);
    g :| 0 <= g < |thirds| && thirds[g] == ranked[m];
  }

  /** The dictionary of twelve groups A to L, in any order: label
      `Letters[i]` holds the table of the group at position `pos[i]`, twelve
      different positions, and no other label is present. */
  lemma LabelPositions(results: seq<GroupResult>) returns (pos: seq<int>)
    requires Full48(results)
    ensures forall name :: name in Tables(results) <==> name in Letters
    ensures |pos| == 12 && forall i, i' :: 0 <= i < i' < 12 ==> pos[i] != pos[i']
    ensures forall i :: 0 <= i < 12 ==> 0 <= pos[i] < 12 && Tables(results)[Letters[i]] == results[pos[i]].table
  {
    var t := Tables(results);
    var labels := Labels(results);
    LettersDistinct();
    NoDupPermutation(labels, Letters);
    TablesKeys(results);
    forall name
      ensures name in t <==> name in Letters
    {
      assert name in labels <==> name in multiset(labels);
    }
    pos := Positions(labels, Letters, 12);
    forall i | 0 <= i < 12
      ensures t[Letters[i]] == results[pos[i]].table
    {
      TablesUnique(results, pos[i]);
    }
  }

  /** The winners and runners-up columns are the first and second rows of
      the tables: the column entry of label `Letters[i]` comes from the
      group at position `pos[i]` of the results. */
  lemma ColumnsCells(results: seq<GroupResult>, pos: seq<int>)
    requires |results| == 12 && forall g :: 0 <= g < 12 ==> |results[g].table| == 4
    requires forall name :: name in Tables(results) <==> name in Letters
    requires |pos| == 12
    requires forall i :: 0 <= i < 12 ==> 0 <= pos[i] < 12 && Tables(results)[Letters[i]] == results[pos[i]].table
    ensures !Raises48(results)
    ensures forall name :: name in Tables(results) ==> |Tables(results)[name]| >= 2
    ensures var t := Tables(results);
      forall i :: 0 <= i < 12 ==>
        && Column(Winners(t))[i] == results[pos[i]].table[0].team
        && Column(Runners(t))[i] == results[pos[i]].table[1].team
  {
    var t := Tables(results);
    forall name | name in t
      ensures |t[name]| >= 2
    {
      var i :| 0 <= i < 12 && Letters[i] == name;
    }
    forall i | 0 <= i < 12
      ensures Column(Winners(t))[i] == results[pos[i]].table[0].team
      ensures Column(Runners(t))[i] == results[pos[i]].table[1].team
    {
      assert Winners(t)[Letters[i]] == t[Letters[i]][0].team;
      assert Runners(t)[Letters[i]] == t[Letters[i]][1].team;
    }
  }

  /** Group winners, runners-up and eight third-placed teams of eight
      different groups stand in 32 different places of the tables. */
  lemma ThreeColumns(results: seq<GroupResult>, w: seq<Team>, ru: seq<Team>, th: seq<Team>, pos: seq<int>, tg: seq<int>)
    requires CellsDistinct(results) && |results| == 12
    requires forall g :: 0 <= g < 12 ==> |results[g].table| == 4
    requires |w| == 12 && |ru| == 12 && |th| == 8 && |pos| == 12 && |tg| == 8
    requires forall i :: 0 <= i < 12 ==>
      0 <= pos[i] < 12 && w[i] == results[pos[i]].table[0].team && ru[i] == results[pos[i]].table[1].team
    requires forall i, i' :: 0 <= i < i' < 12 ==> pos[i] != pos[i']
    requires forall m :: 0 <= m < 8 ==> 0 <= tg[m] < 12 && th[m] == results[tg[m]].table[2].team
    requires forall m, m' :: 0 <= m < m' < 8 ==> tg[m] != tg[m']
    ensures NoDup(w + ru + th)
  {
    var s := w + ru + th;
    var gs := pos + pos + tg;
    var js := seq(12, _ => 0) + seq(12, _ => 1) + seq(8, _ => 2);
    forall q | 0 <= q < 32
      ensures 0 <= gs[q] < 12 && 0 <= js[q] < 4 && s[q] == results[gs[q]].table[js[q]].team
    {
      if q < 12 {
      } else if q < 24 {
        assert s[q] == ru[q - 12] && gs[q] == pos[q - 12];
      } else {
        assert s[q] == th[q - 24] && gs[q] == tg[q - 24];
      }
    }
    forall q, q' | 0 <= q < q' < 32
      ensures gs[q] != gs[q'] || js[q] != js[q']
    {
      if 12 <= q < q' < 24 {
        assert gs[q] == pos[q - 12] && gs[q'] == pos[q' - 12];
      } else if 24 <= q {
        assert gs[q] == tg[q - 24] && gs[q'] == tg[q' - 24];
      }
    }
    CellsNoDup(results, s, gs, js);
  }

  /** The `m`-th of the top eight third-placed teams is the third row of
      its group's table. */
  lemma TopThirdsCells(results: seq<GroupResult>, tg: seq<int>)
    requires |results| == 12 && forall g :: 0 <= g < 12 ==> |results[g].table| == 4
    requires |tg| == 8
    requires var ranked := SortBy(Thirds(results), ThirdAhead);
      |ranked| == 12 && forall m :: 0 <= m < 8 ==> 0 <= tg[m] < 12 && ranked[m] == ThirdOf(results[tg[m]])
    ensures var th := TopThirds(SortBy(Thirds(results), ThirdAhead));
      |th| == 8 && forall m :: 0 <= m < 8 ==> th[m] == results[tg[m]].table[2].team
  {
    var ranked := SortBy(Thirds(results), ThirdAhead);
    var th := TopThirds(ranked);
    forall m | 0 <= m < 8
      ensures th[m] == results[tg[m]].table[2].team
    {
      assert th[m] == ThirdTeam(ranked[m]);
    }
  }

  /** With no team in two places of the tables, the 32 seeds of the
      48-team bracket are 32 different teams. */
  lemma SeedsDistinct(results: seq<GroupResult>)
    requires Full48(results) && CellsDistinct(results)
    ensures !Raises48(results)
    ensures var t := Tables(results);
      NoDup(Column(Winners(t)) + Column(Runners(t)) + TopThirds(SortBy(Thirds(results), ThirdAhead)))
  {
    var pos := LabelPositions(results);
    ColumnsCells(results, pos);
    var t := Tables(results);
    var tg := ThirdGroups(results);
    TopThirdsCells(results, tg);
    ThreeColumns(results, Column(Winners(t)), Column(Runners(t)), TopThirds(SortBy(Thirds(results), ThirdAhead)), pos, tg);
  }

  /** A complete 48-team draw always gives the sixteen-match first round:
      the twelve cross-group matches and the eight best third-placed teams
      paired in ranking order, 32 different teams in all. */
  lemma Complete48Round(groups: seq<Group>)
    requires Complete48(groups)
    ensures FirstRound(groups, "48_team", 16)
  {
    forall env: Env, k: nat
      ensures var results := Stage(groups, env, k).0;
        && Bracket(results, "48_team", Ranked(results, "48_team")).Some?
        && |Bracket(results, "48_team", Ranked(results, "48_team")).value| == 16
    {
      var results := Stage(groups, env, k).0;
      LettersDistinct();
      LetteredTables(groups, Letters, env, k);
      CompleteCells(groups, env, k);
      assert Full48(results);
      Bracket48Full(results);
    }
  }

  /** Twelve tables A to L, in any order, of four rows, no team in two
      places: the 48-team bracket has sixteen matches and 32 different teams. */
  lemma Bracket48Full(results: seq<GroupResult>)
    requires Full48(results) && CellsDistinct(results)
    ensures var b := Bracket(results, "48_team", Ranked(results, "48_team"));
      b.Some? && |b.value| == 16 && NoDup(Flatten(b.value))
  {
    SeedsReady(results);
    Bracket48Seeded(results);
  }

  /** A 48-team builder that does not raise, with eight ranked third-placed
      teams and 32 different seeds, returns sixteen matches of 32 different
      teams. */
  lemma Bracket48Seeded(results: seq<GroupResult>)
    requires !Raises48(results)
    requires forall name :: name in Tables(results) ==> name in Letters
    requires |Ranked(results, "48_team")| >= 8
    requires var t := Tables(results);
      NoDup(Column(Winners(t)) + Column(Runners(t)) + TopThirds(Ranked(results, "48_team")))
    ensures var b := Bracket(results, "48_team", Ranked(results, "48_team"));
      b.Some? && |b.value| == 16 && NoDup(Flatten(b.value))
  {
    var ranked := Ranked(results, "48_team");
    Bracket48Exact(results, ranked);
    assert Bracket(results, "48_team", ranked) == Some(Bracket48Pairs(results, ranked));
  }

  /** Twelve tables A to L, in any order, of four rows, no team in two places: the 48-team
      builder does not raise, at least eight third-placed teams are ranked,
      and all 32 seeds are different teams. */
  lemma SeedsReady(results: seq<GroupResult>)
    requires Full48(results) && CellsDistinct(results)
    ensures !Raises48(results)
    ensures forall name :: name in Tables(results) ==> name in Letters
    ensures |Ranked(results, "48_team")| >= 8
    ensures var t := Tables(results);
      NoDup(Column(Winners(t)) + Column(Runners(t)) + TopThirds(Ranked(results, "48_team")))
  {
    SeedsDistinct(results);
    var pos := LabelPositions(results);
    ColumnsCells(results, pos);
    var tg := ThirdGroups(results);
  }

  // ---------------------------------------------------------------------
  // Counters of a complete draw

  /** 48 teams: every trial credits four semifinalists, two finalists and
      one champion, and no trial raises. */
  lemma Simulation48(groups: seq<Group>, n: int, env: Env, k0: nat)
    requires Complete48(groups)
    ensures var r := Simulation(groups, "48_team", n, env, k0);
      && r.Some?
      && |r.value.0.semifinalists| == 4 * Count(n)
      && |r.value.0.finalists| == 2 * Count(n)
      && |r.value.0.champions| == Count(n)
      && r.value.0.nSims == n
  {
    Complete48Round(groups);
    var c := Count(n);
    assert 16 / 4 == 4 && 16 / 8 == 2;
    SimulationCounts(groups, "48_team", 16, n, env, k0);
    assert c * 4 == 4 * c && c * 2 == 2 * c;
  }

  /** 32 teams: the bracket's eight matches already are the round of 16,
      yet the three labelled rounds still follow. So every trial credits
      the two winners of the third round as semifinalists, the single
      winner of the fourth as finalist, and no champion, since the final
      needs two teams. */
  lemma Simulation32(groups: seq<Group>, n: int, env: Env, k0: nat)
    requires Complete32(groups)
    ensures var r := Simulation(groups, "32_team", n, env, k0);
      && r.Some?
      && |r.value.0.semifinalists| == 2 * Count(n)
      && |r.value.0.finalists| == Count(n)
      && |r.value.0.champions| == 0
      && r.value.0.nSims == n
  {
    Complete32Round(groups);
    var c := Count(n);
    assert 8 / 4 == 2 && 8 / 8 == 1;
    SimulationCounts(groups, "32_team", 8, n, env, k0);
    assert c * 2 == 2 * c && c * 1 == 1 * c;
  }
}
