/** The first knockout round of backend/predictor.py: the fixed 32-team
    pairing table (`_create_32_team_bracket`), the ranking of third-placed
    teams, and the 48-team pairing (`_create_48_team_bracket`), which is
    built step by step with a set of already drawn teams and a cursor into
    the ranked third-placed teams. A missing group label (KeyError) or a
    table too short to have a runner-up (IndexError) makes a builder fail;
    that is `None` here. */
module Brackets {

  import opened Common
  import opened Sorting
  import opened GroupStage

  // ---------------------------------------------------------------------
  // The group results as a dictionary

  function NameOf(r: GroupResult): string
  {
    r.name
  }

  /** The group labels in the order the results list them. */
  function Labels(results: seq<GroupResult>): seq<string>
  {
    Project(results, NameOf)
  }

  /** `group_results` looked up by label: every label's table; a later
      entry for a label replaces an earlier one, as dictionary assignment
      does (the labels of a dictionary are unique in the first place). */
  function Tables(results: seq<GroupResult>): map<string, seq<Standing>>
    decreases |results|
  {
    if results == [] then map[]
    else Tables(results[..|results| - 1])[results[|results| - 1].name := results[|results| - 1].table]
  }

  lemma {:induction false} TablesKeys(results: seq<GroupResult>)
    ensures forall name :: name in Tables(results) <==> name in Labels(results)
    decreases |results|
  {
    if results != [] {
      var init := results[..|results| - 1];
      TablesKeys(init);
      assert Labels(results) == Labels(init) + [results[|results| - 1].name];
    }
  }

  /** With unique labels every label maps to its own group's table. */
  lemma {:induction false} TablesUnique(results: seq<GroupResult>, g: nat)
    requires NoDup(Labels(results)) && g < |results|
    ensures results[g].name in Tables(results)
    ensures Tables(results)[results[g].name] == results[g].table
    decreases |results|
  {
    var init := results[..|results| - 1];
    TablesKeys(init);
    if g < |results| - 1 {
      assert Labels(init) == Labels(results)[..|results| - 1];
      TablesUnique(init, g);
      assert Labels(results)[g] != Labels(results)[|results| - 1];
    }
  }

  /** `group_results[name][pos][0]`: the team in position `pos` of the
      group's table, or `None` where Python raises. */
  function Seed(t: map<string, seq<Standing>>, name: string, pos: nat): Option<Team>
  {
    if name in t && pos < |t[name]| then Some(t[name][pos].team) else None
  }

  /** The group has a table with a winner and a runner-up. */
  predicate Seeded(t: map<string, seq<Standing>>, name: string)
  {
    name in t && |t[name]| >= 2
  }

  // ---------------------------------------------------------------------
  // The 32-team bracket

  const Letters32: seq<string> := ["A", "B", "C", "D", "E", "F", "G", "H"]

  /** Round-of-16 pairings as (winner's group, runner-up's group): the left
      half 1A-2B, 1C-2D, 1E-2F, 1G-2H, then the right half 1B-2A, 1D-2C,
      1F-2E, 1H-2G. */
  const Pairing32: seq<(string, string)> :=
    [("A", "B"), ("C", "D"), ("E", "F"), ("G", "H"),
     ("B", "A"), ("D", "C"), ("F", "E"), ("H", "G")]

  /** `_create_32_team_bracket`. */
  function Bracket32(results: seq<GroupResult>): (r: Option<seq<(Team, Team)>>)
    ensures r.Some? ==> |r.value| == |Pairing32|
  {
    var t := Tables(results);
    if forall m :: 0 <= m < |Pairing32| ==> Seed(t, Pairing32[m].0, 0).Some? && Seed(t, Pairing32[m].1, 1).Some?
    then Some(seq(|Pairing32|, m requires 0 <= m < |Pairing32| =>
      (Seed(t, Pairing32[m].0, 0).value, Seed(t, Pairing32[m].1, 1).value)))
    else None
  }

  /** Every group of A to H has a winner and a runner-up. */
  predicate AllSeeded32(t: map<string, seq<Standing>>)
  {
    forall i :: 0 <= i < |Letters32| ==> Seeded(t, Letters32[i])
  }

  /** The position in `Letters32` of each pairing's winner group and
      runner-up group. */
  const WinnerSlot32: seq<nat> := [0, 2, 4, 6, 1, 3, 5, 7]
  const RunnerSlot32: seq<nat> := [1, 3, 5, 7, 0, 2, 4, 6]

  /** The pairing table draws each group of A to H once as a winner and
      once as a runner-up, and never pairs a group with itself. */
  lemma Pairing32Slots()
    ensures forall m :: 0 <= m < |Pairing32| ==>
      WinnerSlot32[m] < |Letters32| && RunnerSlot32[m] < |Letters32|
      && Pairing32[m] == (Letters32[WinnerSlot32[m]], Letters32[RunnerSlot32[m]])
      && Pairing32[m].0 != Pairing32[m].1
  {
    forall m | 0 <= m < |Pairing32|
      ensures WinnerSlot32[m] < |Letters32| && RunnerSlot32[m] < |Letters32|
        && Pairing32[m] == (Letters32[WinnerSlot32[m]], Letters32[RunnerSlot32[m]])
        && Pairing32[m].0 != Pairing32[m].1
    {
      assert m == 0 || m == 1 || m == 2 || m == 3 || m == 4 || m == 5 || m == 6 || m == 7;
    }
  }

  /** The 32-team bracket fails exactly when one of the groups A to H is
      missing or has fewer than two teams. */
  lemma Bracket32Fails(results: seq<GroupResult>)
    ensures Bracket32(results).None? <==> !AllSeeded32(Tables(results))
  {
    var t := Tables(results);
    Pairing32Slots();
    if !AllSeeded32(t) {
      var i :| 0 <= i < |Letters32| && !Seeded(t, Letters32[i]);
      assert i == 0 || i == 1 || i == 2 || i == 3 || i == 4 || i == 5 || i == 6 || i == 7;
      var m := [4, 0, 5, 1, 6, 2, 7, 3][i];
      assert Pairing32[m].1 == Letters32[i];
      assert Seed(t, Pairing32[m].1, 1).None?;
    }
  }

  /** The group winners (`pos` 0) or runners-up (`pos` 1) of groups A to H. */
  function Podium32(t: map<string, seq<Standing>>, pos: nat): (r: seq<Team>)
    requires AllSeeded32(t) && pos < 2
    ensures |r| == |Letters32|
  {
    seq(|Letters32|, i requires 0 <= i < |Letters32| => t[Letters32[i]][pos].team)
  }

  function FirstOf(p: (Team, Team)): Team
  {
    p.0
  }

  function SecondOf(p: (Team, Team)): Team
  {
    p.1
  }

  /** With every group of A to H seeded, pair `m` is the winner of the
      group in slot `WinnerSlot32[m]` against the runner-up of the group in
      slot `RunnerSlot32[m]`. */
  lemma Bracket32Slots(results: seq<GroupResult>)
    requires AllSeeded32(Tables(results))
    ensures Bracket32(results).Some?
    ensures var t, pairs := Tables(results), Bracket32(results).value;
      forall m :: 0 <= m < |pairs| ==>
        pairs[m] == (Podium32(t, 0)[WinnerSlot32[m]], Podium32(t, 1)[RunnerSlot32[m]])
  {
    Bracket32Fails(results);
    Pairing32Slots();
  }

  /** The left half takes the winners of A, C, E, G and the runners-up of
      B, D, F, H; the right half the winners of B, D, F, H and the
      runners-up of A, C, E, G. So the two teams a group sends through can
      meet again only in the final. */
  lemma Bracket32Halves(results: seq<GroupResult>)
    requires AllSeeded32(Tables(results))
    ensures Bracket32(results).Some?
    ensures var t, pairs := Tables(results), Bracket32(results).value;
      && Project(pairs[..4], FirstOf) == Evens(Podium32(t, 0))
      && Project(pairs[4..], FirstOf) == Odds(Podium32(t, 0))
      && Project(pairs[..4], SecondOf) == Odds(Podium32(t, 1))
      && Project(pairs[4..], SecondOf) == Evens(Podium32(t, 1))
  {
    Bracket32Slots(results);
    var t := Tables(results);
    SlotHalves(Bracket32(results).value, Podium32(t, 0), Podium32(t, 1));
  }

  lemma SlotHalves(pairs: seq<(Team, Team)>, w: seq<Team>, ru: seq<Team>)
    requires |pairs| == 8 && |w| == 8 && |ru| == 8
    requires forall m :: 0 <= m < 8 ==> pairs[m] == (w[WinnerSlot32[m]], ru[RunnerSlot32[m]])
    ensures Project(pairs[..4], FirstOf) == Evens(w)
    ensures Project(pairs[4..], FirstOf) == Odds(w)
    ensures Project(pairs[..4], SecondOf) == Odds(ru)
    ensures Project(pairs[4..], SecondOf) == Evens(ru)
  {
    EvensOddsShape(w);
    EvensOddsShape(ru);
    assert forall k :: 0 <= k < 4 ==> WinnerSlot32[k] == 2 * k && RunnerSlot32[k] == 2 * k + 1;
    assert forall k :: 0 <= k < 4 ==> WinnerSlot32[4 + k] == 2 * k + 1 && RunnerSlot32[4 + k] == 2 * k;
  }

  /** Every group winner and every runner-up of groups A to H plays exactly
      one round-of-16 match, the winner named first and the runner-up
      second. */
  lemma Bracket32Covers(results: seq<GroupResult>)
    requires AllSeeded32(Tables(results))
    ensures Bracket32(results).Some?
    ensures var t, pairs := Tables(results), Bracket32(results).value;
      && multiset(Project(pairs, FirstOf)) == multiset(Podium32(t, 0))
      && multiset(Project(pairs, SecondOf)) == multiset(Podium32(t, 1))
  {
    Bracket32Halves(results);
    var t, pairs := Tables(results), Bracket32(results).value;
    assert pairs == pairs[..4] + pairs[4..];
    ProjectAppend(pairs[..4], pairs[4..], FirstOf);
    ProjectAppend(pairs[..4], pairs[4..], SecondOf);
    EvensOddsPermute(Podium32(t, 0));
    EvensOddsPermute(Podium32(t, 1));
  }

  // ---------------------------------------------------------------------
  // Third-placed teams

  /** `(team, points, gd, group)` of a group's third-placed team. */
  datatype ThirdPlace = ThirdPlace(team: Team, points: int, gd: real, name: string)

  /** The ranking key `(points, gd)` of `x` is at least that of `y`. */
  predicate ThirdAhead(x: ThirdPlace, y: ThirdPlace)
  {
    x.points > y.points || (x.points == y.points && x.gd >= y.gd)
  }

  lemma ThirdAheadTotalPreorder()
    ensures TotalPreorder(ThirdAhead)
  {
  }

  function ThirdTeam(x: ThirdPlace): Team
  {
    x.team
  }

  /** The third-placed teams that take part: the first eight of the
      ranking (`best_third_place[:8]`). */
  function TopThirds(ranked: seq<ThirdPlace>): (r: seq<Team>)
    ensures |r| == Min(8, |ranked|)
  {
    Project(ranked[..Min(8, |ranked|)], ThirdTeam)
  }

  /** The ranking of third-placed teams: a stable descending sort on
      `(points, gd)`. Every team taken is ranked at least as high as every
      team left out, and the ranking is a rearrangement of the candidates. */
  lemma ThirdRanking(thirds: seq<ThirdPlace>)
    ensures var ranked := SortBy(thirds, ThirdAhead);
      && multiset(ranked) == multiset(thirds)
      && Ordered(ranked, ThirdAhead)
      && (forall i, j :: 0 <= i < Min(8, |ranked|) <= j < |ranked| ==> ThirdAhead(ranked[i], ranked[j]))
      && (forall v :: Class(ranked, ThirdAhead, v) == Class(thirds, ThirdAhead, v))
  {
    ThirdAheadTotalPreorder();
    SortByPermutes(thirds, ThirdAhead);
    SortByOrdered(thirds, ThirdAhead);
    forall v
      ensures Class(SortBy(thirds, ThirdAhead), ThirdAhead, v) == Class(thirds, ThirdAhead, v)
    {
      SortByStable(thirds, ThirdAhead, v);
    }
  }

  // ---------------------------------------------------------------------
  // Sorted group labels

  /** Python's `<=` on strings: lexicographic on code points, a proper
      prefix first. */
  predicate LabelLe(a: string, b: string)
    decreases |a|
  {
    if a == [] then true
    else if b == [] then false
    else if a[0] != b[0] then a[0] < b[0]
    else LabelLe(a[1..], b[1..])
  }

  lemma {:induction false} LabelLeTotal(a: string, b: string)
    ensures LabelLe(a, b) || LabelLe(b, a)
    decreases |a|
  {
    if a != [] && b != [] && a[0] == b[0] {
      LabelLeTotal(a[1..], b[1..]);
    }
  }

  lemma {:induction false} LabelLeTransitive(a: string, b: string, c: string)
    requires LabelLe(a, b) && LabelLe(b, c)
    ensures LabelLe(a, c)
    decreases |a|
  {
    if a != [] && b != [] && c != [] && a[0] == b[0] && b[0] == c[0] {
      LabelLeTransitive(a[1..], b[1..], c[1..]);
    }
  }

  lemma {:induction false} LabelLeAntisymmetric(a: string, b: string)
    requires LabelLe(a, b) && LabelLe(b, a)
    ensures a == b
    decreases |a|
  {
    if a != [] && b != [] {
      LabelLeAntisymmetric(a[1..], b[1..]);
      assert a == [a[0]] + a[1..] && b == [b[0]] + b[1..];
    }
  }

  /** `sorted(group_results.keys())`: each label once, in ascending string
      order, every label strictly before the next. */
  lemma SortedLabels(results: seq<GroupResult>)
    ensures var keys := SortBy(Distinct(Labels(results)), LabelLe);
      && (forall l :: l in keys <==> l in Labels(results))
      && NoDup(keys)
      && Ordered(keys, LabelLe)
  {
    forall x, y
      ensures LabelLe(x, y) || LabelLe(y, x)
    {
      LabelLeTotal(x, y);
    }
    forall x, y, z | LabelLe(x, y) && LabelLe(y, z)
      ensures LabelLe(x, z)
    {
      LabelLeTransitive(x, y, z);
    }
    assert TotalPreorder(LabelLe);
    var d := Distinct(Labels(results));
    DistinctMembers(Labels(results));
    SortByPermutes(d, LabelLe);
    SortByOrdered(d, LabelLe);
    var keys := SortBy(d, LabelLe);
    NoDupPermutation(keys, d);
    forall l
      ensures l in keys <==> l in d
    {
      assert l in keys <==> l in multiset(keys);
      assert l in d <==> l in multiset(d);
    }
  }

  // ---------------------------------------------------------------------
  // The 48-team bracket

  const Letters: seq<string> := ["A", "B", "C", "D", "E", "F", "G", "H", "I", "J", "K", "L"]

  /** The runner-up each group winner is drawn against: A-B, B-A, C-D, D-C,
      and so on; the first eight of these depend on availability, the last
      four (I to L) are fixed. */
  const Partner: seq<string> := ["B", "A", "D", "C", "F", "E", "H", "G", "J", "I", "L", "K"]

  /** Building the winners and runners-up dictionaries raises IndexError
      when some group's table has fewer than two rows; looking up a group
      of A to L raises KeyError when it is missing. */
  predicate Raises48(results: seq<GroupResult>)
  {
    var t := Tables(results);
    (exists name :: name in t && |t[name]| < 2) || (exists l :: l in Letters && l !in t)
  }

  /** The pairing under construction: the pairs so far, the teams drawn so
      far, and the cursor into the third-placed teams. */
  datatype Draft = Draft(pairs: seq<(Team, Team)>, used: set<Team>, thirdIdx: nat)

  /** One winner of A to H: against the runner-up `ru` of its partner
      group unless that team is already drawn, else against the next
      third-placed team, else not at all. */
  function Place(d: Draft, w: Team, ru: Team, thirds: seq<Team>): Draft
  {
    if ru !in d.used then Draft(d.pairs + [(w, ru)], d.used + {w, ru}, d.thirdIdx)
    else if d.thirdIdx < |thirds| then
      Draft(d.pairs + [(w, thirds[d.thirdIdx])], d.used + {w, thirds[d.thirdIdx]}, d.thirdIdx + 1)
    else d
  }

  ghost predicate Covers(winners: map<string, Team>, runners: map<string, Team>)
  {
    forall l :: l in Letters ==> l in winners && l in runners
  }

  /** The draft after the winners of the first `n` groups A, B, ... */
  function Front(winners: map<string, Team>, runners: map<string, Team>, thirds: seq<Team>, n: nat): Draft
    requires Covers(winners, runners) && n <= 8
  {
    if n == 0 then Draft([], {}, 0)
    else Place(Front(winners, runners, thirds, n - 1), winners[Letters[n - 1]], runners[Partner[n - 1]], thirds)
  }

  lemma FrontNext(winners: map<string, Team>, runners: map<string, Team>, thirds: seq<Team>, i: nat)
    requires Covers(winners, runners) && i < 8
    ensures Letters[i] in winners && Partner[i] in runners
    ensures Front(winners, runners, thirds, i + 1)
         == Place(Front(winners, runners, thirds, i), winners[Letters[i]], runners[Partner[i]], thirds)
  {
  }

  /** Matches 9 to 12: 1I-2J, 1J-2I, 1K-2L, 1L-2K. */
  function FixedPairs(winners: map<string, Team>, runners: map<string, Team>): seq<(Team, Team)>
    requires Covers(winners, runners)
  {
    [(winners["I"], runners["J"]), (winners["J"], runners["I"]),
     (winners["K"], runners["L"]), (winners["L"], runners["K"])]
  }

  function FixedTeams(winners: map<string, Team>, runners: map<string, Team>): set<Team>
    requires Covers(winners, runners)
  {
    {winners["I"], winners["J"], winners["K"], winners["L"],
     runners["I"], runners["J"], runners["K"], runners["L"]}
  }

  /** The elements of `s` not in `used`, in order (a filtering list
      comprehension). */
  function Unused(s: seq<Team>, used: set<Team>): (r: seq<Team>)
    ensures forall x :: x in r <==> x in s && x !in used
    ensures |r| <= |s|
    decreases |s|
  {
    if s == [] then [] else (if s[0] in used then [] else [s[0]]) + Unused(s[1..], used)
  }

  /** The runners-up of the groups `keys`, in that order. */
  function RunnersOf(keys: seq<string>, runners: map<string, Team>): seq<Team>
    requires forall l :: l in keys ==> l in runners
  {
    seq(|keys|, i requires 0 <= i < |keys| => runners[keys[i]])
  }

  function Winners(t: map<string, seq<Standing>>): map<string, Team>
    requires forall name :: name in t ==> |t[name]| >= 2
  {
    map name | name in t :: t[name][0].team
  }

  function Runners(t: map<string, seq<Standing>>): map<string, Team>
    requires forall name :: name in t ==> |t[name]| >= 2
  {
    map name | name in t :: t[name][1].team
  }

  /** The pairs `_create_48_team_bracket` returns when it does not raise. */
  function Bracket48Pairs(results: seq<GroupResult>, ranked: seq<ThirdPlace>): (pairs: seq<(Team, Team)>)
    requires !Raises48(results)
    ensures |pairs| <= 16
  {
    var t := Tables(results);
    var winners, runners := Winners(t), Runners(t);
    var thirds := TopThirds(ranked);
    var front := Front(winners, runners, thirds, 8);
    var used := front.used + FixedTeams(winners, runners);
    TablesKeys(results);
    var keys := SortBy(Distinct(Labels(results)), LabelLe);
    SortedLabels(results);
    var remaining := Unused(RunnersOf(keys, runners), used) + Unused(thirds, used);
    var all := front.pairs + FixedPairs(winners, runners) + Adjacent(remaining);
    all[..Min(16, |all|)]
  }

  // ---------------------------------------------------------------------
  // What the 48-team bracket is made of

  /** The teams drawn into `pairs`. */
  function Drawn(pairs: seq<(Team, Team)>): set<Team>
    decreases |pairs|
  {
    if pairs == [] then {}
    else Drawn(pairs[..|pairs| - 1]) + {pairs[|pairs| - 1].0, pairs[|pairs| - 1].1}
  }

  lemma DrawnHas(pairs: seq<(Team, Team)>, m: nat)
    requires m < |pairs|
    ensures pairs[m].0 in Drawn(pairs) && pairs[m].1 in Drawn(pairs)
  {
    DrawnMembers(pairs);
  }

  lemma {:induction false} DrawnMembers(pairs: seq<(Team, Team)>)
    ensures forall x :: x in Drawn(pairs) <==>
      exists m :: 0 <= m < |pairs| && (pairs[m].0 == x || pairs[m].1 == x)
    decreases |pairs|
  {
    if pairs != [] {
      var init := pairs[..|pairs| - 1];
      DrawnMembers(init);
      forall x | x in Drawn(pairs)
        ensures exists m :: 0 <= m < |pairs| && (pairs[m].0 == x || pairs[m].1 == x)
      {
        if x in Drawn(init) {
          var m :| 0 <= m < |init| && (init[m].0 == x || init[m].1 == x);
          assert pairs[m] == init[m];
        }
      }
      forall x | exists m :: 0 <= m < |pairs| && (pairs[m].0 == x || pairs[m].1 == x)
        ensures x in Drawn(pairs)
      {
        var m :| 0 <= m < |pairs| && (pairs[m].0 == x || pairs[m].1 == x);
        if m < |init| {
          assert init[m] == pairs[m];
        }
      }
    }
  }

  /** A team the bracket may draw: a group winner, a runner-up, or one of
      the third-placed teams taken. */
  ghost predicate Entrant(x: Team, winners: map<string, Team>, runners: map<string, Team>, thirds: seq<Team>)
  {
    x in winners.Values || x in runners.Values || x in thirds
  }

  /** One step of the draft keeps the set of drawn teams equal to the
      teams in the pairs, adds at most one pair (the winner against the
      runner-up, or against the next third-placed team), and keeps the
      cursor within the third-placed teams. */
  lemma PlaceFacts(d: Draft, w: Team, ru: Team, thirds: seq<Team>)
    requires d.used == Drawn(d.pairs) && d.thirdIdx <= |thirds|
    ensures var d' := Place(d, w, ru, thirds);
      && d'.used == Drawn(d'.pairs)
      && d.thirdIdx <= d'.thirdIdx <= |thirds|
      && (d'.pairs == d.pairs
          || (d'.pairs == d.pairs + [(w, ru)] && d'.thirdIdx == d.thirdIdx)
          || (d'.thirdIdx == d.thirdIdx + 1 && d'.pairs == d.pairs + [(w, thirds[d.thirdIdx])]))
  {
    var d' := Place(d, w, ru, thirds);
    if d' != d {
      assert d'.pairs[..|d'.pairs| - 1] == d.pairs;
    }
  }

  /** Every pair is a group winner against a runner-up or against one of
      the first `idx` third-placed teams. */
  ghost predicate Sourced(pairs: seq<(Team, Team)>, winners: map<string, Team>, runners: map<string, Team>,
                          thirds: seq<Team>, idx: nat)
    requires idx <= |thirds|
  {
    forall m :: 0 <= m < |pairs| ==>
      pairs[m].0 in winners.Values && (pairs[m].1 in runners.Values || pairs[m].1 in thirds[..idx])
  }

  lemma PlaceSourced(d: Draft, w: Team, ru: Team, thirds: seq<Team>,
                     winners: map<string, Team>, runners: map<string, Team>)
    requires d.used == Drawn(d.pairs) && d.thirdIdx <= |thirds|
    requires w in winners.Values && ru in runners.Values
    requires Sourced(d.pairs, winners, runners, thirds, d.thirdIdx)
    ensures var d' := Place(d, w, ru, thirds);
      d'.thirdIdx <= |thirds| && Sourced(d'.pairs, winners, runners, thirds, d'.thirdIdx)
  {
    PlaceFacts(d, w, ru, thirds);
    var d' := Place(d, w, ru, thirds);
    assert thirds[..d.thirdIdx] <= thirds[..d'.thirdIdx];
    forall m | 0 <= m < |d'.pairs|
      ensures d'.pairs[m].0 in winners.Values
        && (d'.pairs[m].1 in runners.Values || d'.pairs[m].1 in thirds[..d'.thirdIdx])
    {
      if m < |d.pairs| {
        assert d'.pairs[m] == d.pairs[m];
      }
    }
  }

  /** While the winners of A to H are drawn, the set of drawn teams is
      exactly the teams in the pairs so far; each step adds at most one
      pair, with a group winner first; the cursor never passes the end of
      the third-placed teams, and no third-placed team beyond it is in a
      pair. */
  lemma {:induction false} FrontFacts(winners: map<string, Team>, runners: map<string, Team>, thirds: seq<Team>, n: nat)
    requires Covers(winners, runners) && n <= 8
    ensures var d := Front(winners, runners, thirds, n);
      && d.used == Drawn(d.pairs)
      && |d.pairs| <= n
      && d.thirdIdx <= |thirds|
      && Sourced(d.pairs, winners, runners, thirds, d.thirdIdx)
    decreases n
  {
    if n > 0 {
      FrontFacts(winners, runners, thirds, n - 1);
      var d := Front(winners, runners, thirds, n - 1);
      assert Letters[n - 1] in winners && Partner[n - 1] in Letters;
      var w, ru := winners[Letters[n - 1]], runners[Partner[n - 1]];
      assert w in winners.Values && ru in runners.Values;
      PlaceFacts(d, w, ru, thirds);
      PlaceSourced(d, w, ru, thirds, winners, runners);
    }
  }

  ghost predicate AllEntrants(pairs: seq<(Team, Team)>, winners: map<string, Team>, runners: map<string, Team>,
                              thirds: seq<Team>)
  {
    forall m :: 0 <= m < |pairs| ==>
      Entrant(pairs[m].0, winners, runners, thirds) && Entrant(pairs[m].1, winners, runners, thirds)
  }

  lemma AllEntrantsAppend(p: seq<(Team, Team)>, q: seq<(Team, Team)>, winners: map<string, Team>,
                          runners: map<string, Team>, thirds: seq<Team>)
    requires AllEntrants(p, winners, runners, thirds) && AllEntrants(q, winners, runners, thirds)
    ensures AllEntrants(p + q, winners, runners, thirds)
  {
    forall m | 0 <= m < |p + q|
      ensures Entrant((p + q)[m].0, winners, runners, thirds) && Entrant((p + q)[m].1, winners, runners, thirds)
    {
      if m >= |p| {
        assert (p + q)[m] == q[m - |p|];
      }
    }
  }

  lemma AdjacentEntrants(s: seq<Team>, winners: map<string, Team>, runners: map<string, Team>, thirds: seq<Team>)
    requires forall x :: x in s ==> Entrant(x, winners, runners, thirds)
    ensures AllEntrants(Adjacent(s), winners, runners, thirds)
  {
    AdjacentShape(s);
    forall m | 0 <= m < |Adjacent(s)|
      ensures Entrant(Adjacent(s)[m].0, winners, runners, thirds) && Entrant(Adjacent(s)[m].1, winners, runners, thirds)
    {
      assert s[2 * m] in s && s[2 * m + 1] in s;
    }
  }

  lemma RemainingEntrants(keys: seq<string>, winners: map<string, Team>, runners: map<string, Team>,
                          thirds: seq<Team>, used: set<Team>)
    requires forall l :: l in keys ==> l in runners
    ensures forall x :: x in Unused(RunnersOf(keys, runners), used) + Unused(thirds, used) ==>
      Entrant(x, winners, runners, thirds)
  {
    var rs := RunnersOf(keys, runners);
    forall x | x in Unused(rs, used) + Unused(thirds, used)
      ensures Entrant(x, winners, runners, thirds)
    {
      if x in rs {
        var i :| 0 <= i < |rs| && rs[i] == x;
        assert keys[i] in runners;
      }
    }
  }

  lemma FrontEntrants(winners: map<string, Team>, runners: map<string, Team>, thirds: seq<Team>)
    requires Covers(winners, runners)
    ensures AllEntrants(Front(winners, runners, thirds, 8).pairs, winners, runners, thirds)
  {
    FrontFacts(winners, runners, thirds, 8);
    var d := Front(winners, runners, thirds, 8);
    assert thirds[..d.thirdIdx] <= thirds;
  }

  lemma FixedEntrants(winners: map<string, Team>, runners: map<string, Team>, thirds: seq<Team>)
    requires Covers(winners, runners)
    ensures AllEntrants(FixedPairs(winners, runners), winners, runners, thirds)
  {
    var f := FixedPairs(winners, runners);
    assert "I" in Letters && "J" in Letters && "K" in Letters && "L" in Letters;
    forall m | 0 <= m < 4
      ensures f[m].0 in winners.Values && f[m].1 in runners.Values
    {
      var l, l' := ["I", "J", "K", "L"][m], ["J", "I", "L", "K"][m];
      assert f[m] == (winners[l], runners[l']);
    }
  }

  /** Only group winners, runners-up and the eight best third-placed teams
      are ever drawn: every pair of the 48-team bracket is made of those. */
  lemma Bracket48Entrants(results: seq<GroupResult>, ranked: seq<ThirdPlace>)
    requires !Raises48(results)
    ensures var t := Tables(results);
      AllEntrants(Bracket48Pairs(results, ranked), Winners(t), Runners(t), TopThirds(ranked))
  {
    var t := Tables(results);
    var winners, runners := Winners(t), Runners(t);
    var thirds := TopThirds(ranked);
    FrontFacts(winners, runners, thirds, 8);
    FrontEntrants(winners, runners, thirds);
    FixedEntrants(winners, runners, thirds);
    var front := Front(winners, runners, thirds, 8);
    var used := front.used + FixedTeams(winners, runners);
    TablesKeys(results);
    SortedLabels(results);
    var keys := SortBy(Distinct(Labels(results)), LabelLe);
    var remaining := Unused(RunnersOf(keys, runners), used) + Unused(thirds, used);
    RemainingEntrants(keys, winners, runners, thirds, used);
    AdjacentEntrants(remaining, winners, runners, thirds);
    var fixed := FixedPairs(winners, runners);
    AllEntrantsAppend(front.pairs, fixed, winners, runners, thirds);
    AllEntrantsAppend(front.pairs + fixed, Adjacent(remaining), winners, runners, thirds);
    var all := front.pairs + fixed + Adjacent(remaining);
    assert Bracket48Pairs(results, ranked) == all[..Min(16, |all|)];
    AllEntrantsPrefix(all, Min(16, |all|), winners, runners, thirds);
  }

  lemma AllEntrantsPrefix(p: seq<(Team, Team)>, n: nat, winners: map<string, Team>,
                          runners: map<string, Team>, thirds: seq<Team>)
    requires n <= |p| && AllEntrants(p, winners, runners, thirds)
    ensures AllEntrants(p[..n], winners, runners, thirds)
  {
    forall m | 0 <= m < n
      ensures Entrant(p[..n][m].0, winners, runners, thirds) && Entrant(p[..n][m].1, winners, runners, thirds)
    {
      assert p[..n][m] == p[m];
    }
  }

  // ---------------------------------------------------------------------
  // The 48-team bracket when all seeds are different teams

  /** The entries of `m` for the groups A to L, in that order. */
  function Column(m: map<string, Team>): (r: seq<Team>)
    requires forall l :: l in Letters ==> l in m
    ensures |r| == 12
    ensures forall i :: 0 <= i < 12 ==> r[i] == m[Letters[i]]
  {
    seq(12, i requires 0 <= i < 12 => m[Letters[i]])
  }

  /** The position in `Letters` of the partner group of the `i`-th group. */
  function PartnerOf(i: int): (j: int)
    ensures 0 <= i < 12 ==> 0 <= j < 12 && j / 2 == i / 2 && j != i
  {
    if i % 2 == 0 then i + 1 else i - 1
  }

  lemma PartnerLetters()
    ensures forall i :: 0 <= i < 12 ==> Partner[i] == Letters[PartnerOf(i)]
  {
    forall i | 0 <= i < 12
      ensures Partner[i] == Letters[PartnerOf(i)]
    {
      assert i == 0 || i == 1 || i == 2 || i == 3 || i == 4 || i == 5
          || i == 6 || i == 7 || i == 8 || i == 9 || i == 10 || i == 11;
    }
  }

  /** Each group winner against the runner-up of its partner group, for
      the winners `w` and runners-up `ru` of A to L. */
  function Cross(w: seq<Team>, ru: seq<Team>): (r: seq<(Team, Team)>)
    requires |w| == 12 && |ru| == 12
    ensures |r| == 12
    ensures forall i :: 0 <= i < 12 ==> r[i] == (w[i], ru[PartnerOf(i)])
  {
    seq(12, i requires 0 <= i < 12 => (w[i], ru[PartnerOf(i)]))
  }

  /** With all seeds different, the runner-up met by the winner of the
      `i`-th group is none of the teams drawn before it. */
  lemma PartnerRunnerFresh(w: seq<Team>, ru: seq<Team>, thirds: seq<Team>, i: nat)
    requires |w| == 12 && |ru| == 12 && NoDup(w + ru + thirds) && i < 8
    ensures ru[PartnerOf(i)] !in Drawn(Cross(w, ru)[..i])
  {
    var c := Cross(w, ru)[..i];
    var seeds := w + ru + thirds;
    var x := ru[PartnerOf(i)];
    assert x == seeds[12 + PartnerOf(i)];
    forall m | 0 <= m < i
      ensures c[m].0 != x && c[m].1 != x
    {
      assert c[m].0 == seeds[m];
      assert c[m].1 == seeds[12 + PartnerOf(m)];
    }
    DrawnMembers(c);
  }

  /** One step of the draft with all seeds different: the next
      cross-group match is appended. */
  lemma CrossStep(w: seq<Team>, ru: seq<Team>, thirds: seq<Team>, i: nat)
    requires |w| == 12 && |ru| == 12 && NoDup(w + ru + thirds) && i < 8
    ensures var cross := Cross(w, ru);
      Place(Draft(cross[..i], Drawn(cross[..i]), 0), w[i], ru[PartnerOf(i)], thirds)
        == Draft(cross[..i + 1], Drawn(cross[..i + 1]), 0)
  {
    var cross := Cross(w, ru);
    PartnerRunnerFresh(w, ru, thirds, i);
    assert cross[..i + 1][..i] == cross[..i];
    assert cross[..i + 1] == cross[..i] + [cross[i]];
  }

  /** With all seeds different, every winner of A to H meets the runner-up
      of its partner group and no third-placed team is taken. */
  lemma {:induction false} FrontExact(winners: map<string, Team>, runners: map<string, Team>, thirds: seq<Team>, n: nat)
    requires Covers(winners, runners) && n <= 8
    requires NoDup(Column(winners) + Column(runners) + thirds)
    ensures var c := Cross(Column(winners), Column(runners))[..n];
      Front(winners, runners, thirds, n) == Draft(c, Drawn(c), 0)
    decreases n
  {
    if n > 0 {
      FrontExact(winners, runners, thirds, n - 1);
      var w, ru := Column(winners), Column(runners);
      PartnerLetters();
      assert runners[Partner[n - 1]] == ru[PartnerOf(n - 1)];
      CrossStep(w, ru, thirds, n - 1);
    }
  }

  /** Matches 9 to 12 are the last four cross-group matches, and they draw
      the winners and runners-up of I to L. */
  lemma FixedIsCross(winners: map<string, Team>, runners: map<string, Team>)
    requires Covers(winners, runners)
    ensures var w, ru := Column(winners), Column(runners);
      && FixedPairs(winners, runners) == [(w[8], ru[9]), (w[9], ru[8]), (w[10], ru[11]), (w[11], ru[10])]
      && FixedTeams(winners, runners) == {w[8], w[9], w[10], w[11], ru[8], ru[9], ru[10], ru[11]}
  {
    assert Letters[8] == "I" && Letters[9] == "J" && Letters[10] == "K" && Letters[11] == "L";
  }

  lemma CrossTail(w: seq<Team>, ru: seq<Team>)
    requires |w| == 12 && |ru| == 12
    ensures Cross(w, ru)[..8] + [(w[8], ru[9]), (w[9], ru[8]), (w[10], ru[11]), (w[11], ru[10])] == Cross(w, ru)
  {
    var cross := Cross(w, ru);
    var tail := [(w[8], ru[9]), (w[9], ru[8]), (w[10], ru[11]), (w[11], ru[10])];
    forall k | 0 <= k < 12
      ensures (cross[..8] + tail)[k] == cross[k]
    {
      if k >= 8 {
        assert (cross[..8] + tail)[k] == tail[k - 8];
        assert k == 8 || k == 9 || k == 10 || k == 11;
      }
    }
  }

  /** Pairs made of members of `s` draw only members of `s`. */
  lemma {:induction false} DrawnWithin(pairs: seq<(Team, Team)>, s: seq<Team>)
    requires forall m :: 0 <= m < |pairs| ==> pairs[m].0 in s && pairs[m].1 in s
    ensures forall x :: x in Drawn(pairs) ==> x in s
    decreases |pairs|
  {
    if pairs != [] {
      DrawnWithin(pairs[..|pairs| - 1], s);
    }
  }

  /** Every seed is drawn by the first eight cross-group matches or is a
      winner or runner-up of I to L. */
  lemma SeedsDrawn(w: seq<Team>, ru: seq<Team>)
    requires |w| == 12 && |ru| == 12
    ensures forall q :: 0 <= q < 24 ==>
      (w + ru)[q] in Drawn(Cross(w, ru)[..8]) + {w[8], w[9], w[10], w[11], ru[8], ru[9], ru[10], ru[11]}
  {
    var c := Cross(w, ru)[..8];
    var fixed := {w[8], w[9], w[10], w[11], ru[8], ru[9], ru[10], ru[11]};
    var seeds := w + ru;
    forall q | 0 <= q < 24
      ensures seeds[q] in Drawn(c) + fixed
    {
      if q < 8 {
        DrawnHas(c, q);
        assert c[q].0 == seeds[q];
      } else if 12 <= q < 20 {
        var m := PartnerOf(q - 12);
        DrawnHas(c, m);
        assert c[m].1 == seeds[q];
      } else if q < 12 {
        assert q == 8 || q == 9 || q == 10 || q == 11;
      } else {
        assert q == 20 || q == 21 || q == 22 || q == 23;
      }
    }
  }

  /** The first eight cross-group matches and the winners and runners-up of
      I to L are exactly the 24 seeds. */
  lemma DrawnAreSeeds(w: seq<Team>, ru: seq<Team>)
    requires |w| == 12 && |ru| == 12
    ensures forall x ::
      (x in Drawn(Cross(w, ru)[..8]) + {w[8], w[9], w[10], w[11], ru[8], ru[9], ru[10], ru[11]}) <==> x in w + ru
  {
    var c := Cross(w, ru)[..8];
    var seeds := w + ru;
    forall m | 0 <= m < 8
      ensures c[m].0 in seeds && c[m].1 in seeds
    {
      assert c[m].0 == seeds[m];
      assert c[m].1 == seeds[12 + PartnerOf(m)];
    }
    DrawnWithin(c, seeds);
    assert seeds[8] == w[8] && seeds[9] == w[9] && seeds[10] == w[10] && seeds[11] == w[11];
    assert seeds[20] == ru[8] && seeds[21] == ru[9] && seeds[22] == ru[10] && seeds[23] == ru[11];
    SeedsDrawn(w, ru);
  }

  /** Filtering out nothing keeps the list. */
  lemma {:induction false} UnusedNone(s: seq<Team>, used: set<Team>)
    requires forall x :: x in s ==> x !in used
    ensures Unused(s, used) == s
    decreases |s|
  {
    if s != [] {
      UnusedNone(s[1..], used);
      assert s == [s[0]] + s[1..];
    }
  }

  /** Where the `q`-th team of the flattened bracket sits among the seeds
      followed by the third-placed teams. */
  function Seat(q: int): int
  {
    if q >= 24 || q < 0 then q
    else if q % 2 == 0 then q / 2
    else 12 + PartnerOf(q / 2)
  }

  lemma SeatInjective()
    ensures forall q, q' :: 0 <= q < q' ==> Seat(q) != Seat(q')
  {
    forall q, q' | 0 <= q < q'
      ensures Seat(q) != Seat(q')
    {
      if q < 24 && q' < 24 && q % 2 == 1 && q' % 2 == 1 {
        assert PartnerOf(PartnerOf(q / 2)) == q / 2;
        assert PartnerOf(PartnerOf(q' / 2)) == q' / 2;
      }
    }
  }

  /** The `q`-th team of the flattened bracket is the seed or third-placed
      team at `Seat(q)`. */
  lemma SeatFlat(w: seq<Team>, ru: seq<Team>, thirds: seq<Team>, q: nat)
    requires |w| == 12 && |ru| == 12 && |thirds| == 8 && q < 32
    ensures var flat := Flatten(Cross(w, ru) + Adjacent(thirds));
      |flat| == 32 && 0 <= Seat(q) < 32 && flat[q] == (w + ru + thirds)[Seat(q)]
  {
    var cross := Cross(w, ru);
    var pairs := cross + Adjacent(thirds);
    AdjacentShape(thirds);
    FlattenShape(pairs);
    var m := q / 2;
    assert q == 2 * m || q == 2 * m + 1;
    if m < 12 {
      assert pairs[m] == cross[m];
    } else {
      assert pairs[m] == Adjacent(thirds)[m - 12];
    }
  }

  /** The 32 teams of `Cross` followed by eight third-placed teams paired in
      order are all different. */
  lemma CrossNoDup(w: seq<Team>, ru: seq<Team>, thirds: seq<Team>)
    requires |w| == 12 && |ru| == 12 && |thirds| == 8 && NoDup(w + ru + thirds)
    ensures NoDup(Flatten(Cross(w, ru) + Adjacent(thirds)))
  {
    var seeds := w + ru + thirds;
    var flat := Flatten(Cross(w, ru) + Adjacent(thirds));
    SeatFlat(w, ru, thirds, 0);
    forall q | 0 <= q < |flat|
      ensures 0 <= Seat(q) < |seeds| && flat[q] == seeds[Seat(q)]
    {
      SeatFlat(w, ru, thirds, q);
    }
    SeatInjective();
    NoDupByIndex(flat, seeds, Seat);
  }

  /** With all seeds different, once the twelve cross-group matches are
      drawn no runner-up is left and every third-placed team is. */
  lemma RemainingIsThirds(w: seq<Team>, ru: seq<Team>, thirds: seq<Team>, rs: seq<Team>)
    requires |w| == 12 && |ru| == 12 && NoDup(w + ru + thirds)
    requires forall x :: x in rs ==> x in ru
    ensures var used := Drawn(Cross(w, ru)[..8]) + {w[8], w[9], w[10], w[11], ru[8], ru[9], ru[10], ru[11]};
      Unused(rs, used) + Unused(thirds, used) == thirds
  {
    var used := Drawn(Cross(w, ru)[..8]) + {w[8], w[9], w[10], w[11], ru[8], ru[9], ru[10], ru[11]};
    DrawnAreSeeds(w, ru);
    if Unused(rs, used) != [] {
      assert Unused(rs, used)[0] in Unused(rs, used);
    }
    NoDupSplit(w + ru, thirds);
    UnusedNone(thirds, used);
  }

  /** The pairs built from the twelve cross-group matches and the eight
      third-placed teams: sixteen, none of them cut off, each team in one. */
  lemma CrossBracket(w: seq<Team>, ru: seq<Team>, thirds: seq<Team>)
    requires |w| == 12 && |ru| == 12 && |thirds| == 8 && NoDup(w + ru + thirds)
    ensures var all := Cross(w, ru)[..8] + [(w[8], ru[9]), (w[9], ru[8]), (w[10], ru[11]), (w[11], ru[10])]
                       + Adjacent(thirds);
      && all == Cross(w, ru) + Adjacent(thirds)
      && |all| == 16
      && all[..Min(16, |all|)] == all
      && NoDup(Flatten(all))
  {
    CrossTail(w, ru);
    AdjacentShape(thirds);
    CrossNoDup(w, ru, thirds);
  }

  /** The runners-up of some of the groups A to L are among the
      runners-up of A to L. */
  lemma RunnersOfColumn(keys: seq<string>, runners: map<string, Team>)
    requires forall l :: l in Letters ==> l in runners
    requires forall l :: l in keys ==> l in Letters
    ensures forall x :: x in RunnersOf(keys, runners) ==> x in Column(runners)
  {
    var rs := RunnersOf(keys, runners);
    var col := Column(runners);
    forall i | 0 <= i < |rs|
      ensures rs[i] in col
    {
      var l := keys[i];
      assert l in Letters;
      var j :| 0 <= j < 12 && Letters[j] == l;
      assert col[j] == runners[l];
    }
  }

  /** When the tables name exactly the groups A to L, and the 24 winners
      and runners-up and the eight best third-placed teams are 32 different
      teams, no runner-up is left over and no third-placed team meets a
      group winner: the bracket is the twelve cross-group matches followed
      by the eight third-placed teams paired in ranking order, sixteen
      matches in which every one of the 32 teams plays exactly once. */
  lemma Bracket48Exact(results: seq<GroupResult>, ranked: seq<ThirdPlace>)
    requires !Raises48(results)
    requires forall name :: name in Tables(results) ==> name in Letters
    requires |ranked| >= 8
    requires var t := Tables(results);
      NoDup(Column(Winners(t)) + Column(Runners(t)) + TopThirds(ranked))
    ensures var t := Tables(results);
      Bracket48Pairs(results, ranked) == Cross(Column(Winners(t)), Column(Runners(t))) + Adjacent(TopThirds(ranked))
    ensures |Bracket48Pairs(results, ranked)| == 16
    ensures NoDup(Flatten(Bracket48Pairs(results, ranked)))
  {
    var t := Tables(results);
    var winners, runners := Winners(t), Runners(t);
    var thirds := TopThirds(ranked);
    TablesKeys(results);
    SortedLabels(results);
    var keys := SortBy(Distinct(Labels(results)), LabelLe);
    RunnersOfColumn(keys, runners);
    CrossDraw(winners, runners, thirds, RunnersOf(keys, runners));
  }

  /** The draw of `_create_48_team_bracket` from winners, runners-up and
      eight third-placed teams all different, whatever runners-up `rs` are
      offered again: every winner meets the runner-up of its partner group
      and the third-placed teams are paired in order. */
  lemma CrossDraw(winners: map<string, Team>, runners: map<string, Team>, thirds: seq<Team>, rs: seq<Team>)
    requires Covers(winners, runners) && |thirds| == 8
    requires NoDup(Column(winners) + Column(runners) + thirds)
    requires forall x :: x in rs ==> x in Column(runners)
    ensures var front := Front(winners, runners, thirds, 8);
      var used := front.used + FixedTeams(winners, runners);
      var all := front.pairs + FixedPairs(winners, runners) + Adjacent(Unused(rs, used) + Unused(thirds, used));
      && all == Cross(Column(winners), Column(runners)) + Adjacent(thirds)
      && |all| == 16
      && all[..Min(16, |all|)] == all
      && NoDup(Flatten(all))
  {
    var w, ru := Column(winners), Column(runners);
    FrontExact(winners, runners, thirds, 8);
    FixedIsCross(winners, runners);
    RemainingIsThirds(w, ru, thirds, rs);
    CrossBracket(w, ru, thirds);
  }

  /** Matches 1 to 8 of `_create_48_team_bracket`: the loops over the
      winners of A to H, growing the pairs and the set of drawn teams and
      advancing the third-place cursor. */
  method DrawFront(winners: map<string, Team>, runners: map<string, Team>, thirds: seq<Team>) returns (d: Draft)
    requires Covers(winners, runners)
    ensures d == Front(winners, runners, thirds, 8)
  {
    var used: set<Team> := {};
    var pairs: seq<(Team, Team)> := [];
    var thirdIdx := 0;
    var i := 0;
    while i < 8
      invariant 0 <= i <= 8
      invariant Draft(pairs, used, thirdIdx) == Front(winners, runners, thirds, i)
    {
      var group, opponent := Letters[i], Partner[i];
      ghost var before := Draft(pairs, used, thirdIdx);
      FrontNext(winners, runners, thirds, i);
      if runners[opponent] !in used {
        pairs := pairs + [(winners[group], runners[opponent])];
        used := used + {winners[group], runners[opponent]};
      } else if thirdIdx < |thirds| {
        pairs := pairs + [(winners[group], thirds[thirdIdx])];
        used := used + {winners[group], thirds[thirdIdx]};
        thirdIdx := thirdIdx + 1;
      }
      assert Draft(pairs, used, thirdIdx) == Place(before, winners[group], runners[opponent], thirds);
      i := i + 1;
    }
    d := Draft(pairs, used, thirdIdx);
  }

  /** The last loop of `_create_48_team_bracket`: appends `remaining[i]`
      against `remaining[i + 1]` for even `i`, dropping a trailing odd team. */
  method PairUp(pairs0: seq<(Team, Team)>, remaining: seq<Team>) returns (pairs: seq<(Team, Team)>)
    ensures pairs == pairs0 + Adjacent(remaining)
  {
    pairs := pairs0;
    var j := 0;
    ghost var steps := 0;
    while j < |remaining|
      invariant j == 2 * steps && 0 <= j <= |remaining| + 1
      invariant pairs == pairs0 + Adjacent(remaining[..Min(j, |remaining|)])
    {
      if j + 1 < |remaining| {
        AdjacentSnoc(remaining, j);
        pairs := pairs + [(remaining[j], remaining[j + 1])];
      } else {
        AdjacentDropLast(remaining);
        assert remaining[..|remaining|] == remaining;
      }
      j, steps := j + 2, steps + 1;
    }
    assert remaining[..|remaining|] == remaining;
  }

  /** `_create_48_team_bracket`. */
  method Bracket48(results: seq<GroupResult>, ranked: seq<ThirdPlace>) returns (r: Option<seq<(Team, Team)>>)
    ensures r.None? <==> Raises48(results)
    ensures r.Some? ==> r.value == Bracket48Pairs(results, ranked)
  {
    var t := Tables(results);
    if exists name :: name in t && |t[name]| < 2 {
      return None;
    }
    if exists l :: l in Letters && l !in t {
      return None;
    }
    var pairs := Draw48(results, ranked);
    r := Some(pairs);
  }

  /** The body of `_create_48_team_bracket` once the winners and
      runners-up dictionaries exist and hold every group of A to L. */
  method Draw48(results: seq<GroupResult>, ranked: seq<ThirdPlace>) returns (pairs: seq<(Team, Team)>)
    requires !Raises48(results)
    ensures pairs == Bracket48Pairs(results, ranked)
  {
    var t := Tables(results);
    var winners, runners := Winners(t), Runners(t);
    var thirds := TopThirds(ranked);
    var front := DrawFront(winners, runners, thirds);
    pairs := front.pairs + FixedPairs(winners, runners);
    var used := front.used + FixedTeams(winners, runners);
    TablesKeys(results);
    SortedLabels(results);
    var keys := SortBy(Distinct(Labels(results)), LabelLe);
    var remaining := Unused(RunnersOf(keys, runners), used) + Unused(thirds, used);
    pairs := PairUp(pairs, remaining);
    pairs := pairs[..Min(16, |pairs|)];
  }
}
