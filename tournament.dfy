/** The Monte Carlo loop of backend/predictor.py (`simulate_tournament`):
    per trial a group stage, the list of third-placed teams and its ranking
    (48-team format only), the first knockout round from the bracket, the
    later rounds each pairing neighbours, and a final; three counters
    record semifinalists, finalists and champions. */
module Tournament {

  import opened Common
  import opened Sorting
  import opened GroupStage
  import opened Knockout
  import opened Brackets

  // ---------------------------------------------------------------------
  // Third-placed teams

  /** `(standings[2][0], points, gd, group)` of a group with at least three
      rows. */
  function ThirdOf(r: GroupResult): ThirdPlace
    requires |r.table| > 2
  {
    ThirdPlace(r.table[2].team, r.table[2].stats.points, r.table[2].stats.gd, r.name)
  }

  /** The third-placed team of every group with more than two rows, in the
      order of the groups. */
  function Thirds(results: seq<GroupResult>): seq<ThirdPlace>
    decreases |results|
  {
    if results == [] then []
    else
      var prev := Thirds(results[..|results| - 1]);
      var last := results[|results| - 1];
      if |last.table| > 2 then prev + [ThirdOf(last)] else prev
  }

  /** The loop collecting third-placed teams: nothing unless the format
      uses them. */
  method CollectThirds(results: seq<GroupResult>, useThirdPlace: bool) returns (thirds: seq<ThirdPlace>)
    ensures thirds == if useThirdPlace then Thirds(results) else []
  {
    thirds := [];
    var g := 0;
    while g < |results|
      invariant 0 <= g <= |results|
      invariant thirds == if useThirdPlace then Thirds(results[..g]) else []
    {
      assert results[..g + 1][..g] == results[..g];
      if useThirdPlace && |results[g].table| > 2 {
        thirds := thirds + [ThirdOf(results[g])];
      }
      g := g + 1;
    }
    assert results[..g] == results;
  }

  /** A third-placed entry is listed for exactly the groups with more than
      two rows, each being that group's third row, in group order. */
  lemma {:induction false} ThirdsMembers(results: seq<GroupResult>)
    ensures |Thirds(results)| <= |results|
    ensures forall x :: x in Thirds(results) <==>
      exists g :: 0 <= g < |results| && |results[g].table| > 2 && x == ThirdOf(results[g])
    decreases |results|
  {
    if results != [] {
      var init := results[..|results| - 1];
      ThirdsMembers(init);
      forall x | x in Thirds(results)
        ensures exists g :: 0 <= g < |results| && |results[g].table| > 2 && x == ThirdOf(results[g])
      {
        if x in Thirds(init) {
          var g :| 0 <= g < |init| && |init[g].table| > 2 && x == ThirdOf(init[g]);
          assert results[g] == init[g];
        }
      }
      forall x | exists g :: 0 <= g < |results| && |results[g].table| > 2 && x == ThirdOf(results[g])
        ensures x in Thirds(results)
      {
        var g :| 0 <= g < |results| && |results[g].table| > 2 && x == ThirdOf(results[g]);
        if g < |init| {
          assert init[g] == results[g];
        }
      }
    }
  }

  /** When every table has more than two rows, every group contributes its
      third row, at its own position. */
  lemma {:induction false} ThirdsFull(results: seq<GroupResult>)
    requires forall g :: 0 <= g < |results| ==> |results[g].table| > 2
    ensures |Thirds(results)| == |results|
    ensures forall g :: 0 <= g < |results| ==> Thirds(results)[g] == ThirdOf(results[g])
    decreases |results|
  {
    if results != [] {
      var init := results[..|results| - 1];
      ThirdsFull(init);
      forall g | 0 <= g < |results|
        ensures Thirds(results)[g] == ThirdOf(results[g])
      {
        if g < |init| {
          assert init[g] == results[g];
        }
      }
    }
  }

  /** The ranked third-placed teams of a trial: sorted on `(points, gd)`,
      highest first, for the 48-team format; an empty list otherwise. */
  function Ranked(results: seq<GroupResult>, format: string): seq<ThirdPlace>
  {
    if format == "48_team" then SortBy(Thirds(results), ThirdAhead) else []
  }

  // ---------------------------------------------------------------------
  // Brackets and rounds

  /** The first-round pairs: the 32-team table for "32_team", the 48-team
      builder for any other format; `None` where the builder raises. */
  function Bracket(results: seq<GroupResult>, format: string, ranked: seq<ThirdPlace>): Option<seq<(Team, Team)>>
  {
    if format == "32_team" then Bracket32(results)
    else if Raises48(results) then None
    else Some(Bracket48Pairs(results, ranked))
  }

  const QuarterFinals: string := "Quarter Finals"
  const SemiFinals: string := "Semi Finals"

  /** `round_names[round_start_idx:-1]`: both formats play the same three
      labelled rounds after the first one, the 48-team format skipping its
      extra "Round of 32" label. */
  function RoundNames(format: string): (names: seq<string>)
    ensures names == ["Round of 16", QuarterFinals, SemiFinals]
  {
    var all := if format == "48_team"
      then ["Round of 32", "Round of 16", QuarterFinals, SemiFinals, "Final"]
      else ["Round of 16", QuarterFinals, SemiFinals, "Final"];
    var start := if format == "48_team" then 1 else 0;
    all[start..|all| - 1]
  }

  /** The three counters. */
  datatype Tally = Tally(champions: multiset<Team>, finalists: multiset<Team>, semifinalists: multiset<Team>)

  const Empty: Tally := Tally(multiset{}, multiset{}, multiset{})

  /** The winners of a round named `name` are counted as semifinalists
      after the quarter finals and as finalists after the semi finals. */
  function Credit(t: Tally, name: string, winners: seq<Team>): Tally
  {
    Tally(t.champions,
          if name == SemiFinals then t.finalists + multiset(winners) else t.finalists,
          if name == QuarterFinals then t.semifinalists + multiset(winners) else t.semifinalists)
  }

  /** The rounds `names`, each pairing neighbours of the previous round's
      winners: the last round's winners, the stream position and the
      counters afterwards. */
  function Rounds(current: seq<Team>, names: seq<string>, env: Env, k: nat, t: Tally): (seq<Team>, nat, Tally)
    decreases |names|
  {
    if names == [] then (current, k, t)
    else
      var (next, k') := PlayPairs(Adjacent(current), env, k);
      Rounds(next, names[1..], env, k', Credit(t, names[0], next))
  }

  /** The final, played when at least two teams are left. */
  function Final(current: seq<Team>, env: Env, k: nat, t: Tally): (nat, Tally)
  {
    if |current| >= 2 then
      var (w, k') := KnockoutWinner(env, current[0], current[1], k);
      (k', Tally(t.champions + multiset{w}, t.finalists, t.semifinalists))
    else (k, t)
  }

  /** Everything after the bracket is drawn. */
  function KnockoutStage(pairs: seq<(Team, Team)>, format: string, env: Env, k: nat, t: Tally): (nat, Tally)
  {
    var (first, k1) := PlayPairs(pairs, env, k);
    var (last, k2, t2) := Rounds(first, RoundNames(format), env, k1, t);
    Final(last, env, k2, t2)
  }

  /** One trial: `None` where a bracket builder raises. */
  function Trial(groups: seq<Group>, format: string, env: Env, k: nat, t: Tally): Option<(nat, Tally)>
  {
    var (results, k1) := Stage(groups, env, k);
    match Bracket(results, format, Ranked(results, format))
    case None => None
    case Some(pairs) => Some(KnockoutStage(pairs, format, env, k1, t))
  }

  /** `count` repetitions of `step`, from the stream position `k0` and
      empty counters; `None` once a repetition has failed. */
  function Repeat(step: (nat, Tally) -> Option<(nat, Tally)>, count: nat, k0: nat): Option<(nat, Tally)>
    decreases count
  {
    if count == 0 then Some((k0, Empty))
    else match Repeat(step, count - 1, k0)
      case None => None
      case Some((k, t)) => step(k, t)
  }

  /** A trial as a step of `Repeat`. */
  function TrialStep(groups: seq<Group>, format: string, env: Env): (nat, Tally) -> Option<(nat, Tally)>
  {
    (k: nat, t: Tally) => Trial(groups, format, env, k, t)
  }

  /** The first `count` trials, one after the other. */
  function Trials(groups: seq<Group>, format: string, count: nat, env: Env, k0: nat): Option<(nat, Tally)>
  {
    Repeat(TrialStep(groups, format, env), count, k0)
  }

  /** `range(n)` runs no trial for a non-positive `n`. */
  function Count(n: int): nat
  {
    if n > 0 then n else 0
  }

  /** The dictionary `simulate_tournament` returns. */
  datatype Summary = Summary(
    champions: multiset<Team>,
    finalists: multiset<Team>,
    semifinalists: multiset<Team>,
    nSims: int)

  function Simulation(groups: seq<Group>, format: string, n: int, env: Env, k0: nat): Option<(Summary, nat)>
  {
    match Trials(groups, format, Count(n), env, k0)
    case None => None
    case Some((k, t)) => Some((Summary(t.champions, t.finalists, t.semifinalists, n), k))
  }

  /** Once a repetition has failed, repeating more fails too. */
  lemma {:induction false} RepeatStaysFailed(step: (nat, Tally) -> Option<(nat, Tally)>, count: nat, more: nat, k0: nat)
    requires count <= more && Repeat(step, count, k0).None?
    ensures Repeat(step, more, k0).None?
    decreases more
  {
    if more > count {
      RepeatStaysFailed(step, count, more - 1, k0);
    }
  }

  /** A trial of one more pair: the earlier pairs' winners and the new
      pair's winner. */
  lemma PlayPairsSnoc(pairs: seq<(Team, Team)>, p: (Team, Team), env: Env, k: nat)
    ensures var prev := PlayPairs(pairs, env, k);
      var w := KnockoutWinner(env, p.0, p.1, prev.1);
      PlayPairs(pairs + [p], env, k) == (prev.0 + [w.0], w.1)
  {
    assert (pairs + [p])[..|pairs|] == pairs;
  }

  /** Crediting one more winner adds it to the counter the round feeds. */
  lemma CreditSnoc(t0: Tally, name: string, winners: seq<Team>, w: Team)
    ensures var t := Credit(t0, name, winners);
      Credit(t0, name, winners + [w])
        == Tally(t.champions,
                 if name == SemiFinals then t.finalists + multiset{w} else t.finalists,
                 if name == QuarterFinals then t.semifinalists + multiset{w} else t.semifinalists)
  {
    assert multiset(winners + [w]) == multiset(winners) + multiset{w};
  }

  /** One more repetition continues from where the earlier ones ended. */
  lemma RepeatNext(step: (nat, Tally) -> Option<(nat, Tally)>, count: nat, k0: nat, k: nat, t: Tally)
    requires Repeat(step, count, k0) == Some((k, t))
    ensures Repeat(step, count + 1, k0) == step(k, t)
  {
  }

  // ---------------------------------------------------------------------
  // The loops

  /** One round: pairs `current[i]` with `current[i + 1]` for even `i` and
      credits the winners. The source's `range(0, len, 2)` ends with an
      iteration whose `i + 1 < len` guard fails when the round has an odd
      number of teams; that iteration does nothing, so the loop stops
      before it. */
  method PlayRound(current: seq<Team>, name: string, env: Env, k0: nat, t0: Tally)
    returns (next: seq<Team>, k: nat, t: Tally)
    ensures (next, k) == PlayPairs(Adjacent(current), env, k0)
    ensures t == Credit(t0, name, next)
  {
    next, k, t := [], k0, t0;
    var i := 0;
    ghost var done: seq<(Team, Team)> := [];
    while i + 1 < |current|
      invariant i == 2 * |done| && i <= |current|
      invariant done == Adjacent(current[..i])
      invariant (next, k) == PlayPairs(done, env, k0)
      invariant t == Credit(t0, name, next)
    {
      AdjacentSnoc(current, i);
      PlayPairsSnoc(done, (current[i], current[i + 1]), env, k0);
      var w := KnockoutWinner(env, current[i], current[i + 1], k);
      CreditSnoc(t0, name, next, w.0);
      next, k := next + [w.0], w.1;
      if name == QuarterFinals {
        t := t.(semifinalists := t.semifinalists + multiset{w.0});
      }
      if name == SemiFinals {
        t := t.(finalists := t.finalists + multiset{w.0});
      }
      done := done + [(current[i], current[i + 1])];
      i := i + 2;
    }
    if i < |current| {
      AdjacentDropLast(current);
    } else {
      assert current[..i] == current;
    }
  }

  /** The round loop of one trial. */
  method PlayRounds(first: seq<Team>, names: seq<string>, env: Env, k0: nat, t0: Tally)
    returns (current: seq<Team>, k: nat, t: Tally)
    ensures (current, k, t) == Rounds(first, names, env, k0, t0)
  {
    current, k, t := first, k0, t0;
    var r := 0;
    while r < |names|
      invariant 0 <= r <= |names|
      invariant Rounds(current, names[r..], env, k, t) == Rounds(first, names, env, k0, t0)
    {
      assert names[r..][1..] == names[r + 1..];
      current, k, t := PlayRound(current, names[r], env, k, t);
      r := r + 1;
    }
  }

  /** One pass of the trial loop's body. */
  method RunTrial(groups: seq<Group>, format: string, env: Env, k0: nat, t0: Tally)
    returns (r: Option<(nat, Tally)>)
    ensures r == Trial(groups, format, env, k0, t0)
  {
    var results, k1 := SimulateGroupStage(groups, env, k0);
    var useThirdPlace := format == "48_team";
    var thirds := CollectThirds(results, useThirdPlace);
    if useThirdPlace {
      thirds := SortBy(thirds, ThirdAhead);
    }
    var bracket: Option<seq<(Team, Team)>>;
    if format == "32_team" {
      bracket := Bracket32(results);
    } else {
      bracket := Bracket48(results, thirds);
    }
    if bracket.None? {
      return None;
    }
    var first, k2 := PlayPairs(bracket.value, env, k1).0, PlayPairs(bracket.value, env, k1).1;
    var current, k3, t3 := PlayRounds(first, RoundNames(format), env, k2, t0);
    var k, t := k3, t3;
    if |current| >= 2 {
      var w := KnockoutWinner(env, current[0], current[1], k);
      t := t.(champions := t.champions + multiset{w.0});
      k := w.1;
    }
    r := Some((k, t));
  }

  /** The trial after `count` successful ones. */
  method NextTrial(groups: seq<Group>, format: string, env: Env, ghost step: (nat, Tally) -> Option<(nat, Tally)>,
                   ghost count: nat, ghost k0: nat, k: nat, t: Tally)
    returns (r: Option<(nat, Tally)>)
    requires step == TrialStep(groups, format, env)
    requires Repeat(step, count, k0) == Some((k, t))
    ensures r == Repeat(step, count + 1, k0)
  {
    r := RunTrial(groups, format, env, k, t);
    RepeatNext(step, count, k0, k, t);
  }

  /** The trial loop: `count` trials, stopping at the first that raises. */
  method RunTrials(groups: seq<Group>, format: string, count: nat, env: Env, k0: nat)
    returns (r: Option<(nat, Tally)>)
    ensures r == Trials(groups, format, count, env, k0)
  {
    var champions, finalists, semifinalists := multiset{}, multiset{}, multiset{};
    var k := k0;
    var trial := 0;
    ghost var step := TrialStep(groups, format, env);
    while trial < count
      invariant 0 <= trial <= count
      invariant Repeat(step, trial, k0) == Some((k, Tally(champions, finalists, semifinalists)))
    {
      var outcome := NextTrial(groups, format, env, step, trial, k0, k, Tally(champions, finalists, semifinalists));
      if outcome.None? {
        RepeatStaysFailed(step, trial + 1, count, k0);
        return None;
      }
      var t;
      k, t := outcome.value.0, outcome.value.1;
      champions, finalists, semifinalists := t.champions, t.finalists, t.semifinalists;
      trial := trial + 1;
    }
    r := Some((k, Tally(champions, finalists, semifinalists)));
  }

  /** `simulate_tournament`: `None` where a trial raises. */
  method SimulateTournament(groups: seq<Group>, format: string, nSims: int, env: Env, k0: nat)
    returns (r: Option<(Summary, nat)>)
    ensures r == Simulation(groups, format, nSims, env, k0)
  {
    var outcome := RunTrials(groups, format, if nSims > 0 then nSims else 0, env, k0);
    if outcome.None? {
      return None;
    }
    var k, t := outcome.value.0, outcome.value.1;
    r := Some((Summary(t.champions, t.finalists, t.semifinalists, nSims), k));
  }
}
