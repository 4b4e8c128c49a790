/** What one trial and the whole Monte Carlo loop of `simulate_tournament`
    add to the three counters. */
module Outcomes {

  import opened Common
  import opened Sorting
  import opened GroupStage
  import opened Knockout
  import opened Brackets
  import opened Tournament

  // ---------------------------------------------------------------------
  // Rounds

  /** One more match: its winner is one of its two teams. */
  lemma WithinSnoc(winners: seq<Team>, w: Team, teams: seq<Team>, x: Team, y: Team)
    requires multiset(winners) <= multiset(teams) && (w == x || w == y)
    ensures multiset(winners + [w]) <= multiset(teams + [x, y])
  {
    assert multiset(winners + [w]) == multiset(winners) + multiset{w};
    assert multiset(teams + [x, y]) == multiset(teams) + multiset{x, y};
  }

  /** The winners of a run of matches are drawn from the teams playing
      them, each team at most as often as it plays. */
  lemma {:induction false} WinnersWithin(pairs: seq<(Team, Team)>, env: Env, k: nat)
    ensures multiset(PlayPairs(pairs, env, k).0) <= multiset(Flatten(pairs))
    decreases |pairs|
  {
    if pairs != [] {
      var init, last := pairs[..|pairs| - 1], pairs[|pairs| - 1];
      WinnersWithin(init, env, k);
      var prev := PlayPairs(init, env, k);
      var w := KnockoutWinner(env, last.0, last.1, prev.1).0;
      FlattenSnoc(pairs);
      WithinSnoc(prev.0, w, Flatten(init), last.0, last.1);
    }
  }

  /** A round pairing neighbours halves the field, rounding down, and its
      winners come from the field. */
  lemma RoundHalves(current: seq<Team>, env: Env, k: nat)
    ensures var next := PlayPairs(Adjacent(current), env, k).0;
      |next| == |current| / 2 && multiset(next) <= multiset(current)
  {
    AdjacentShape(current);
    WinnersWithin(Adjacent(current), env, k);
    FlattenAdjacent(current);
    PrefixWithin(current, |current| / 2 * 2);
  }

  lemma PrefixWithin(s: seq<Team>, n: nat)
    requires n <= |s|
    ensures multiset(s[..n]) <= multiset(s)
  {
    assert s == s[..n] + s[n..];
  }

  /** Counters `t` with the gains `g` added. */
  function Plus(t: Tally, g: Tally): Tally
  {
    Tally(t.champions + g.champions, t.finalists + g.finalists, t.semifinalists + g.semifinalists)
  }

  lemma PlusEmpty(g: Tally)
    ensures Plus(Empty, g) == g
  {
    assert multiset{} + g.champions == g.champions;
    assert multiset{} + g.finalists == g.finalists;
    assert multiset{} + g.semifinalists == g.semifinalists;
  }

  /** The fields after the round of 16, the quarter finals and the semi
      finals, and the stream position after them. */
  function Later(first: seq<Team>, env: Env, k: nat): (r: (seq<Team>, seq<Team>, seq<Team>, nat))
  {
    var (r16, k2) := PlayPairs(Adjacent(first), env, k);
    var (qf, k3) := PlayPairs(Adjacent(r16), env, k2);
    var (sf, k4) := PlayPairs(Adjacent(qf), env, k3);
    (r16, qf, sf, k4)
  }

  /** What the three labelled rounds credit: the quarter-final winners as
      semifinalists and the semi-final winners as finalists. */
  function RoundsGain(first: seq<Team>, env: Env, k: nat): Tally
  {
    var (_, qf, sf, _) := Later(first, env, k);
    Tally(multiset{}, multiset(sf), multiset(qf))
  }

  /** The three labelled rounds leave the semi-final winners and add their
      gains to whatever the counters held. */
  lemma RoundsCredit(first: seq<Team>, format: string, env: Env, k: nat, t: Tally)
    ensures var (_, _, sf, k4) := Later(first, env, k);
      Rounds(first, RoundNames(format), env, k, t) == (sf, k4, Plus(t, RoundsGain(first, env, k)))
  {
    var (r16, k2) := PlayPairs(Adjacent(first), env, k);
    var (qf, k3) := PlayPairs(Adjacent(r16), env, k2);
    var (sf, k4) := PlayPairs(Adjacent(qf), env, k3);
    var t1 := Credit(t, "Round of 16", r16);
    var t2 := Credit(t1, QuarterFinals, qf);
    var t3 := Credit(t2, SemiFinals, sf);
    var names := RoundNames(format);
    assert Rounds(sf, names[3..], env, k4, t3) == (sf, k4, t3);
    assert Rounds(qf, names[2..], env, k3, t2) == (sf, k4, t3) by { assert names[2..][1..] == names[3..]; }
    assert Rounds(r16, names[1..], env, k2, t1) == (sf, k4, t3) by { assert names[1..][1..] == names[2..]; }
    assert t.champions + multiset{} == t.champions;
  }

  /** Each round halves the field and draws its winners from it. */
  lemma LaterShape(first: seq<Team>, env: Env, k: nat)
    ensures var (_, qf, sf, _) := Later(first, env, k);
      && |qf| == |first| / 4 && |sf| == |first| / 8
      && multiset(sf) <= multiset(qf) <= multiset(first)
  {
    var (r16, k2) := PlayPairs(Adjacent(first), env, k);
    var (qf, k3) := PlayPairs(Adjacent(r16), env, k2);
    RoundHalves(first, env, k);
    RoundHalves(r16, env, k2);
    RoundHalves(qf, env, k3);
    Halving(|first|);
  }

  lemma Halving(n: nat)
    ensures n / 2 / 2 == n / 4 && n / 4 / 2 == n / 8
  {
  }

  /** The final adds its champion to whatever the counters held. */
  lemma FinalAdds(current: seq<Team>, env: Env, k: nat, t: Tally, e: Tally)
    ensures Final(current, env, k, Plus(t, e)) == (Final(current, env, k, e).0, Plus(t, Final(current, env, k, e).1))
  {
    if |current| >= 2 {
      var w := KnockoutWinner(env, current[0], current[1], k).0;
      assert t.champions + e.champions + multiset{w} == t.champions + (e.champions + multiset{w});
    }
  }

  /** From no champions, the final credits one of the two teams left, if
      there are two, and nothing else. */
  lemma FinalChampion(current: seq<Team>, env: Env, k: nat, e: Tally)
    requires e.champions == multiset{}
    ensures var f := Final(current, env, k, e).1;
      && |f.champions| == (if |current| >= 2 then 1 else 0)
      && f.champions <= multiset(current)
      && f.finalists == e.finalists && f.semifinalists == e.semifinalists
  {
    if |current| >= 2 {
      var w := KnockoutWinner(env, current[0], current[1], k).0;
      assert w in current;
    }
  }

  /** What the knockout stage credits, counted from empty counters. */
  function Gain(pairs: seq<(Team, Team)>, format: string, env: Env, k: nat): Tally
  {
    KnockoutStage(pairs, format, env, k, Empty).1
  }

  /** The knockout stage only adds to the counters, and what it adds does
      not depend on what they held before. */
  lemma KnockoutAdds(pairs: seq<(Team, Team)>, format: string, env: Env, k: nat, t: Tally)
    ensures KnockoutStage(pairs, format, env, k, t)
      == (KnockoutStage(pairs, format, env, k, Empty).0, Plus(t, Gain(pairs, format, env, k)))
  {
    var (first, k1) := PlayPairs(pairs, env, k);
    var (_, _, sf, k4) := Later(first, env, k1);
    var d := RoundsGain(first, env, k1);
    RoundsCredit(first, format, env, k1, t);
    RoundsCredit(first, format, env, k1, Empty);
    PlusEmpty(d);
    FinalAdds(sf, env, k4, t, d);
  }

  /** Every trial whose first round has `P` matches credits `P / 4`
      semifinalists (the winners of the quarter finals), `P / 8` finalists
      (the winners of the semi finals), and a champion when at least two
      finalists are left (`P >= 16`). The champion is among the finalists,
      the finalists among the semifinalists, and those among the teams of
      the first round. */
  lemma KnockoutCounts(pairs: seq<(Team, Team)>, format: string, env: Env, k: nat)
    ensures var g := Gain(pairs, format, env, k);
      && |g.semifinalists| == |pairs| / 4
      && |g.finalists| == |pairs| / 8
      && |g.champions| == (if |pairs| / 8 >= 2 then 1 else 0)
      && g.champions <= g.finalists <= g.semifinalists <= multiset(Flatten(pairs))
  {
    var (first, k1) := PlayPairs(pairs, env, k);
    var (_, qf, sf, k4) := Later(first, env, k1);
    var d := RoundsGain(first, env, k1);
    RoundsCredit(first, format, env, k1, Empty);
    PlusEmpty(d);
    LaterShape(first, env, k1);
    WinnersWithin(pairs, env, k);
    assert Gain(pairs, format, env, k) == Final(sf, env, k4, d).1;
    FinalChampion(sf, env, k4, d);
  }

  // ---------------------------------------------------------------------
  // When a trial raises

  /** Two lists of group results with the same labels in the same order
      and tables of the same lengths. */
  ghost predicate SameShape(r1: seq<GroupResult>, r2: seq<GroupResult>)
  {
    && |r1| == |r2|
    && forall g :: 0 <= g < |r1| ==> r1[g].name == r2[g].name && |r1[g].table| == |r2[g].table|
  }

  /** Whatever the predictions and draws, the group stage reports every
      group under its own label with one row per distinct team. */
  lemma StageShape(groups: seq<Group>, env: Env, k: nat)
    ensures var results := Stage(groups, env, k).0;
      && |results| == |groups|
      && forall g :: 0 <= g < |groups| ==>
        results[g].name == groups[g].name && |results[g].table| == |Distinct(groups[g].teams)|
  {
    StageResolved(groups, env, k);
    var results := Stage(groups, env, k).0;
    forall g | 0 <= g < |groups|
      ensures |results[g].table| == |Distinct(groups[g].teams)|
    {
      assert Resolved(groups[g], results[g]);
      assert |multiset(Project(results[g].table, TeamOf))| == |Project(results[g].table, TeamOf)|;
    }
  }

  /** Results of the same shape give dictionaries with the same labels and
      tables of the same lengths. */
  lemma {:induction false} TablesAlike(r1: seq<GroupResult>, r2: seq<GroupResult>)
    requires SameShape(r1, r2)
    ensures forall name :: name in Tables(r1) <==> name in Tables(r2)
    ensures forall name :: name in Tables(r1) ==> |Tables(r1)[name]| == |Tables(r2)[name]|
    decreases |r1|
  {
    if r1 != [] {
      TablesAlike(r1[..|r1| - 1], r2[..|r2| - 1]);
    }
  }

  /** Whether a bracket builder raises depends only on the labels and the
      lengths of the tables. */
  lemma BracketFailsAlike(r1: seq<GroupResult>, r2: seq<GroupResult>, format: string, ranked1: seq<ThirdPlace>, ranked2: seq<ThirdPlace>)
    requires SameShape(r1, r2)
    ensures Bracket(r1, format, ranked1).None? <==> Bracket(r2, format, ranked2).None?
  {
    TablesAlike(r1, r2);
    Bracket32Fails(r1);
    Bracket32Fails(r2);
  }

  /** A trial raises for some predictions, draws and counters exactly when
      it raises for all of them: the bracket builders only look at which
      groups exist and how many teams each has. */
  lemma TrialFailsAlike(groups: seq<Group>, format: string, env: Env, k: nat, t: Tally, env': Env, k': nat, t': Tally)
    ensures Trial(groups, format, env, k, t).None? <==> Trial(groups, format, env', k', t').None?
  {
    var r1, r2 := Stage(groups, env, k).0, Stage(groups, env', k').0;
    StageShape(groups, env, k);
    StageShape(groups, env', k');
    BracketFailsAlike(r1, r2, format, Ranked(r1, format), Ranked(r2, format));
  }

  /** `count` trials fail exactly when there is at least one and the first
      fails. */
  lemma {:induction false} TrialsFail(groups: seq<Group>, format: string, count: nat, env: Env, k0: nat)
    ensures Trials(groups, format, count, env, k0).None? <==> count > 0 && Trial(groups, format, env, k0, Empty).None?
    decreases count
  {
    if count > 0 {
      TrialsFail(groups, format, count - 1, env, k0);
      var prev := Trials(groups, format, count - 1, env, k0);
      if prev.Some? {
        var (k, t) := prev.value;
        assert Trials(groups, format, count, env, k0) == Trial(groups, format, env, k, t);
        TrialFailsAlike(groups, format, env, k, t, env, k0, Empty);
      }
    }
  }

  /** `simulate_tournament` raises exactly when it runs at least one trial
      and one trial, hence the first, raises. */
  lemma SimulationFails(groups: seq<Group>, format: string, n: int, env: Env, k0: nat)
    ensures Simulation(groups, format, n, env, k0).None? <==> n > 0 && Trial(groups, format, env, k0, Empty).None?
  {
    TrialsFail(groups, format, Count(n), env, k0);
  }

  // ---------------------------------------------------------------------
  // Counting over all trials

  /** Whatever the predictions and draws, the first knockout round of the
      groups `groups` has `size` matches. */
  ghost predicate FirstRound(groups: seq<Group>, format: string, size: nat)
  {
    forall env: Env, k: nat :: var results := Stage(groups, env, k).0;
      && Bracket(results, format, Ranked(results, format)).Some?
      && |Bracket(results, format, Ranked(results, format)).value| == size
  }

  /** A trial whose first round has `size` matches adds `size / 4`
      semifinalists, `size / 8` finalists and, if `size / 8 >= 2`, one
      champion. */
  lemma TrialCounts(groups: seq<Group>, format: string, size: nat, env: Env, k: nat, t: Tally)
    requires FirstRound(groups, format, size)
    ensures var r := Trial(groups, format, env, k, t);
      && r.Some?
      && |r.value.1.semifinalists| == |t.semifinalists| + size / 4
      && |r.value.1.finalists| == |t.finalists| + size / 8
      && |r.value.1.champions| == |t.champions| + (if size / 8 >= 2 then 1 else 0)
  {
    var (results, k1) := Stage(groups, env, k);
    var pairs := Bracket(results, format, Ranked(results, format)).value;
    assert Trial(groups, format, env, k, t) == Some(KnockoutStage(pairs, format, env, k1, t));
    KnockoutAdds(pairs, format, env, k1, t);
    KnockoutCounts(pairs, format, env, k1);
  }

  /** `count` trials whose first rounds have `size` matches each succeed and
      credit `count` times what one trial credits. */
  lemma {:induction false} TrialsCount(groups: seq<Group>, format: string, size: nat, count: nat, env: Env, k0: nat)
    requires FirstRound(groups, format, size)
    ensures var r := Trials(groups, format, count, env, k0);
      && r.Some?
      && |r.value.1.semifinalists| == count * (size / 4)
      && |r.value.1.finalists| == count * (size / 8)
      && |r.value.1.champions| == count * (if size / 8 >= 2 then 1 else 0)
    decreases count
  {
    if count > 0 {
      TrialsCount(groups, format, size, count - 1, env, k0);
      var (k, t) := Trials(groups, format, count - 1, env, k0).value;
      assert Trials(groups, format, count, env, k0) == Trial(groups, format, env, k, t);
      TrialCounts(groups, format, size, env, k, t);
      Times(count, size / 4);
      Times(count, size / 8);
      Times(count, if size / 8 >= 2 then 1 else 0);
    }
  }

  lemma Times(count: nat, x: nat)
    requires count > 0
    ensures count * x == (count - 1) * x + x
  {
  }

  /** The simulation of `n` requested trials of a draw whose first round
      has `size` matches never raises, and reports `max(n, 0)` times the
      per-trial gain of `TrialCounts`, with `n` as the trial count. */
  lemma SimulationCounts(groups: seq<Group>, format: string, size: nat, n: int, env: Env, k0: nat)
    requires FirstRound(groups, format, size)
    ensures var r := Simulation(groups, format, n, env, k0);
      && r.Some?
      && |r.value.0.semifinalists| == Count(n) * (size / 4)
      && |r.value.0.finalists| == Count(n) * (size / 8)
      && |r.value.0.champions| == Count(n) * (if size / 8 >= 2 then 1 else 0)
      && r.value.0.nSims == n
  {
    TrialsCount(groups, format, size, Count(n), env, k0);
  }

  /** The summary reports the trial count it was asked for, also when
      that count is not positive and no trial runs. */
  lemma ReportedTrials(groups: seq<Group>, format: string, n: int, env: Env, k0: nat)
    ensures var r := Simulation(groups, format, n, env, k0);
      r.Some? ==> r.value.0.nSims == n
  {
  }
}
