/** Knockout matches of backend/predictor.py (`simulate_knockout_match`):
    no draws; the predictor's draw frequency is split evenly between the
    two sides, and without a prediction the higher Elo rating goes through. */
module Knockout {

  import opened Common
  import opened GroupStage

  /** The rating assumed for a team missing from the Elo table. */
  const DefaultRating: real := 1500.0

  function Rating(env: Env, t: Team): real
  {
    if t in env.elo then env.elo[t] else DefaultRating
  }

  /** The winner of a knockout match between `a` and `b` with the shared
      stream at `k`, and the stream position afterwards. */
  function KnockoutWinner(env: Env, a: Team, b: Team, k: nat): (r: (Team, nat))
    ensures r.0 == a || r.0 == b
    ensures env.predict(a, b, k).None? ==>
      && r.1 == k
      && (Rating(env, a) > Rating(env, b) ==> r.0 == a)
      && (Rating(env, a) <= Rating(env, b) ==> r.0 == b)
    ensures env.predict(a, b, k).Some? ==>
      var p := env.predict(a, b, k).value;
      && r.1 == k + 1
      && (env.rng(k) < p.homeWin + p.draw / 2.0 ==> r.0 == a)
      && (env.rng(k) >= p.homeWin + p.draw / 2.0 ==> r.0 == b)
  {
    match env.predict(a, b, k)
    case None => (if Rating(env, a) > Rating(env, b) then a else b, k)
    case Some(p) => (if env.rng(k) < p.homeWin + p.draw / 2.0 then a else b, k + 1)
  }

  /** Without a prediction in either direction the Elo fallback does not
      depend on which side is named first, unless the ratings are equal, in
      which case the second-named side goes through. */
  lemma EloFallbackOrder(env: Env, a: Team, b: Team, k: nat)
    requires env.predict(a, b, k).None? && env.predict(b, a, k).None?
    ensures Rating(env, a) != Rating(env, b) ==> KnockoutWinner(env, a, b, k) == KnockoutWinner(env, b, a, k)
    ensures Rating(env, a) == Rating(env, b) ==>
      KnockoutWinner(env, a, b, k).0 == b && KnockoutWinner(env, b, a, k).0 == a
  {
  }

  /** With the same draw, a match the group stage would score as a home win
      sends the home side through, and one it would score as an away win
      sends the away side through; only the draw band is split, at its
      middle. */
  lemma KnockoutRefinesGroupOutcome(env: Env, a: Team, b: Team, k: nat)
    requires env.predict(a, b, k).Some? && env.predict(a, b, k).value.draw >= 0.0
    ensures var p := env.predict(a, b, k).value;
      && (Decide(p, env.rng(k)) == HomeWin ==> KnockoutWinner(env, a, b, k).0 == a)
      && (Decide(p, env.rng(k)) == AwayWin && a != b ==> KnockoutWinner(env, a, b, k).0 == b)
  {
  }

  /** Plays the matches `pairs` in order: the winners, one per pair, and the
      stream position afterwards. */
  function PlayPairs(pairs: seq<(Team, Team)>, env: Env, k: nat): (r: (seq<Team>, nat))
    ensures |r.0| == |pairs|
    ensures forall m :: 0 <= m < |pairs| ==> r.0[m] == pairs[m].0 || r.0[m] == pairs[m].1
    ensures k <= r.1 <= k + |pairs|
    decreases |pairs|
  {
    if pairs == [] then ([], k)
    else
      var prev := PlayPairs(pairs[..|pairs| - 1], env, k);
      var last := pairs[|pairs| - 1];
      var w := KnockoutWinner(env, last.0, last.1, prev.1);
      (prev.0 + [w.0], w.1)
  }

  /** Playing two runs of matches one after the other is playing them
      together. */
  lemma {:induction false} PlayPairsAppend(p: seq<(Team, Team)>, q: seq<(Team, Team)>, env: Env, k: nat)
    ensures var first := PlayPairs(p, env, k);
      var second := PlayPairs(q, env, first.1);
      PlayPairs(p + q, env, k) == (first.0 + second.0, second.1)
    decreases |q|
  {
    if q == [] {
      assert p + q == p;
      assert PlayPairs(p, env, k).0 + [] == PlayPairs(p, env, k).0;
    } else {
      var q' := q[..|q| - 1];
      assert (p + q)[..|p + q| - 1] == p + q';
      assert (p + q)[|p + q| - 1] == q[|q| - 1];
      PlayPairsAppend(p, q', env, k);
      var first := PlayPairs(p, env, k);
      var mid := PlayPairs(q', env, first.1);
      var w := KnockoutWinner(env, q[|q| - 1].0, q[|q| - 1].1, mid.1);
      assert PlayPairs(q, env, first.1) == (mid.0 + [w.0], w.1);
      assert first.0 + (mid.0 + [w.0]) == (first.0 + mid.0) + [w.0];
    }
  }
}
