/** The request checks of the web API (backend/main.py): the simulation
    endpoint validates the format, the number of groups and the size of
    every group, in that order, before the Monte Carlo simulation runs with
    at most 500 trials, followed by the deterministic bracket pass; the
    preset endpoint accepts two preset names only
    and rejects every other name before anything is loaded. */
module Api {

  import opened Common
  import opened Text
  import opened GroupStage
  import opened Tournament
  import opened Outcomes
  import opened Complete

  /** What the simulation endpoint answers: the Monte Carlo counters, an
      HTTP error raised by the checks, or status 500 when the simulation
      itself raises (a missing group label, for instance) or the
      deterministic bracket pass does. */
  datatype Response =
    | Simulated(summary: Summary)
    | Rejected(status: int, detail: string)
    | Failed(status: int)

  const Formats: seq<string> := ["32_team", "48_team"]

  /** The Monte Carlo trial count is capped for performance. */
  const TrialCap: int := 500

  const FormatDetail: string := "Format must be '32_team' or '48_team'"

  /** The group count a format demands: 8 for "32_team", 12 otherwise. */
  function ExpectedGroups(format: string): nat
  {
    if format == "32_team" then 8 else 12
  }

  function CountDetail(format: string, got: nat): string
  {
    "Expected " + IntToString(ExpectedGroups(format)) + " groups for " + format + " format, got " + IntToString(got)
  }

  function SizeDetail(name: string, got: nat): string
  {
    "Group " + name + " must have exactly 4 teams, got " + IntToString(got)
  }

  /** The first group, in the request's order, whose list does not hold
      exactly four entries. */
  function FirstBadGroup(groups: seq<Group>): (r: Option<nat>)
    ensures r.None? <==> forall g :: 0 <= g < |groups| ==> |groups[g].teams| == 4
    ensures r.Some? ==> r.value < |groups| && |groups[r.value].teams| != 4
    ensures r.Some? ==> forall g :: 0 <= g < r.value ==> |groups[g].teams| == 4
    decreases |groups|
  {
    if groups == [] then None
    else if |groups[0].teams| != 4 then Some(0)
    else
      match FirstBadGroup(groups[1..])
      case None => None
      case Some(i) => Some(i + 1)
  }

  /** A request the endpoint accepts: a known format, the number of groups
      that format has, four entries in every group. */
  ghost predicate WellFormed(groups: seq<Group>, format: string)
  {
    && ((format == "32_team" && |groups| == 8) || (format == "48_team" && |groups| == 12))
    && forall g :: 0 <= g < |groups| ==> |groups[g].teams| == 4
  }

  /** The checks of the simulation endpoint, in their order: the first one
      that fails gives the error; none fails exactly for a well-formed
      request, and every error is a 400. */
  function Validate(groups: seq<Group>, format: string): (r: Option<Response>)
    ensures r.None? <==> WellFormed(groups, format)
    ensures r.Some? ==> r.value.Rejected? && r.value.status == 400
  {
    if format !in Formats then Some(Rejected(400, FormatDetail))
    else if |groups| != ExpectedGroups(format) then Some(Rejected(400, CountDetail(format, |groups|)))
    else
      match FirstBadGroup(groups)
      case Some(g) => Some(Rejected(400, SizeDetail(groups[g].name, |groups[g].teams|)))
      case None => None
  }

  /** `min(n_sims, 500)`: no lower bound. */
  function TrialCount(n: int): (c: int)
    ensures c <= TrialCap
    ensures c == n <==> n <= TrialCap
    ensures n > TrialCap ==> c == TrialCap
  {
    Min(n, TrialCap)
  }

  /** The simulation endpoint: the checks, then the simulation with the
      capped trial count, then the deterministic bracket pass
      (`simulate_deterministic_tournament`). The predictor and the random
      stream come in through `env` and `k0`; `bracketPass` tells whether the
      deterministic pass returns. `predictor.py` as it stands defines no
      such method, so the call raises and `bracketPass` is false there.
      Only checks give a 400, only a raising pass gives a 500, and an
      answer with counters needs both passes to return. */
  function Handle(groups: seq<Group>, format: string, nSims: int, env: Env, k0: nat, bracketPass: bool): (r: Response)
    ensures r.Rejected? ==> r.status == 400 && !WellFormed(groups, format)
    ensures r.Failed? ==>
      && r.status == 500
      && WellFormed(groups, format)
      && (!bracketPass || Simulation(groups, format, TrialCount(nSims), env, k0).None?)
    ensures r.Simulated? ==>
      && bracketPass
      && WellFormed(groups, format)
      && Simulation(groups, format, TrialCount(nSims), env, k0).Some?
      && Simulation(groups, format, TrialCount(nSims), env, k0).value.0 == r.summary
  {
    match Validate(groups, format)
    case Some(rejection) => rejection
    case None =>
      match Simulation(groups, format, TrialCount(nSims), env, k0)
      case None => Failed(500)
      case Some((summary, _)) => if bracketPass then Simulated(summary) else Failed(500)
  }

  /** The format is checked first: an unknown format is rejected whatever
      the groups are. Then the count: with a known format and the wrong
      number of groups the error names the expected and the actual count,
      whatever the group sizes. Then the sizes: the first group of the
      wrong size is the one reported. */
  lemma ValidationOrder(groups: seq<Group>, format: string, nSims: int, env: Env, k0: nat, bracketPass: bool)
    ensures format != "32_team" && format != "48_team" ==>
      Handle(groups, format, nSims, env, k0, bracketPass) == Rejected(400, FormatDetail)
    ensures (format == "32_team" || format == "48_team") && |groups| != ExpectedGroups(format) ==>
      Handle(groups, format, nSims, env, k0, bracketPass) == Rejected(400, CountDetail(format, |groups|))
    ensures (format == "32_team" || format == "48_team") && |groups| == ExpectedGroups(format) ==>
      forall g :: 0 <= g < |groups| && |groups[g].teams| != 4
                  && (forall h :: 0 <= h < g ==> |groups[h].teams| == 4) ==>
        Handle(groups, format, nSims, env, k0, bracketPass) == Rejected(400, SizeDetail(groups[g].name, |groups[g].teams|))
  {
    if (format == "32_team" || format == "48_team") && |groups| == ExpectedGroups(format) {
      var r := FirstBadGroup(groups);
      forall g | 0 <= g < |groups| && |groups[g].teams| != 4 && (forall h :: 0 <= h < g ==> |groups[h].teams| == 4)
        ensures Handle(groups, format, nSims, env, k0, bracketPass) == Rejected(400, SizeDetail(groups[g].name, |groups[g].teams|))
      {
        assert r.Some? && r.value == g;
      }
    }
  }

  /** All checks run before the simulation: a request that is not
      well-formed is answered with a 400 without consulting the predictor,
      the random stream or the deterministic pass; a well-formed one is
      never rejected. */
  lemma RejectedBeforeSimulation(groups: seq<Group>, format: string, nSims: int, env: Env, k0: nat,
                                 bracketPass: bool, env': Env, k0': nat, bracketPass': bool)
    ensures Handle(groups, format, nSims, env, k0, bracketPass).Rejected? <==> !WellFormed(groups, format)
    ensures Handle(groups, format, nSims, env, k0, bracketPass).Rejected? ==>
      Handle(groups, format, nSims, env, k0, bracketPass).status == 400
      && Handle(groups, format, nSims, env', k0', bracketPass') == Handle(groups, format, nSims, env, k0, bracketPass)
  {
  }

  /** With the deterministic pass raising, as it does against
      `predictor.py` as it stands, every request that passes the checks is
      answered with a 500, whatever the Monte Carlo simulation did. */
  lemma BracketPassRaises(groups: seq<Group>, format: string, nSims: int, env: Env, k0: nat)
    requires WellFormed(groups, format)
    ensures Handle(groups, format, nSims, env, k0, false) == Failed(500)
  {
  }

  /** An accepted simulation reports the capped trial count, never more
      than 500. */
  lemma TrialsCapped(groups: seq<Group>, format: string, nSims: int, env: Env, k0: nat, bracketPass: bool)
    ensures var r := Handle(groups, format, nSims, env, k0, bracketPass);
      r.Simulated? ==> r.summary.nSims == Min(nSims, 500) && r.summary.nSims <= 500
  {
    var r := Handle(groups, format, nSims, env, k0, bracketPass);
    if r.Simulated? {
      var outcome := Simulation(groups, format, TrialCount(nSims), env, k0);
      assert outcome.Some?;
      ReportedTrials(groups, format, TrialCount(nSims), env, k0);
    }
  }

  /** A well-formed request with a non-positive trial count runs no trial:
      once the deterministic pass returns, it is answered with empty
      counters, whatever the groups are; when that pass raises, with a
      500. */
  lemma NoTrials(groups: seq<Group>, format: string, nSims: int, env: Env, k0: nat, bracketPass: bool)
    requires WellFormed(groups, format) && nSims <= 0
    ensures Handle(groups, format, nSims, env, k0, bracketPass)
         == if bracketPass then Simulated(Summary(multiset{}, multiset{}, multiset{}, nSims)) else Failed(500)
  {
    assert Trials(groups, format, 0, env, k0) == Some((k0, Empty));
  }

  /** A complete 48-team draw (groups A to L in any order) passes the
      checks and the Monte Carlo simulation never raises for it: each of the
      `min(n_sims, 500)` trials credits four semifinalists, two finalists
      and one champion, and those counters are the answer once the
      deterministic pass returns; otherwise the answer is a 500. */
  lemma Accepted48(groups: seq<Group>, nSims: int, env: Env, k0: nat, bracketPass: bool)
    requires Complete48(groups)
    ensures var sim := Simulation(groups, "48_team", Min(nSims, 500), env, k0);
      && sim.Some?
      && Handle(groups, "48_team", nSims, env, k0, bracketPass)
         == if bracketPass then Simulated(sim.value.0) else Failed(500)
    ensures var r := Handle(groups, "48_team", nSims, env, k0, true);
      && r.Simulated?
      && r.summary.nSims == Min(nSims, 500)
      && |r.summary.semifinalists| == 4 * Count(Min(nSims, 500))
      && |r.summary.finalists| == 2 * Count(Min(nSims, 500))
      && |r.summary.champions| == Count(Min(nSims, 500))
  {
    assert WellFormed(groups, "48_team");
    Simulation48(groups, TrialCount(nSims), env, k0);
  }

  /** A complete 32-team draw (groups A to H in any order) passes the
      checks and the Monte Carlo simulation never raises for it, with the
      counts of the 32-team path as written: two semifinalists and one
      finalist per trial, and no champion. Those counters are the answer
      once the deterministic pass returns; otherwise the answer is a
      500. */
  lemma Accepted32(groups: seq<Group>, nSims: int, env: Env, k0: nat, bracketPass: bool)
    requires Complete32(groups)
    ensures var sim := Simulation(groups, "32_team", Min(nSims, 500), env, k0);
      && sim.Some?
      && Handle(groups, "32_team", nSims, env, k0, bracketPass)
         == if bracketPass then Simulated(sim.value.0) else Failed(500)
    ensures var r := Handle(groups, "32_team", nSims, env, k0, true);
      && r.Simulated?
      && r.summary.nSims == Min(nSims, 500)
      && |r.summary.semifinalists| == 2 * Count(Min(nSims, 500))
      && |r.summary.finalists| == Count(Min(nSims, 500))
      && |r.summary.champions| == 0
  {
    assert WellFormed(groups, "32_team");
    Simulation32(groups, TrialCount(nSims), env, k0);
  }

  /** The count and size errors end with the actual number, which reads
      back as written. */
  lemma DetailsReportCounts(format: string, name: string, got: nat)
    ensures var d, s := CountDetail(format, got), IntToString(got);
      |s| <= |d| && ParseInt(d[|d| - |s|..]) == Some(got)
    ensures var d, s := SizeDetail(name, got), IntToString(got);
      |s| <= |d| && ParseInt(d[|d| - |s|..]) == Some(got)
  {
    IntToStringRoundTrip(got);
    var s := IntToString(got);
    var d := CountDetail(format, got);
    assert d[|d| - |s|..] == s;
    var d' := SizeDetail(name, got);
    assert d'[|d'| - |s|..] == s;
  }

  // ---------------------------------------------------------------------
  // The preset endpoint

  const Presets: seq<string> := ["wc2022", "wc2026"]

  /** The preset's data as loaded, the 404 of an unknown name or of
      missing data files. */
  datatype PresetAnswer<D> = Loaded(data: D) | NotFound(status: int, detail: string)

  /** `f"Preset '{name}' not found. Available presets: {valid_presets}"`,
      the list printed as Python prints a list of strings. */
  function UnknownPresetDetail(name: string): string
  {
    "Preset '" + name + "' not found. Available presets: ['wc2022', 'wc2026']"
  }

  function MissingFilesDetail(name: string): string
  {
    "Preset '" + name + "' data files not found"
  }

  /** `get_preset`, with the file loading as the parameter `load`. */
  function GetPreset<D>(name: string, load: string -> Option<D>): (r: PresetAnswer<D>)
    ensures r.NotFound? ==> r.status == 404
    ensures r.Loaded? <==> name in Presets && load(name).Some?
    ensures r.Loaded? ==> r.data == load(name).value
  {
    if name !in Presets then NotFound(404, UnknownPresetDetail(name))
    else
      match load(name)
      case None => NotFound(404, MissingFilesDetail(name))
      case Some(d) => Loaded(d)
  }

  /** Only "wc2022" and "wc2026" get past the name check; any other name
      is a 404 naming the preset asked for, and nothing is loaded for it:
      the answer does not depend on the loader. */
  lemma PresetNames<D>(name: string, load: string -> Option<D>, load': string -> Option<D>)
    ensures GetPreset(name, load).NotFound? && GetPreset(name, load).detail == UnknownPresetDetail(name)
        <==> name != "wc2022" && name != "wc2026"
    ensures name != "wc2022" && name != "wc2026" ==>
      GetPreset(name, load).status == 404 && GetPreset(name, load') == GetPreset(name, load)
    ensures UnknownPresetDetail(name)[8..8 + |name|] == name
  {
    if name == "wc2022" || name == "wc2026" {
      var answer := GetPreset(name, load);
      if answer.NotFound? {
        assert answer.detail == MissingFilesDetail(name);
        assert |MissingFilesDetail(name)| != |UnknownPresetDetail(name)|;
      }
    }
  }
}
