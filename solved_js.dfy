/** The original JavaScript port of the solver (`solveCabAllocationJS` in
    solved.js): the same model and formatting as the TypeScript front end, but an
    infeasible model yields `null` instead of an exception. */
module SolvedJs {
  import opened Wrappers
  import opened CabModel
  import opened LpModel

  /** `solveCabAllocationJS` */
  method SolveCabAllocationJs(studentsPerRegion: seq<int>, solve: Lp -> LpResult)
    returns (r: Option<LpAllocation>)
    requires |studentsPerRegion| == Regions && TrustedLpSolver(solve)
    ensures r.None? <==> exists i :: 0 <= i < Regions && studentsPerRegion[i] < 0
    ensures r.Some? ==> Delivers(studentsPerRegion, r.value)
    ensures r.Some? ==> ReadsBack(solve(LpOf(studentsPerRegion)), r.value)
    ensures r.Some? && LpOptimal(LpOf(studentsPerRegion), solve(LpOf(studentsPerRegion))) ==>
      IsCabPlan(studentsPerRegion, r.value.assignments, r.value.numCabsPerRegion, r.value.unusedSeatsPerRegion)
  {
    var model := BuildLp(studentsPerRegion);
    var results := solve(model);
    InfeasibleIffNegative(studentsPerRegion, results);
    if !results.feasible {
      return None;
    }
    var p := FormatAllocation(studentsPerRegion, results);
    return Some(p);
  }
}
