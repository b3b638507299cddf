/** The backend's solver front end (cabSolver.ts): the hall codes of the seven
    regions, `solveCabAllocation`, which throws when the model is infeasible, and
    the conversion of per-hall demand into the vector of counts. */
module CabSolver {
  import opened Wrappers
  import opened CabModel
  import opened LpModel

  /** `HALL_TO_REGION` */
  const HallToRegion: map<string, nat> :=
    map["RK" := 0, "VS" := 1, "MS" := 2, "HJB" := 3, "LLR" := 4, "LBS" := 5, "PAN" := 6]

  /** `REGION_TO_HALL` */
  const RegionToHall: map<nat, string> :=
    map[0 := "RK", 1 := "VS", 2 := "MS", 3 := "HJB", 4 := "LLR", 5 := "LBS", 6 := "PAN"]

  /** The two tables are inverse to each other, between the seven hall codes and
      the regions 0..6. */
  lemma HallRegionInverse()
    ensures forall h :: h in HallToRegion ==>
      HallToRegion[h] < Regions && HallToRegion[h] in RegionToHall && RegionToHall[HallToRegion[h]] == h
    ensures forall r: nat :: r in RegionToHall <==> r < Regions
    ensures forall r :: r in RegionToHall ==> RegionToHall[r] in HallToRegion && HallToRegion[RegionToHall[r]] == r
  {
    assert RegionToHall.Keys == {0, 1, 2, 3, 4, 5, 6};
    assert HallToRegion.Keys == {"RK", "VS", "MS", "HJB", "LLR", "LBS", "PAN"};
  }

  /** No two halls share a region. */
  lemma HallToRegionInjective(h: string, g: string)
    requires h in HallToRegion && g in HallToRegion && HallToRegion[h] == HallToRegion[g]
    ensures h == g
  {
    HallRegionInverse();
    assert RegionToHall[HallToRegion[h]] == h;
  }

  /** The error `solveCabAllocation` throws when the solver finds no solution. */
  const InfeasibleMessage := "No feasible solution found for cab allocation"

  /** `solveCabAllocation`: build the model, solve it, throw when it is infeasible,
      otherwise format the answer. */
  method SolveCabAllocation(studentsPerRegion: seq<int>, solve: Lp -> LpResult)
    returns (r: Result<LpAllocation, string>)
    requires |studentsPerRegion| == Regions && TrustedLpSolver(solve)
    ensures r.Failure? <==> exists i :: 0 <= i < Regions && studentsPerRegion[i] < 0
    ensures r.Failure? ==> r.error == InfeasibleMessage
    ensures r.Success? ==> Delivers(studentsPerRegion, r.value)
    ensures r.Success? ==> ReadsBack(solve(LpOf(studentsPerRegion)), r.value)
    ensures r.Success? && LpOptimal(LpOf(studentsPerRegion), solve(LpOf(studentsPerRegion))) ==>
      IsCabPlan(studentsPerRegion, r.value.assignments, r.value.numCabsPerRegion, r.value.unusedSeatsPerRegion)
  {
    var model := BuildLp(studentsPerRegion);
    var results := solve(model);
    InfeasibleIffNegative(studentsPerRegion, results);
    if !results.feasible {
      return Failure(InfeasibleMessage);
    }
    var p := FormatAllocation(studentsPerRegion, results);
    return Success(p);
  }

  // ---------------------------------------------------------------------
  // convertHallDemandToRegions
  // ---------------------------------------------------------------------

  /** One row of the per-hall demand: a hall code and its number of students. */
  datatype HallDemand = HallDemand(hall: string, count: int)

  /** Region r's count after the given rows: the count of the last row whose hall
      lies in region r, or 0 when there is none. */
  function RegionCount(demand: seq<HallDemand>, r: nat): int {
    if demand == [] then 0
    else
      var last := demand[|demand| - 1];
      if last.hall in HallToRegion && HallToRegion[last.hall] == r then last.count
      else RegionCount(demand[..|demand| - 1], r)
  }

  predicate Converted(demand: seq<HallDemand>, k: nat, counts: seq<int>)
    requires k <= |demand|
  {
    |counts| == Regions && forall r :: 0 <= r < Regions ==> counts[r] == RegionCount(demand[..k], r)
  }

  lemma ConvertStep(demand: seq<HallDemand>, k: nat, counts: seq<int>)
    requires k < |demand| && Converted(demand, k, counts)
    ensures var d := demand[k];
      Converted(demand, k + 1,
        if d.hall in HallToRegion then counts[HallToRegion[d.hall] := d.count] else counts)
  {
    assert demand[..k + 1][..k] == demand[..k];
    HallRegionInverse();
  }

  /** `convertHallDemandToRegions`: seven zeros, then one assignment per row whose
      hall is known. */
  method ConvertHallDemandToRegions(hallDemand: seq<HallDemand>) returns (studentsPerRegion: seq<int>)
    ensures |studentsPerRegion| == Regions
    ensures forall r :: 0 <= r < Regions ==> studentsPerRegion[r] == RegionCount(hallDemand, r)
  {
    studentsPerRegion := seq(Regions, r => 0);
    for k := 0 to |hallDemand|
      invariant Converted(hallDemand, k, studentsPerRegion)
    {
      ConvertStep(hallDemand, k, studentsPerRegion);
      var demand := hallDemand[k];
      if demand.hall in HallToRegion {
        studentsPerRegion := studentsPerRegion[HallToRegion[demand.hall] := demand.count];
      }
    }
    assert hallDemand[..|hallDemand|] == hallDemand;
  }

  /** A row with an unknown hall code changes nothing. */
  lemma UnknownHallIgnored(demand: seq<HallDemand>, d: HallDemand, r: nat)
    requires d.hall !in HallToRegion
    ensures RegionCount(demand + [d], r) == RegionCount(demand, r)
  {
    assert (demand + [d])[..|demand|] == demand;
  }

  /** A region no row names stays 0. */
  lemma {:induction false} AbsentRegionIsZero(demand: seq<HallDemand>, r: nat)
    requires forall k :: 0 <= k < |demand| ==> !(demand[k].hall in HallToRegion && HallToRegion[demand[k].hall] == r)
    ensures RegionCount(demand, r) == 0
  {
    if demand != [] {
      AbsentRegionIsZero(demand[..|demand| - 1], r);
    }
  }

  /** When a hall appears more than once, its last row wins: the counts are
      assigned, not added. */
  lemma {:induction false} LastRowWins(demand: seq<HallDemand>, k: nat)
    requires k < |demand| && demand[k].hall in HallToRegion
    requires forall m :: k < m < |demand| ==> demand[m].hall != demand[k].hall
    ensures RegionCount(demand, HallToRegion[demand[k].hall]) == demand[k].count
  {
    var last := demand[|demand| - 1];
    if k < |demand| - 1 {
      if last.hall in HallToRegion && HallToRegion[last.hall] == HallToRegion[demand[k].hall] {
        HallToRegionInjective(last.hall, demand[k].hall);
      }
      LastRowWins(demand[..|demand| - 1], k);
    }
  }
}
