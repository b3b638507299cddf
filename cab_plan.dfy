/** The cab-wise plan of `build_cab_plan_block` in scripts/cab_dashboard.py:
    the assignment matrix and the cab counts are unpacked into one manifest per
    cab, each cab filled greedily from the origins in ascending order.

    The text layout of the block is not modelled; what it prints is: one
    heading per region that has cabs, and per cab its number, its region, how
    many students of each origin board it, the seats used and its verdict. */
module CabPlan {
  import opened CabModel

  /** The three verdicts the block prints for a cab. */
  datatype CabKind = Direct | Empty | Mixed

  /** One cab of the plan: `load[i]` students of origin i board it
      (`cab_load.get(i, 0)`). */
  datatype Cab = Cab(number: nat, region: nat, load: seq<int>)

  /** What the block prints for one cab: the cab, its seats used and its verdict. */
  datatype CabLine = CabLine(cab: Cab, used: int, kind: CabKind)

  /** "Region j - n cab(s):" */
  datatype Heading = Heading(region: nat, cabs: int)

  // ---------------------------------------------------------------------
  // One cab: the greedy fill
  // ---------------------------------------------------------------------

  function Min(x: int, y: int): int {
    if x <= y then x else y
  }

  function Max(x: int, y: int): int {
    if x >= y then x else y
  }

  /** How many of `r` waiting students take one of `cap` free seats. */
  function Take(r: int, cap: int): int {
    if r <= 0 || cap == 0 then 0 else Min(r, cap)
  }

  /** The loads the origins i, i+1, ... put into a cab with `cap` free seats. */
  function Fill(rem: seq<int>, i: nat, cap: int): (load: seq<int>)
    requires i <= |rem|
    ensures |load| == |rem| - i
    decreases |rem| - i
  {
    if i == |rem| then []
    else
      var t := Take(rem[i], cap);
      [t] + Fill(rem, i + 1, cap - t)
  }

  /** The load of one cab filled from `rem`: `cab_load.get(i, 0)` per origin. */
  function CabLoad(rem: seq<int>): (load: seq<int>)
    ensures |load| == |rem|
  {
    Fill(rem, 0, Capacity)
  }

  lemma {:induction false} SumCons(x: int, xs: seq<int>)
    ensures Sum([x] + xs) == x + Sum(xs)
  {
    if xs != [] {
      var n := |xs| - 1;
      assert ([x] + xs)[..|xs|] == [x] + xs[..n];
      SumCons(x, xs[..n]);
    } else {
      assert [x] + xs == [x];
    }
  }

  /** Each origin gives between none and all of its waiting students. */
  lemma {:induction false} FillBounded(rem: seq<int>, i: nat, cap: int, k: nat)
    requires i + k < |rem| && 0 <= cap
    ensures 0 <= Fill(rem, i, cap)[k] <= Max(rem[i + k], 0)
    decreases k
  {
    if k > 0 {
      FillBounded(rem, i + 1, cap - Take(rem[i], cap), k - 1);
    }
  }

  /** A cab takes as many students as are waiting, up to its free seats. */
  lemma {:induction false} FillTotal(rem: seq<int>, i: nat, cap: int)
    requires i <= |rem| && NonNegative(rem) && 0 <= cap
    ensures Sum(Fill(rem, i, cap)) == Min(Sum(rem[i..]), cap)
    decreases |rem| - i
  {
    if i == |rem| {
      assert rem[i..] == [];
    } else {
      var t := Take(rem[i], cap);
      FillTotal(rem, i + 1, cap - t);
      SumCons(t, Fill(rem, i + 1, cap - t));
      assert rem[i..] == [rem[i]] + rem[i + 1..];
      SumCons(rem[i], rem[i + 1..]);
      SumNonNegativeSuffix(rem, i + 1);
    }
  }

  lemma SumNonNegativeSuffix(rem: seq<int>, i: nat)
    requires i <= |rem| && NonNegative(rem)
    ensures Sum(rem[i..]) >= 0
  {
    SumNonNegative(rem[i..]);
  }

  lemma CabLoadBounded(rem: seq<int>, i: nat)
    requires i < |rem|
    ensures 0 <= CabLoad(rem)[i] <= Max(rem[i], 0)
  {
    FillBounded(rem, 0, Capacity, i);
  }

  lemma CabLoadTotal(rem: seq<int>)
    requires NonNegative(rem)
    ensures Sum(CabLoad(rem)) == Min(Sum(rem), Capacity)
  {
    FillTotal(rem, 0, Capacity);
    assert rem[0..] == rem;
  }

  predicate NonNegative(xs: seq<int>) {
    forall i :: 0 <= i < |xs| ==> xs[i] >= 0
  }

  function Sub(xs: seq<int>, ys: seq<int>): (d: seq<int>)
    requires |xs| == |ys|
    ensures |d| == |xs| && forall i :: 0 <= i < |xs| ==> d[i] == xs[i] - ys[i]
  {
    seq(|xs|, i requires 0 <= i < |xs| => xs[i] - ys[i])
  }

  /** `remaining` after k cabs have been filled. */
  function RemAfter(rem: seq<int>, k: nat): (r: seq<int>)
    ensures |r| == |rem|
  {
    if k == 0 then rem
    else
      var prev := RemAfter(rem, k - 1);
      Sub(prev, CabLoad(prev))
  }

  lemma {:induction false} SumSub(xs: seq<int>, ys: seq<int>)
    requires |xs| == |ys|
    ensures Sum(Sub(xs, ys)) == Sum(xs) - Sum(ys)
  {
    if xs != [] {
      var n := |xs| - 1;
      SumSub(xs[..n], ys[..n]);
      assert Sub(xs, ys)[..n] == Sub(xs[..n], ys[..n]);
    }
  }

  lemma {:induction false} SumPrefixSnoc(xs: seq<int>, n: nat)
    requires n < |xs|
    ensures Sum(xs[..n + 1]) == Sum(xs[..n]) + xs[n]
  {
    assert xs[..n + 1] == xs[..n] + [xs[n]];
    SumSnoc(xs[..n], xs[n]);
  }

  /** `remaining` never goes negative, and after k cabs Σ remaining has dropped
      by seven per cab, down to zero. */
  lemma {:induction false} RemAfterShrinks(rem: seq<int>, k: nat)
    requires NonNegative(rem)
    ensures NonNegative(RemAfter(rem, k))
    ensures Sum(RemAfter(rem, k)) == Max(Sum(rem) - Capacity * k, 0)
  {
    if k > 0 {
      RemAfterShrinks(rem, k - 1);
      var prev := RemAfter(rem, k - 1);
      CabLoadTotal(prev);
      SumSub(prev, CabLoad(prev));
      var next := Sub(prev, CabLoad(prev));
      assert RemAfter(rem, k) == next;
      forall i | 0 <= i < |prev|
        ensures next[i] >= 0
      {
        CabLoadBounded(prev, i);
      }
      assert Sum(next) == Sum(prev) - Min(Sum(prev), Capacity);
      var before := Capacity * (k - 1);
      assert Capacity * k == before + Capacity;
      assert Sum(prev) == Max(Sum(rem) - before, 0);
    } else {
      SumNonNegative(rem);
    }
  }

  lemma {:induction false} ZeroSumOfNonNegative(xs: seq<int>, i: nat)
    requires NonNegative(xs) && Sum(xs) == 0 && i < |xs|
    ensures xs[i] == 0
  {
    var n := |xs| - 1;
    SumNonNegative(xs[..n]);
    if i < n {
      ZeroSumOfNonNegative(xs[..n], i);
    }
  }

  /** The loads of the first c cabs filled one after the other from `rem`. */
  function RegionLoads(rem: seq<int>, c: nat): (loads: seq<seq<int>>)
    ensures |loads| == c
  {
    if c == 0 then [] else RegionLoads(rem, c - 1) + [CabLoad(RemAfter(rem, c - 1))]
  }

  lemma {:induction false} RegionLoadAt(rem: seq<int>, c: nat, k: nat)
    requires k < c
    ensures RegionLoads(rem, c)[k] == CabLoad(RemAfter(rem, k))
  {
    if k < c - 1 {
      RegionLoadAt(rem, c - 1, k);
    }
  }

  /** What origin i puts in a cab with this load (`cab_load.get(i, 0)`). */
  function At(load: seq<int>, i: nat): int {
    if i < |load| then load[i] else 0
  }

  /** Σ over the cabs of `loads` of what origin i puts in each. */
  function LoadSum(loads: seq<seq<int>>, i: nat): int {
    if loads == [] then 0
    else
      var n := |loads| - 1;
      LoadSum(loads[..n], i) + At(loads[n], i)
  }

  lemma {:induction false} LoadSumRemoves(rem: seq<int>, c: nat, i: nat)
    requires i < |rem|
    ensures LoadSum(RegionLoads(rem, c), i) == rem[i] - RemAfter(rem, c)[i]
  {
    if c > 0 {
      LoadSumRemoves(rem, c - 1, i);
      assert RegionLoads(rem, c)[..c - 1] == RegionLoads(rem, c - 1);
    }
  }

  /** When the c cabs of a region have room for everybody assigned to it, the
      loads of origin i across those cabs add up to exactly the students of i. */
  lemma PackingDeliversAll(rem: seq<int>, c: nat, i: nat)
    requires NonNegative(rem) && Sum(rem) <= Capacity * c && i < |rem|
    ensures LoadSum(RegionLoads(rem, c), i) == rem[i]
  {
    RemAfterShrinks(rem, c);
    ZeroSumOfNonNegative(RemAfter(rem, c), i);
    LoadSumRemoves(rem, c, i);
  }

  /** Under the model's column equation Σ + r = 7c with r in 0..6, the first c - 1
      cabs leave full and the last carries 7 - r students. */
  lemma CabOccupancy(rem: seq<int>, c: nat, r: int, k: nat)
    requires NonNegative(rem) && 0 <= r < Capacity && Sum(rem) + r == Capacity * c && k < c
    ensures Sum(RegionLoads(rem, c)[k]) == if k < c - 1 then Capacity else Capacity - r
  {
    RegionLoadAt(rem, c, k);
    RemAfterShrinks(rem, k);
    CabLoadTotal(RemAfter(rem, k));
    assert Capacity * c == Capacity * k + Capacity * (c - k);
  }

  // ---------------------------------------------------------------------
  // The verdict
  // ---------------------------------------------------------------------

  /** `origin_regions`: the origins with a positive load, in ascending order. */
  function Origins(load: seq<int>): (o: seq<nat>)
    ensures |o| <= |load|
  {
    if load == [] then []
    else
      var n := |load| - 1;
      Origins(load[..n]) + (if load[n] > 0 then [n] else [])
  }

  /** `origin_regions` lists exactly the origins with a positive load, each once,
      in ascending order. */
  lemma {:induction false} OriginsMeaning(load: seq<int>)
    ensures forall k :: 0 <= k < |Origins(load)| ==> Origins(load)[k] < |load| && load[Origins(load)[k]] > 0
    ensures forall i :: 0 <= i < |load| && load[i] > 0 ==> i in Origins(load)
    ensures forall k, m :: 0 <= k < m < |Origins(load)| ==> Origins(load)[k] < Origins(load)[m]
  {
    if load != [] {
      var n := |load| - 1;
      OriginsMeaning(load[..n]);
      var o := Origins(load[..n]);
      assert forall k :: 0 <= k < |o| ==> load[..n][o[k]] == load[o[k]];
    }
  }

  function Kind(load: seq<int>, j: nat): CabKind {
    var o := Origins(load);
    if |o| == 1 && o[0] == j then Direct
    else if |o| == 0 then Empty
    else Mixed
  }

  /** Direct iff its only boarding origin is the cab's own region; Empty iff
      nobody boards; Mixed otherwise. */
  lemma KindMeaning(load: seq<int>, j: nat)
    requires j < |load|
    ensures Kind(load, j) == Direct <==> load[j] > 0 && forall i :: 0 <= i < |load| && i != j ==> load[i] <= 0
    ensures Kind(load, j) == Empty <==> forall i :: 0 <= i < |load| ==> load[i] <= 0
  {
    var o := Origins(load);
    OriginsMeaning(load);
    assert |o| > 1 ==> o[0] < o[1] && load[o[0]] > 0 && load[o[1]] > 0;
    if |o| > 0 {
      assert load[o[0]] > 0;
    }
  }

  /** The line printed for a cab: `used = sum(cab_load.values())` and its verdict. */
  function Describe(cab: Cab): CabLine {
    CabLine(cab, Sum(cab.load), Kind(cab.load, cab.region))
  }

  /** `lines` are the printed lines of `cabs`, one per cab, in order. */
  predicate Describes(lines: seq<CabLine>, cabs: seq<Cab>) {
    |lines| == |cabs| && forall k :: 0 <= k < |cabs| ==> lines[k] == Describe(cabs[k])
  }

  lemma DescribesAppend(lines: seq<CabLine>, cabs: seq<Cab>, more: seq<CabLine>, extra: seq<Cab>)
    requires Describes(lines, cabs) && Describes(more, extra)
    ensures Describes(lines + more, cabs + extra)
  {
    forall k | 0 <= k < |cabs + extra|
      ensures (lines + more)[k] == Describe((cabs + extra)[k])
    {
      if k >= |cabs| {
        assert (lines + more)[k] == more[k - |cabs|];
      }
    }
  }

  // ---------------------------------------------------------------------
  // The whole plan
  // ---------------------------------------------------------------------

  /** `{i: assignments[i][j] for i in range(7)}` */
  function Column(a: seq<seq<int>>, j: nat): (col: seq<int>)
    requires IsMatrix(a) && j < Regions
    ensures |col| == Regions && forall i :: 0 <= i < Regions ==> col[i] == a[i][j]
  {
    seq(Regions, i requires 0 <= i < Regions => a[i][j])
  }

  /** `range(cabs_here)` runs no iteration for a negative count. */
  function CabsOf(y: seq<int>, j: nat): nat
    requires j < |y|
  {
    if y[j] <= 0 then 0 else y[j]
  }

  /** Per region j, the loads of its cabs in the order they are filled. */
  function AllLoads(a: seq<seq<int>>, y: seq<int>): (ls: seq<seq<seq<int>>>)
    requires IsMatrix(a) && |y| == Regions
    ensures |ls| == Regions
    ensures forall j :: 0 <= j < Regions ==> ls[j] == RegionLoads(Column(a, j), CabsOf(y, j))
  {
    seq(Regions, j requires 0 <= j < Regions => RegionLoads(Column(a, j), CabsOf(y, j)))
  }

  /** The cabs of region j with the given loads, numbered from `start`. */
  function NumberCabs(loads: seq<seq<int>>, j: nat, start: nat): (cabs: seq<Cab>)
    ensures |cabs| == |loads|
  {
    if loads == [] then []
    else
      var n := |loads| - 1;
      NumberCabs(loads[..n], j, start) + [Cab(start + n, j, loads[n])]
  }

  lemma {:induction false} NumberCabAt(loads: seq<seq<int>>, j: nat, start: nat, k: nat)
    requires k < |loads|
    ensures NumberCabs(loads, j, start)[k] == Cab(start + k, j, loads[k])
  {
    var n := |loads| - 1;
    if k < n {
      NumberCabAt(loads[..n], j, start, k);
    }
  }

  /** What region j contributes to the plan when `start - 1` cabs precede it. */
  function RegionBlock(ls: seq<seq<seq<int>>>, y: seq<int>, j: nat, start: nat): seq<Cab>
    requires |ls| == |y| && j < |y|
  {
    if y[j] == 0 then [] else NumberCabs(ls[j], j, start)
  }

  /** The cabs of the first n regions, numbered 1, 2, ... across regions. */
  function PlanCabs(ls: seq<seq<seq<int>>>, y: seq<int>, n: nat): seq<Cab>
    requires |ls| == |y| && n <= |y|
  {
    if n == 0 then []
    else
      var prev := PlanCabs(ls, y, n - 1);
      prev + RegionBlock(ls, y, n - 1, |prev| + 1)
  }

  /** The headings of the first n regions: every region whose count is not 0. */
  function PlanHeadings(y: seq<int>, n: nat): seq<Heading>
    requires n <= |y|
  {
    if n == 0 then []
    else PlanHeadings(y, n - 1) + (if y[n - 1] == 0 then [] else [Heading(n - 1, y[n - 1])])
  }

  /** Every heading names a region below n whose count is not 0, with that count. */
  lemma {:induction false} HeadingsSound(y: seq<int>, n: nat)
    requires n <= |y|
    ensures forall k :: 0 <= k < |PlanHeadings(y, n)| ==>
      PlanHeadings(y, n)[k].region < n && y[PlanHeadings(y, n)[k].region] != 0 &&
      PlanHeadings(y, n)[k].cabs == y[PlanHeadings(y, n)[k].region]
  {
    if n > 0 {
      HeadingsSound(y, n - 1);
      var prev := PlanHeadings(y, n - 1);
      var hs := PlanHeadings(y, n);
      assert forall k :: 0 <= k < |prev| ==> hs[k] == prev[k];
    }
  }

  predicate HasHeading(hs: seq<Heading>, j: nat) {
    exists k :: 0 <= k < |hs| && hs[k].region == j
  }

  /** Every region below n whose count is not 0 gets a heading. */
  lemma {:induction false} HeadingsComplete(y: seq<int>, n: nat)
    requires n <= |y|
    ensures forall j :: 0 <= j < n && y[j] != 0 ==> HasHeading(PlanHeadings(y, n), j)
  {
    if n > 0 {
      HeadingsComplete(y, n - 1);
      var prev := PlanHeadings(y, n - 1);
      var hs := PlanHeadings(y, n);
      assert hs[..|prev|] == prev;
      forall j | 0 <= j < n && y[j] != 0
        ensures HasHeading(hs, j)
      {
        if j == n - 1 {
          assert hs == prev + [Heading(j, y[j])];
          assert hs[|prev|].region == j;
        } else {
          var k :| 0 <= k < |prev| && prev[k].region == j;
          assert hs[k] == prev[k];
        }
      }
    }
  }

  /** The headings come in ascending order of region, so no region is named twice. */
  lemma {:induction false} HeadingsAscending(y: seq<int>, n: nat)
    requires n <= |y|
    ensures forall k, m :: 0 <= k < m < |PlanHeadings(y, n)| ==> PlanHeadings(y, n)[k].region < PlanHeadings(y, n)[m].region
  {
    if n > 0 {
      HeadingsAscending(y, n - 1);
      HeadingsSound(y, n - 1);
      var prev := PlanHeadings(y, n - 1);
      var hs := PlanHeadings(y, n);
      assert forall k :: 0 <= k < |prev| ==> hs[k] == prev[k];
    }
  }

  /** The cabs region n - 1 adds to the plan follow on the numbering and all
      carry its number. */
  lemma PlanBlockNumbering(ls: seq<seq<seq<int>>>, y: seq<int>, n: nat, m: nat)
    requires |ls| == |y| && 0 < n <= |y|
    requires m < |RegionBlock(ls, y, n - 1, |PlanCabs(ls, y, n - 1)| + 1)|
    ensures var prev := PlanCabs(ls, y, n - 1);
      var cab := RegionBlock(ls, y, n - 1, |prev| + 1)[m];
      cab.number == |prev| + 1 + m && cab.region == n - 1
  {
    NumberCabAt(ls[n - 1], n - 1, |PlanCabs(ls, y, n - 1)| + 1, m);
  }

  /** The cabs are numbered 1..N in the order they are emitted, each within the
      regions looked at so far. */
  lemma {:induction false} PlanNumbering(ls: seq<seq<seq<int>>>, y: seq<int>, n: nat)
    requires |ls| == |y| && n <= |y|
    ensures forall k :: 0 <= k < |PlanCabs(ls, y, n)| ==> PlanCabs(ls, y, n)[k].number == k + 1 && PlanCabs(ls, y, n)[k].region < n
  {
    if n > 0 {
      PlanNumbering(ls, y, n - 1);
      var prev := PlanCabs(ls, y, n - 1);
      var block := RegionBlock(ls, y, n - 1, |prev| + 1);
      var cabs := PlanCabs(ls, y, n);
      assert cabs == prev + block;
      forall k | 0 <= k < |cabs|
        ensures cabs[k].number == k + 1 && cabs[k].region < n
      {
        if k < |prev| {
          assert cabs[k] == prev[k];
        } else {
          assert cabs[k] == block[k - |prev|];
          PlanBlockNumbering(ls, y, n, k - |prev|);
        }
      }
    }
  }

  /** Cabs listed region by region, in ascending region order. */
  predicate RegionsAscending(cabs: seq<Cab>) {
    forall k, m :: 0 <= k < m < |cabs| ==> cabs[k].region <= cabs[m].region
  }

  lemma AscendingAppend(prev: seq<Cab>, block: seq<Cab>, j: nat)
    requires RegionsAscending(prev)
    requires forall k :: 0 <= k < |prev| ==> prev[k].region <= j
    requires forall m :: 0 <= m < |block| ==> block[m].region == j
    ensures RegionsAscending(prev + block)
  {
    var cabs := prev + block;
    forall k, m | 0 <= k < m < |cabs|
      ensures cabs[k].region <= cabs[m].region
    {
      if m < |prev| {
        assert cabs[k] == prev[k] && cabs[m] == prev[m];
      } else if k < |prev| {
        assert cabs[k] == prev[k] && cabs[m] == block[m - |prev|];
      } else {
        assert cabs[k] == block[k - |prev|] && cabs[m] == block[m - |prev|];
      }
    }
  }

  lemma BlockInRegion(ls: seq<seq<seq<int>>>, y: seq<int>, n: nat, block: seq<Cab>)
    requires |ls| == |y| && 0 < n <= |y|
    requires block == RegionBlock(ls, y, n - 1, |PlanCabs(ls, y, n - 1)| + 1)
    ensures forall m :: 0 <= m < |block| ==> block[m].region == n - 1
  {
    forall m | 0 <= m < |block|
      ensures block[m].region == n - 1
    {
      PlanBlockNumbering(ls, y, n, m);
    }
  }

  /** The regions come in ascending order. */
  lemma {:induction false} PlanRegionsAscending(ls: seq<seq<seq<int>>>, y: seq<int>, n: nat)
    requires |ls| == |y| && n <= |y|
    ensures RegionsAscending(PlanCabs(ls, y, n))
  {
    if n > 0 {
      var prev := PlanCabs(ls, y, n - 1);
      var block := RegionBlock(ls, y, n - 1, |prev| + 1);
      assert RegionsAscending(prev) by {
        PlanRegionsAscending(ls, y, n - 1);
      }
      assert forall k :: 0 <= k < |prev| ==> prev[k].region <= n - 1 by {
        PlanNumbering(ls, y, n - 1);
      }
      assert forall m :: 0 <= m < |block| ==> block[m].region == n - 1 by {
        BlockInRegion(ls, y, n, block);
      }
      AscendingAppend(prev, block, n - 1);
    }
  }

  /** How many cabs of `cabs` belong to region j. */
  function CountIn(cabs: seq<Cab>, j: nat): nat {
    if cabs == [] then 0
    else CountIn(cabs[..|cabs| - 1], j) + (if cabs[|cabs| - 1].region == j then 1 else 0)
  }

  /** How many students of origin i ride the cabs of region j in `cabs`. */
  function Carried(cabs: seq<Cab>, i: nat, j: nat): int {
    if cabs == [] then 0
    else
      var last := cabs[|cabs| - 1];
      Carried(cabs[..|cabs| - 1], i, j) + (if last.region == j then At(last.load, i) else 0)
  }

  lemma {:induction false} CountAppend(xs: seq<Cab>, ys: seq<Cab>, j: nat)
    ensures CountIn(xs + ys, j) == CountIn(xs, j) + CountIn(ys, j)
  {
    if ys == [] {
      assert xs + ys == xs;
    } else {
      var n := |ys| - 1;
      assert (xs + ys)[..|xs + ys| - 1] == xs + ys[..n];
      CountAppend(xs, ys[..n], j);
    }
  }

  lemma {:induction false} CarriedAppend(xs: seq<Cab>, ys: seq<Cab>, i: nat, j: nat)
    ensures Carried(xs + ys, i, j) == Carried(xs, i, j) + Carried(ys, i, j)
  {
    if ys == [] {
      assert xs + ys == xs;
    } else {
      var n := |ys| - 1;
      assert (xs + ys)[..|xs + ys| - 1] == xs + ys[..n];
      CarriedAppend(xs, ys[..n], i, j);
    }
  }

  lemma {:induction false} NumberCabsCount(loads: seq<seq<int>>, j: nat, start: nat, j': nat)
    ensures CountIn(NumberCabs(loads, j, start), j') == if j == j' then |loads| else 0
  {
    if loads != [] {
      var n := |loads| - 1;
      NumberCabsCount(loads[..n], j, start, j');
      assert NumberCabs(loads, j, start)[..n] == NumberCabs(loads[..n], j, start);
    }
  }

  lemma {:induction false} NumberCabsCarried(loads: seq<seq<int>>, j: nat, start: nat, i: nat, j': nat)
    ensures Carried(NumberCabs(loads, j, start), i, j') == if j == j' then LoadSum(loads, i) else 0
  {
    if loads != [] {
      var n := |loads| - 1;
      NumberCabsCarried(loads[..n], j, start, i, j');
      assert NumberCabs(loads, j, start)[..n] == NumberCabs(loads[..n], j, start);
    }
  }

  lemma PlanStartsEmpty(ls: seq<seq<seq<int>>>, y: seq<int>, n: nat)
    requires |ls| == |y| && n <= |y|
    ensures n == 0 ==> PlanCabs(ls, y, n) == []
  {
  }

  lemma PlanCountStep(ls: seq<seq<seq<int>>>, y: seq<int>, n: nat, j: nat)
    requires |ls| == |y| && 0 < n <= |y|
    ensures CountIn(PlanCabs(ls, y, n), j) ==
      CountIn(PlanCabs(ls, y, n - 1), j) + CountIn(RegionBlock(ls, y, n - 1, |PlanCabs(ls, y, n - 1)| + 1), j)
  {
    var prev := PlanCabs(ls, y, n - 1);
    CountAppend(prev, RegionBlock(ls, y, n - 1, |prev| + 1), j);
  }

  lemma BlockCount(ls: seq<seq<seq<int>>>, y: seq<int>, n: nat, start: nat, j: nat)
    requires |ls| == |y| && 0 < n <= |y|
    ensures CountIn(RegionBlock(ls, y, n - 1, start), j) == if y[n - 1] != 0 && j == n - 1 then |ls[j]| else 0
  {
    if y[n - 1] != 0 {
      NumberCabsCount(ls[n - 1], n - 1, start, j);
    }
  }

  lemma PlanCountGrows(ls: seq<seq<seq<int>>>, y: seq<int>, n: nat, j: nat)
    requires |ls| == |y| && 0 < n <= |y| && j < |y|
    requires CountIn(PlanCabs(ls, y, n - 1), j) == if j < n - 1 && y[j] != 0 then |ls[j]| else 0
    ensures CountIn(PlanCabs(ls, y, n), j) == if j < n && y[j] != 0 then |ls[j]| else 0
  {
    PlanCountStep(ls, y, n, j);
    BlockCount(ls, y, n, |PlanCabs(ls, y, n - 1)| + 1, j);
  }

  /** Region j gets one cab per load in ls[j], none when its count is 0. */
  lemma {:induction false} PlanCount(ls: seq<seq<seq<int>>>, y: seq<int>, n: nat, j: nat)
    requires |ls| == |y| && n <= |y| && j < |y|
    ensures CountIn(PlanCabs(ls, y, n), j) == if j < n && y[j] != 0 then |ls[j]| else 0
  {
    if n > 0 {
      PlanCount(ls, y, n - 1, j);
      PlanCountGrows(ls, y, n, j);
    } else {
      assert PlanCabs(ls, y, n) == [];
    }
  }

  lemma PlanCarriedStep(ls: seq<seq<seq<int>>>, y: seq<int>, n: nat, i: nat, j: nat)
    requires |ls| == |y| && 0 < n <= |y|
    ensures Carried(PlanCabs(ls, y, n), i, j) ==
      Carried(PlanCabs(ls, y, n - 1), i, j) + Carried(RegionBlock(ls, y, n - 1, |PlanCabs(ls, y, n - 1)| + 1), i, j)
  {
    var prev := PlanCabs(ls, y, n - 1);
    CarriedAppend(prev, RegionBlock(ls, y, n - 1, |prev| + 1), i, j);
  }

  lemma BlockCarried(ls: seq<seq<seq<int>>>, y: seq<int>, n: nat, start: nat, i: nat, j: nat)
    requires |ls| == |y| && 0 < n <= |y|
    ensures Carried(RegionBlock(ls, y, n - 1, start), i, j) == if y[n - 1] != 0 && j == n - 1 then LoadSum(ls[j], i) else 0
  {
    if y[n - 1] != 0 {
      NumberCabsCarried(ls[n - 1], n - 1, start, i, j);
    }
  }

  lemma PlanCarriedGrows(ls: seq<seq<seq<int>>>, y: seq<int>, n: nat, i: nat, j: nat)
    requires |ls| == |y| && 0 < n <= |y| && j < |y|
    requires Carried(PlanCabs(ls, y, n - 1), i, j) == if j < n - 1 && y[j] != 0 then LoadSum(ls[j], i) else 0
    ensures Carried(PlanCabs(ls, y, n), i, j) == if j < n && y[j] != 0 then LoadSum(ls[j], i) else 0
  {
    PlanCarriedStep(ls, y, n, i, j);
    BlockCarried(ls, y, n, |PlanCabs(ls, y, n - 1)| + 1, i, j);
  }

  /** Between them, the cabs of region j carry what the loads ls[j] say. */
  lemma {:induction false} PlanCarried(ls: seq<seq<seq<int>>>, y: seq<int>, n: nat, i: nat, j: nat)
    requires |ls| == |y| && n <= |y| && j < |y|
    ensures Carried(PlanCabs(ls, y, n), i, j) == if j < n && y[j] != 0 then LoadSum(ls[j], i) else 0
  {
    if n > 0 {
      PlanCarried(ls, y, n - 1, i, j);
      PlanCarriedGrows(ls, y, n, i, j);
    } else {
      assert PlanCabs(ls, y, n) == [];
    }
  }

  /** Σ_{j < n} of the cabs region j emits. */
  function CabsBefore(ls: seq<seq<seq<int>>>, y: seq<int>, n: nat): nat
    requires |ls| == |y| && n <= |y|
  {
    if n == 0 then 0 else CabsBefore(ls, y, n - 1) + (if y[n - 1] == 0 then 0 else |ls[n - 1]|)
  }

  /** Where region j's cabs sit in the plan: right after those of the regions
      before it. */
  lemma {:induction false} PlanBlocks(ls: seq<seq<seq<int>>>, y: seq<int>, n: nat)
    requires |ls| == |y| && n <= |y|
    ensures |PlanCabs(ls, y, n)| == CabsBefore(ls, y, n)
  {
    if n > 0 {
      PlanBlocks(ls, y, n - 1);
    }
  }

  lemma {:induction false} ColumnSumIsSum(a: seq<seq<int>>, j: nat, n: nat)
    requires IsMatrix(a) && j < Regions && n <= Regions
    ensures ColumnSum(a, j, n) == Sum(Column(a, j)[..n])
  {
    if n > 0 {
      ColumnSumIsSum(a, j, n - 1);
      SumPrefixSnoc(Column(a, j), n - 1);
    }
  }

  /** A column of a plan of the model, seen as what the greedy fill starts from. */
  lemma PlanColumn(s: seq<int>, a: seq<seq<int>>, y: seq<int>, r: seq<int>, j: nat)
    requires |s| == Regions && IsCabPlan(s, a, y, r) && j < Regions
    ensures NonNegative(Column(a, j)) && Sum(Column(a, j)) + r[j] == Capacity * y[j]
    ensures CabsOf(y, j) == y[j]
  {
    var col := Column(a, j);
    ColumnSumIsSum(a, j, Regions);
    assert col[..Regions] == col;
  }

  /** For a plan of the model, the cabs of region j number exactly y[j] and carry
      exactly a[i][j] students of every origin i: every student is seated. */
  lemma PlanDeliversAssignments(s: seq<int>, a: seq<seq<int>>, y: seq<int>, r: seq<int>, i: nat, j: nat)
    requires |s| == Regions && IsCabPlan(s, a, y, r) && i < Regions && j < Regions
    ensures CountIn(PlanCabs(AllLoads(a, y), y, Regions), j) == y[j]
    ensures Carried(PlanCabs(AllLoads(a, y), y, Regions), i, j) == a[i][j]
  {
    var ls := AllLoads(a, y);
    PlanCount(ls, y, Regions, j);
    PlanCarried(ls, y, Regions, i, j);
    PlanColumn(s, a, y, r, j);
    PackingDeliversAll(Column(a, j), y[j], i);
  }

  lemma {:induction false} NonPositiveSum(xs: seq<int>)
    requires forall i :: 0 <= i < |xs| ==> xs[i] <= 0
    ensures Sum(xs) <= 0
  {
    if xs != [] {
      NonPositiveSum(xs[..|xs| - 1]);
    }
  }

  lemma PlanPrefix(ls: seq<seq<seq<int>>>, y: seq<int>, n: nat, k: nat)
    requires |ls| == |y| && 0 < n <= |y| && k < |PlanCabs(ls, y, n - 1)|
    ensures k < |PlanCabs(ls, y, n)| && PlanCabs(ls, y, n)[k] == PlanCabs(ls, y, n - 1)[k]
  {
  }

  lemma PlanBlockAt(ls: seq<seq<seq<int>>>, y: seq<int>, n: nat, k: nat)
    requires |ls| == |y| && 0 < n <= |y|
    requires |PlanCabs(ls, y, n - 1)| <= k < |PlanCabs(ls, y, n)|
    ensures y[n - 1] != 0 && k - |PlanCabs(ls, y, n - 1)| < |ls[n - 1]|
    ensures PlanCabs(ls, y, n)[k] == Cab(k + 1, n - 1, ls[n - 1][k - |PlanCabs(ls, y, n - 1)|])
  {
    var prev := PlanCabs(ls, y, n - 1);
    NumberCabAt(ls[n - 1], n - 1, |prev| + 1, k - |prev|);
  }

  /** The k-th cab of the plan belongs to a region j with cabs, sits in that
      region's stretch of the numbering, and carries the load of the
      (k - CabsBefore(j))-th cab filled for j. */
  predicate Located(ls: seq<seq<seq<int>>>, y: seq<int>, n: nat, k: nat)
    requires |ls| == |y| && n <= |y| && k < |PlanCabs(ls, y, n)|
  {
    var j := PlanCabs(ls, y, n)[k].region;
    && j < n && y[j] != 0
    && CabsBefore(ls, y, j) <= k < CabsBefore(ls, y, j + 1)
    && PlanCabs(ls, y, n)[k] == Cab(k + 1, j, ls[j][k - CabsBefore(ls, y, j)])
  }

  lemma LocatedEarlier(ls: seq<seq<seq<int>>>, y: seq<int>, n: nat, k: nat)
    requires |ls| == |y| && 0 < n <= |y| && k < |PlanCabs(ls, y, n - 1)|
    requires Located(ls, y, n - 1, k)
    ensures k < |PlanCabs(ls, y, n)| && Located(ls, y, n, k)
  {
    PlanPrefix(ls, y, n, k);
  }

  lemma LocatedInBlock(ls: seq<seq<seq<int>>>, y: seq<int>, n: nat, k: nat)
    requires |ls| == |y| && 0 < n <= |y|
    requires |PlanCabs(ls, y, n - 1)| <= k < |PlanCabs(ls, y, n)|
    ensures Located(ls, y, n, k)
  {
    var j := n - 1;
    PlanBlocks(ls, y, j);
    PlanBlockAt(ls, y, n, k);
    assert PlanCabs(ls, y, n)[k].region == j;
    assert CabsBefore(ls, y, j + 1) == CabsBefore(ls, y, j) + |ls[j]|;
  }

  lemma {:induction false} PlanCabAt(ls: seq<seq<seq<int>>>, y: seq<int>, n: nat, k: nat)
    requires |ls| == |y| && n <= |y| && k < |PlanCabs(ls, y, n)|
    ensures Located(ls, y, n, k)
  {
    PlanStartsEmpty(ls, y, n);
    if n > 0 {
      if k < |PlanCabs(ls, y, n - 1)| {
        PlanCabAt(ls, y, n - 1, k);
        LocatedEarlier(ls, y, n, k);
      } else {
        LocatedInBlock(ls, y, n, k);
      }
    }
  }

  /** For a plan of the model every cab but the last of its region leaves full,
      the last carries 7 - r[j], and so no cab is ever empty: the "Empty cab"
      verdict is never printed. */
  lemma PlanOccupancy(s: seq<int>, a: seq<seq<int>>, y: seq<int>, r: seq<int>, k: nat)
    requires |s| == Regions && IsCabPlan(s, a, y, r)
    requires k < |PlanCabs(AllLoads(a, y), y, Regions)|
    ensures var line := Describe(PlanCabs(AllLoads(a, y), y, Regions)[k]);
      && line.cab.region < Regions
      && line.used == (if line.cab.number < CabsBefore(AllLoads(a, y), y, line.cab.region + 1) then Capacity else Capacity - r[line.cab.region])
      && line.used >= 1
      && line.kind != Empty
  {
    var ls := AllLoads(a, y);
    PlanCabAt(ls, y, Regions, k);
    var j := PlanCabs(ls, y, Regions)[k].region;
    var m := k - CabsBefore(ls, y, j);
    PlanColumn(s, a, y, r, j);
    CabOccupancy(Column(a, j), y[j], r[j], m);
    RegionLoadAt(Column(a, j), y[j], m);
    var load := ls[j][m];
    KindMeaning(load, j);
    if forall i :: 0 <= i < |load| ==> load[i] <= 0 {
      NonPositiveSum(load);
    }
  }

  // ---------------------------------------------------------------------
  // build_cab_plan_block, step by step
  // ---------------------------------------------------------------------

  /** The state of the inner loop after the origins 0..i-1: `load` holds what
      they put in the cab, `left` what remains of them, and `cap` free seats. */
  predicate Filling(remaining: seq<int>, i: nat, cap: int, load: seq<int>, left: seq<int>) {
    && i <= |remaining| && |load| == i && |left| == |remaining|
    && load + Fill(remaining, i, cap) == CabLoad(remaining)
    && (forall k :: 0 <= k < i ==> left[k] == remaining[k] - load[k])
    && (forall k :: i <= k < |remaining| ==> left[k] == remaining[k])
  }

  lemma FillingStep(remaining: seq<int>, i: nat, cap: int, load: seq<int>, left: seq<int>)
    requires Filling(remaining, i, cap, load, left) && i < |remaining|
    ensures var take := Take(remaining[i], cap);
      Filling(remaining, i + 1, cap - take, load + [take], left[i := left[i] - take])
  {
    var take := Take(remaining[i], cap);
    assert load + Fill(remaining, i, cap) == (load + [take]) + Fill(remaining, i + 1, cap - take);
  }

  lemma FillingDone(remaining: seq<int>, cap: int, load: seq<int>, left: seq<int>)
    requires Filling(remaining, |remaining|, cap, load, left)
    ensures load == CabLoad(remaining) && left == Sub(remaining, load)
  {
  }

  /** The inner `for i in range(7)` loop: fills one cab from `remaining` and
      takes its students out of `remaining`. */
  method FillCab(remaining: seq<int>) returns (load: seq<int>, left: seq<int>)
    ensures load == CabLoad(remaining)
    ensures left == Sub(remaining, load)
  {
    var cabCap := Capacity as int;
    load := [];
    left := remaining;
    for i := 0 to |remaining|
      invariant Filling(remaining, i, cabCap, load, left)
    {
      var take := 0;
      if !(left[i] <= 0 || cabCap == 0) {
        take := Min(left[i], cabCap);
      }
      FillingStep(remaining, i, cabCap, load, left);
      load := load + [take];
      left := left[i := left[i] - take];
      cabCap := cabCap - take;
    }
    FillingDone(remaining, cabCap, load, left);
  }

  /** The verdict of one cab, from the list of origins that board it. */
  method Classify(load: seq<int>, j: nat) returns (kind: CabKind)
    requires j < |load|
    ensures kind == Direct <==> load[j] > 0 && forall i :: 0 <= i < |load| && i != j ==> load[i] <= 0
    ensures kind == Empty <==> forall i :: 0 <= i < |load| ==> load[i] <= 0
    ensures kind == Kind(load, j)
  {
    var origins := Origins(load);
    if |origins| == 1 && origins[0] == j {
      kind := Direct;
    } else if |origins| == 0 {
      kind := Empty;
    } else {
      kind := Mixed;
    }
    KindMeaning(load, j);
  }

  lemma PackStep(column: seq<int>, j: nat, start: nat, k: nat)
    ensures NumberCabs(RegionLoads(column, k + 1), j, start) ==
      NumberCabs(RegionLoads(column, k), j, start) + [Cab(start + k, j, CabLoad(RemAfter(column, k)))]
  {
    assert RegionLoads(column, k + 1)[..k] == RegionLoads(column, k);
  }

  /** The state of a region's loop after k cabs. */
  predicate Packing(column: seq<int>, j: nat, start: nat, k: nat, remaining: seq<int>, cabs: seq<Cab>, lines: seq<CabLine>) {
    && remaining == RemAfter(column, k)
    && cabs == NumberCabs(RegionLoads(column, k), j, start)
    && Describes(lines, cabs)
  }

  lemma PackingStep(column: seq<int>, j: nat, start: nat, k: nat, remaining: seq<int>, cabs: seq<Cab>, lines: seq<CabLine>)
    requires Packing(column, j, start, k, remaining, cabs, lines) && j < |column|
    ensures var load := CabLoad(remaining);
      var cab := Cab(start + k, j, load);
      Packing(column, j, start, k + 1, Sub(remaining, load), cabs + [cab], lines + [CabLine(cab, Sum(load), Kind(load, j))])
  {
    var load := CabLoad(remaining);
    var cab := Cab(start + k, j, load);
    PackStep(column, j, start, k);
    DescribesAppend(lines, cabs, [CabLine(cab, Sum(load), Kind(load, j))], [cab]);
  }

  /** The `for _ in range(cabs_here)` loop of one region. */
  method PackRegion(column: seq<int>, j: nat, count: nat, start: nat) returns (cabs: seq<Cab>, lines: seq<CabLine>)
    requires j < |column|
    ensures cabs == NumberCabs(RegionLoads(column, count), j, start)
    ensures Describes(lines, cabs)
  {
    var remaining := column;
    cabs := [];
    lines := [];
    for k := 0 to count
      invariant Packing(column, j, start, k, remaining, cabs, lines)
    {
      var load, left := FillCab(remaining);
      var kind := Classify(load, j);
      PackingStep(column, j, start, k, remaining, cabs, lines);
      var cab := Cab(start + k, j, load);
      cabs := cabs + [cab];
      lines := lines + [CabLine(cab, Sum(load), kind)];
      remaining := left;
    }
  }

  /** `build_cab_plan_block`: the regions in ascending order, skipping those with
      no cab, with a running cab number. */
  method BuildCabPlan(a: seq<seq<int>>, y: seq<int>) returns (headings: seq<Heading>, cabs: seq<Cab>, lines: seq<CabLine>)
    requires IsMatrix(a) && |y| == Regions
    ensures headings == PlanHeadings(y, Regions)
    ensures cabs == PlanCabs(AllLoads(a, y), y, Regions)
    ensures Describes(lines, cabs)
  {
    headings := [];
    cabs := [];
    lines := [];
    var globalCabIdx := 1;
    for j := 0 to Regions
      invariant headings == PlanHeadings(y, j)
      invariant cabs == PlanCabs(AllLoads(a, y), y, j)
      invariant globalCabIdx == |cabs| + 1
      invariant Describes(lines, cabs)
    {
      var cabsHere := y[j];
      if cabsHere == 0 {
        continue;
      }
      headings := headings + [Heading(j, cabsHere)];
      var column := seq(Regions, i requires 0 <= i < Regions => a[i][j]);
      assert column == Column(a, j);
      var block, blockLines := PackRegion(column, j, CabsOf(y, j), globalCabIdx);
      DescribesAppend(lines, cabs, blockLines, block);
      cabs := cabs + block;
      lines := lines + blockLines;
      globalCabIdx := globalCabIdx + |block|;
    }
  }
}
