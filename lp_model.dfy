/** The linear program the backend hands to `javascript-lp-solver`
    (`solveCabAllocation` in cabSolver.ts and its original, `solveCabAllocationJS`
    in solved.js, build it with the same code), the formatting of the solver's
    answer, and what both mean as a cab plan. The solver itself is an oracle: its
    answer is a parameter constrained by `LpSolverContract`. */
module LpModel {
  import opened CabModel

  // ---------------------------------------------------------------------
  // The model object as data
  // ---------------------------------------------------------------------

  /** The named rows of the model: `totalCost` (the objective), `demand_r{i}`
      and `supply_c{j}`. */
  datatype Attr = TotalCost | DemandRow(i: nat) | SupplyRow(j: nat)

  /** `{ equal: v }` and `{ min: v }`. */
  datatype Bound = Equal(value: int) | AtLeast(value: int)

  /** One entry of `model.variables`: the variable (`x_i_j` is `X(i, j)`,
      `y_j` is `Y(j)`) and its coefficient in each row it names. */
  datatype Column = Column(name: Var, coef: map<Attr, int>)

  /** `model.constraints`, `model.variables` in insertion order, and the names
      in `model.ints`; the model always minimises `totalCost`. */
  datatype Lp = Lp(constraints: map<Attr, Bound>, variables: seq<Column>, ints: set<Var>)

  /** `x_i_j`: costs w(i, j), counts once toward origin i's demand and takes one
      seat of region j's supply. */
  function XColumn(i: nat, j: nat): Column {
    Column(X(i, j), map[TotalCost := Weight(i, j), DemandRow(i) := 1, SupplyRow(j) := -1])
  }

  /** `y_j`: costs 100 and adds seven seats to region j's supply. */
  function YColumn(j: nat): Column {
    Column(Y(j), map[TotalCost := VehicleCost, SupplyRow(j) := Capacity])
  }

  /** `x_r_0 … x_r_{m-1}` */
  function XRow(r: nat, m: nat): (cols: seq<Column>)
    ensures |cols| == m
  {
    seq(m, c requires 0 <= c < m => XColumn(r, c))
  }

  /** Rows 0 … n-1 of x variables, each w wide, in the order of the nested loops. */
  function XRows(n: nat, w: nat): seq<Column> {
    if n == 0 then [] else XRows(n - 1, w) + XRow(n - 1, w)
  }

  /** `y_0 … y_{n-1}` */
  function YColumns(n: nat): (cols: seq<Column>)
    ensures |cols| == n
  {
    seq(n, j requires 0 <= j < n => YColumn(j))
  }

  lemma XRowSnoc(r: nat, m: nat)
    ensures XRow(r, m + 1) == XRow(r, m) + [XColumn(r, m)]
  {
  }

  lemma YColumnsSnoc(n: nat)
    ensures YColumns(n + 1) == YColumns(n) + [YColumn(n)]
  {
  }

  /** `demand_r{i} = { equal: studentsPerRegion[i] }` for i < n. */
  function DemandBounds(s: seq<int>, n: nat): map<Attr, Bound>
    requires n <= |s|
  {
    if n == 0 then map[] else DemandBounds(s, n - 1)[DemandRow(n - 1) := Equal(s[n - 1])]
  }

  /** `supply_c{j} = { min: 0 }` for j < n, added to the constraints in `base`. */
  function SupplyBounds(base: map<Attr, Bound>, n: nat): map<Attr, Bound> {
    if n == 0 then base else SupplyBounds(base, n - 1)[SupplyRow(n - 1) := AtLeast(0)]
  }

  function Names(cols: seq<Column>): set<Var> {
    set k | 0 <= k < |cols| :: cols[k].name
  }

  /** `model.variables` for n regions: the x variables row by row, then the y's. */
  function LpVariables(n: nat): seq<Column> {
    XRows(n, n) + YColumns(n)
  }

  /** `model.constraints`: the demand rows, then the supply rows. */
  function LpConstraints(s: seq<int>): map<Attr, Bound> {
    SupplyBounds(DemandBounds(s, |s|), |s|)
  }

  /** The model built for a vector of seven counts; every variable is integer. */
  function LpOf(s: seq<int>): Lp
    requires |s| == Regions
  {
    Lp(LpConstraints(s), LpVariables(|s|), Names(LpVariables(|s|)))
  }

  lemma NamesSnoc(cols: seq<Column>, c: Column)
    ensures Names(cols + [c]) == Names(cols) + {c.name}
  {
    var both := cols + [c];
    assert both[|cols|] == c;
    forall v | v in Names(cols)
      ensures v in Names(both)
    {
      var k :| 0 <= k < |cols| && cols[k].name == v;
      assert both[k] == cols[k];
    }
  }

  // ---------------------------------------------------------------------
  // Building the model (the three loops)
  // ---------------------------------------------------------------------

  /** Add one column to `model.variables` and its name to `model.ints`. */
  method AddVariable(variables: seq<Column>, ints: set<Var>, c: Column) returns (variables': seq<Column>, ints': set<Var>)
    requires ints == Names(variables)
    ensures variables' == variables + [c] && ints' == Names(variables')
  {
    NamesSnoc(variables, c);
    variables' := variables + [c];
    ints' := ints + {c.name};
  }

  /** The demand loop, the nested x loop (with w(i, j) computed inline), and the
      supply loop that adds each `y_j` with its `supply_c{j}` row. */
  method BuildLp(s: seq<int>) returns (lp: Lp)
    requires |s| == Regions
    ensures lp == LpOf(s)
  {
    var constraints: map<Attr, Bound> := map[];
    var variables: seq<Column> := [];
    var ints: set<Var> := {};
    for i := 0 to Regions
      invariant constraints == DemandBounds(s, i)
    {
      constraints := constraints[DemandRow(i) := Equal(s[i])];
    }
    for i := 0 to Regions
      invariant variables == XRows(i, |s|) && ints == Names(variables)
    {
      for j := 0 to Regions
        invariant variables == XRows(i, |s|) + XRow(i, j) && ints == Names(variables)
      {
        var w := 0;
        if j > i {
          w := Alpha * (j - i);
        } else if i > j {
          w := Beta * (i - j);
        }
        variables, ints := AddVariable(variables, ints, Column(X(i, j), map[TotalCost := w, DemandRow(i) := 1, SupplyRow(j) := -1]));
      }
    }
    for j := 0 to Regions
      invariant variables == XRows(|s|, |s|) + YColumns(j) && ints == Names(variables)
      invariant constraints == SupplyBounds(DemandBounds(s, |s|), j)
    {
      variables, ints := AddVariable(variables, ints, YColumn(j));
      constraints := constraints[SupplyRow(j) := AtLeast(0)];
    }
    lp := Lp(constraints, variables, ints);
  }

  // ---------------------------------------------------------------------
  // What the model means
  // ---------------------------------------------------------------------

  function Coef(c: Column, a: Attr): int {
    if a in c.coef then c.coef[a] else 0
  }

  /** The value of row a: Σ over the variables of coefficient · value. */
  function Lhs(cols: seq<Column>, a: Attr, val: Values): int {
    if cols == [] then 0
    else Lhs(cols[..|cols| - 1], a, val) + Coef(cols[|cols| - 1], a) * val(cols[|cols| - 1].name)
  }

  predicate Meets(lhs: int, b: Bound) {
    match b
    case Equal(v) => lhs == v
    case AtLeast(v) => lhs >= v
  }

  /** Every variable non-negative (the solver's standard form) and every row within
      its bound. */
  predicate LpSatisfies(lp: Lp, val: Values) {
    && (forall c :: c in lp.variables ==> val(c.name) >= 0)
    && (forall a :: a in lp.constraints ==> Meets(Lhs(lp.variables, a, val), lp.constraints[a]))
  }

  function LpObjective(lp: Lp, val: Values): int {
    Lhs(lp.variables, TotalCost, val)
  }

  /** A plan the LP accepts: every student assigned (row sums), and at most seven
      students per cab in each region (`supply_c{j} ≥ 0`); unlike the dashboard's
      model, a region may have whole cabs to spare. */
  predicate IsLpPlan(s: seq<int>, a: seq<seq<int>>, y: seq<int>)
    requires |s| == Regions
  {
    && IsMatrix(a) && |y| == Regions
    && (forall i, j :: 0 <= i < Regions && 0 <= j < Regions ==> a[i][j] >= 0)
    && (forall j :: 0 <= j < Regions ==> y[j] >= 0)
    && (forall i :: 0 <= i < Regions ==> Sum(a[i]) == s[i])
    && (forall j :: 0 <= j < Regions ==> ColumnSum(a, j, Regions) <= Capacity * y[j])
  }

  lemma {:induction false} LhsAppend(us: seq<Column>, ws: seq<Column>, a: Attr, val: Values)
    ensures Lhs(us + ws, a, val) == Lhs(us, a, val) + Lhs(ws, a, val)
  {
    if ws == [] {
      assert us + ws == us;
    } else {
      assert (us + ws)[..|us + ws| - 1] == us + ws[..|ws| - 1];
      LhsAppend(us, ws[..|ws| - 1], a, val);
    }
  }

  lemma LhsSnoc(cols: seq<Column>, c: Column, a: Attr, val: Values)
    ensures Lhs(cols + [c], a, val) == Lhs(cols, a, val) + Coef(c, a) * val(c.name)
  {
    assert (cols + [c])[..|cols|] == cols;
  }

  /** The coefficients of `x_i_j` and `y_j` in each row. */
  lemma XCoef(i: nat, j: nat, a: Attr)
    ensures Coef(XColumn(i, j), a) ==
      match a
      case TotalCost => Weight(i, j)
      case DemandRow(k) => if k == i then 1 else 0
      case SupplyRow(k) => if k == j then -1 else 0
  {
  }

  lemma YCoef(j: nat, a: Attr)
    ensures Coef(YColumn(j), a) ==
      match a
      case TotalCost => VehicleCost as int
      case DemandRow(_) => 0
      case SupplyRow(k) => if k == j then Capacity as int else 0
  {
  }

  /** Row r of x variables on demand row i: row i's sum so far, or nothing. */
  lemma {:induction false} XRowDemand(r: nat, m: nat, i: nat, val: Values)
    requires r < Regions && m <= Regions && i < Regions
    ensures Lhs(XRow(r, m), DemandRow(i), val) == (if i == r then Sum(Matrix(val)[r][..m]) else 0)
  {
    if m > 0 {
      XRowDemand(r, m - 1, i, val);
      XCoef(r, m - 1, DemandRow(i));
      XRowSnoc(r, m - 1);
      LhsSnoc(XRow(r, m - 1), XColumn(r, m - 1), DemandRow(i), val);
      var row := Matrix(val)[r];
      assert row[..m][..m - 1] == row[..m - 1];
    }
  }

  /** Row r of x variables on supply row j: minus cell (r, j), once it is there. */
  lemma {:induction false} XRowSupply(r: nat, m: nat, j: nat, val: Values)
    requires r < Regions && m <= Regions && j < Regions
    ensures Lhs(XRow(r, m), SupplyRow(j), val) == (if j < m then -Matrix(val)[r][j] else 0)
  {
    if m > 0 {
      XRowSupply(r, m - 1, j, val);
      XCoef(r, m - 1, SupplyRow(j));
      XRowSnoc(r, m - 1);
      LhsSnoc(XRow(r, m - 1), XColumn(r, m - 1), SupplyRow(j), val);
    }
  }

  /** Σ_{c < m} w(r, c)·a[r][c] */
  function RowCost(a: seq<seq<int>>, r: nat, m: nat): int
    requires IsMatrix(a) && r < Regions && m <= Regions
  {
    if m == 0 then 0 else RowCost(a, r, m - 1) + Weight(r, m - 1) * a[r][m - 1]
  }

  /** Σ_{r < n} RowCost(a, r, 7) */
  function RowsCost(a: seq<seq<int>>, n: nat): int
    requires IsMatrix(a) && n <= Regions
  {
    if n == 0 then 0 else RowsCost(a, n - 1) + RowCost(a, n - 1, Regions)
  }

  lemma {:induction false} XRowCost(r: nat, m: nat, val: Values)
    requires r < Regions && m <= Regions
    ensures Lhs(XRow(r, m), TotalCost, val) == RowCost(Matrix(val), r, m)
  {
    if m > 0 {
      XRowCost(r, m - 1, val);
      XCoef(r, m - 1, TotalCost);
      XRowSnoc(r, m - 1);
      LhsSnoc(XRow(r, m - 1), XColumn(r, m - 1), TotalCost, val);
    }
  }

  /** The first n rows of x variables (w == 7 wide) on one row of the model. */
  lemma {:induction false} XRowsDemand(n: nat, w: nat, i: nat, val: Values)
    requires n <= Regions && w == Regions && i < Regions
    ensures Lhs(XRows(n, w), DemandRow(i), val) == (if i < n then Sum(Matrix(val)[i]) else 0)
  {
    if n > 0 {
      XRowsDemand(n - 1, w, i, val);
      XRowDemand(n - 1, w, i, val);
      LhsAppend(XRows(n - 1, w), XRow(n - 1, w), DemandRow(i), val);
      assert Matrix(val)[n - 1][..w] == Matrix(val)[n - 1];
    }
  }

  lemma {:induction false} XRowsSupply(n: nat, w: nat, j: nat, val: Values)
    requires n <= Regions && w == Regions && j < Regions
    ensures Lhs(XRows(n, w), SupplyRow(j), val) == -ColumnSum(Matrix(val), j, n)
  {
    if n > 0 {
      XRowsSupply(n - 1, w, j, val);
      XRowSupply(n - 1, w, j, val);
      LhsAppend(XRows(n - 1, w), XRow(n - 1, w), SupplyRow(j), val);
    }
  }

  lemma {:induction false} XRowsCost(n: nat, w: nat, val: Values)
    requires n <= Regions && w == Regions
    ensures Lhs(XRows(n, w), TotalCost, val) == RowsCost(Matrix(val), n)
  {
    if n > 0 {
      XRowsCost(n - 1, w, val);
      XRowCost(n - 1, w, val);
      LhsAppend(XRows(n - 1, w), XRow(n - 1, w), TotalCost, val);
    }
  }

  /** Summing the weighted cells row by row gives the row-major swap cost. */
  lemma {:induction false} SwapCostByRows(a: seq<seq<int>>, r: nat, c: nat)
    requires IsMatrix(a) && r < Regions && c <= Regions
    ensures SwapCost(a, 7 * r + c) == RowsCost(a, r) + RowCost(a, r, c)
  {
    if c > 0 {
      SwapCostByRows(a, r, c - 1);
      SwapCostCell(a, 7 * r + c - 1, r, c - 1);
    } else if r > 0 {
      SwapCostByRows(a, r - 1, Regions);
    }
  }

  lemma SwapCostCell(a: seq<seq<int>>, n: nat, r: nat, c: nat)
    requires IsMatrix(a) && r < Regions && c < Regions && n == 7 * r + c
    ensures SwapCost(a, n + 1) == SwapCost(a, n) + Weight(r, c) * a[r][c]
  {
    DivideBySeven(n, r, c);
  }

  lemma {:induction false} YColumnsDemand(n: nat, i: nat, val: Values)
    ensures Lhs(YColumns(n), DemandRow(i), val) == 0
  {
    if n > 0 {
      YColumnsDemand(n - 1, i, val);
      YCoef(n - 1, DemandRow(i));
      YColumnsSnoc(n - 1);
      LhsSnoc(YColumns(n - 1), YColumn(n - 1), DemandRow(i), val);
    }
  }

  lemma {:induction false} YColumnsSupply(n: nat, j: nat, val: Values)
    requires n <= Regions && j < Regions
    ensures Lhs(YColumns(n), SupplyRow(j), val) == (if j < n then Capacity * CabCounts(val)[j] else 0)
  {
    if n > 0 {
      YColumnsSupply(n - 1, j, val);
      YCoef(n - 1, SupplyRow(j));
      YColumnsSnoc(n - 1);
      LhsSnoc(YColumns(n - 1), YColumn(n - 1), SupplyRow(j), val);
    }
  }

  lemma {:induction false} YColumnsCost(n: nat, val: Values)
    requires n <= Regions
    ensures Lhs(YColumns(n), TotalCost, val) == VehicleCost * Sum(CabCounts(val)[..n])
  {
    if n > 0 {
      YColumnsCost(n - 1, val);
      YCoef(n - 1, TotalCost);
      YColumnsSnoc(n - 1);
      LhsSnoc(YColumns(n - 1), YColumn(n - 1), TotalCost, val);
      assert CabCounts(val)[..n][..n - 1] == CabCounts(val)[..n - 1];
    }
  }

  /** Demand row i of the model holds row i's sum of the read-out plan. */
  lemma DemandValue(n: nat, i: nat, val: Values)
    requires n == Regions && i < Regions
    ensures Lhs(LpVariables(n), DemandRow(i), val) == Sum(Matrix(val)[i])
  {
    LhsAppend(XRows(n, n), YColumns(n), DemandRow(i), val);
    XRowsDemand(n, n, i, val);
    YColumnsDemand(n, i, val);
  }

  /** Supply row j holds the seats of region j's cabs minus its students. */
  lemma SupplyValue(n: nat, j: nat, val: Values)
    requires n == Regions && j < Regions
    ensures Lhs(LpVariables(n), SupplyRow(j), val) == Capacity * CabCounts(val)[j] - ColumnSum(Matrix(val), j, Regions)
  {
    LhsAppend(XRows(n, n), YColumns(n), SupplyRow(j), val);
    XRowsSupply(n, n, j, val);
    YColumnsSupply(n, j, val);
  }

  /** The minimised row is the dashboard's objective, 100·Σ y + Σ w·x. */
  lemma LpObjectiveSemantics(s: seq<int>, val: Values)
    requires |s| == Regions
    ensures LpObjective(LpOf(s), val) == Objective(Matrix(val), CabCounts(val))
  {
    var n := |s|;
    var a := Matrix(val);
    LhsAppend(XRows(n, n), YColumns(n), TotalCost, val);
    XRowsCost(n, n, val);
    YColumnsCost(n, val);
    assert CabCounts(val)[..n] == CabCounts(val);
    SwapCostByRows(a, n - 1, n);
    assert RowsCost(a, n) == RowsCost(a, n - 1) + RowCost(a, n - 1, n);
  }

  /** The constraint map holds exactly the seven demand rows and the seven supply rows. */
  lemma {:induction false} DemandBoundsAt(s: seq<int>, n: nat, a: Attr)
    requires n <= |s|
    ensures a in DemandBounds(s, n) <==> a.DemandRow? && a.i < n
    ensures a in DemandBounds(s, n) ==> DemandBounds(s, n)[a] == Equal(s[a.i])
  {
    if n > 0 {
      DemandBoundsAt(s, n - 1, a);
    }
  }

  lemma {:induction false} SupplyBoundsAt(base: map<Attr, Bound>, n: nat, a: Attr)
    ensures a in SupplyBounds(base, n) <==> a in base || (a.SupplyRow? && a.j < n)
    ensures a.SupplyRow? && a.j < n ==> SupplyBounds(base, n)[a] == AtLeast(0)
    ensures !(a.SupplyRow? && a.j < n) && a in base ==> SupplyBounds(base, n)[a] == base[a]
  {
    if n > 0 {
      SupplyBoundsAt(base, n - 1, a);
    }
  }

  lemma ConstraintAt(s: seq<int>, a: Attr)
    requires |s| == Regions
    ensures a in LpConstraints(s) <==> (a.DemandRow? && a.i < Regions) || (a.SupplyRow? && a.j < Regions)
    ensures a.DemandRow? && a.i < Regions ==> LpConstraints(s)[a] == Equal(s[a.i])
    ensures a.SupplyRow? && a.j < Regions ==> LpConstraints(s)[a] == AtLeast(0)
  {
    DemandBoundsAt(s, |s|, a);
    SupplyBoundsAt(DemandBounds(s, |s|), |s|, a);
  }

  /** Every variable of the model is some x_i_j or y_j, and all of them are there. */
  lemma XRowMember(r: nat, m: nat, c: Column)
    ensures c in XRow(r, m) <==> c.name.X? && c.name.i == r && 0 <= c.name.j < m && c == XColumn(r, c.name.j)
  {
    if c.name.X? && c.name.i == r && 0 <= c.name.j < m && c == XColumn(r, c.name.j) {
      assert XRow(r, m)[c.name.j] == c;
    }
  }

  lemma {:induction false} XRowsMember(n: nat, w: nat, c: Column)
    ensures c in XRows(n, w) <==>
      c.name.X? && 0 <= c.name.i < n && 0 <= c.name.j < w && c == XColumn(c.name.i, c.name.j)
  {
    if n > 0 {
      XRowsMember(n - 1, w, c);
      XRowMember(n - 1, w, c);
    }
  }

  lemma YColumnsMember(n: nat, c: Column)
    ensures c in YColumns(n) <==> c.name.Y? && 0 <= c.name.j < n && c == YColumn(c.name.j)
  {
    if c.name.Y? && 0 <= c.name.j < n && c == YColumn(c.name.j) {
      assert YColumns(n)[c.name.j] == c;
    }
  }

  lemma VariableMember(n: nat, c: Column)
    ensures c in LpVariables(n) <==>
      (c.name.X? && 0 <= c.name.i < n && 0 <= c.name.j < n && c == XColumn(c.name.i, c.name.j))
      || (c.name.Y? && 0 <= c.name.j < n && c == YColumn(c.name.j))
  {
    XRowsMember(n, n, c);
    YColumnsMember(n, c);
  }

  /** The values are non-negative on the model's variables iff the plan they
      encode is. */
  predicate NonNegativePlan(a: seq<seq<int>>, y: seq<int>)
    requires IsMatrix(a) && |y| == Regions
  {
    && (forall i, j :: 0 <= i < Regions && 0 <= j < Regions ==> a[i][j] >= 0)
    && (forall j :: 0 <= j < Regions ==> y[j] >= 0)
  }

  lemma NonNegativeSemantics(n: nat, val: Values)
    requires n == Regions
    ensures (forall c :: c in LpVariables(n) ==> val(c.name) >= 0) <==> NonNegativePlan(Matrix(val), CabCounts(val))
  {
    if forall c :: c in LpVariables(n) ==> val(c.name) >= 0 {
      forall i, j | 0 <= i < Regions && 0 <= j < Regions
        ensures val(X(i, j)) >= 0
      {
        VariableMember(n, XColumn(i, j));
      }
      forall j | 0 <= j < Regions
        ensures val(Y(j)) >= 0
      {
        VariableMember(n, YColumn(j));
      }
    }
    if NonNegativePlan(Matrix(val), CabCounts(val)) {
      forall c | c in LpVariables(n)
        ensures val(c.name) >= 0
      {
        VariableMember(n, c);
      }
    }
  }

  /** Every row within its bound iff the read-out plan assigns every student and
      seats them in the cabs of its region. */
  predicate RowsMet(s: seq<int>, val: Values)
    requires |s| == Regions
  {
    forall r :: r in LpConstraints(s) ==> Meets(Lhs(LpVariables(|s|), r, val), LpConstraints(s)[r])
  }

  predicate Balanced(s: seq<int>, a: seq<seq<int>>, y: seq<int>)
    requires |s| == Regions && IsMatrix(a) && |y| == Regions
  {
    && (forall i :: 0 <= i < Regions ==> Sum(a[i]) == s[i])
    && (forall j :: 0 <= j < Regions ==> ColumnSum(a, j, Regions) <= Capacity * y[j])
  }

  lemma RowsSemantics(s: seq<int>, val: Values)
    requires |s| == Regions
    ensures RowsMet(s, val) <==> Balanced(s, Matrix(val), CabCounts(val))
  {
    var a, y := Matrix(val), CabCounts(val);
    if RowsMet(s, val) {
      forall i | 0 <= i < Regions
        ensures Sum(a[i]) == s[i]
      {
        ConstraintAt(s, DemandRow(i));
        DemandValue(|s|, i, val);
      }
      forall j | 0 <= j < Regions
        ensures ColumnSum(a, j, Regions) <= Capacity * y[j]
      {
        ConstraintAt(s, SupplyRow(j));
        SupplyValue(|s|, j, val);
      }
    }
    if Balanced(s, a, y) {
      forall r | r in LpConstraints(s)
        ensures Meets(Lhs(LpVariables(|s|), r, val), LpConstraints(s)[r])
      {
        ConstraintAt(s, r);
        if r.DemandRow? {
          DemandValue(|s|, r.i, val);
        } else {
          SupplyValue(|s|, r.j, val);
        }
      }
    }
  }

  /** Values satisfy the model iff the plan they encode is an LP plan. */
  lemma LpSemantics(s: seq<int>, val: Values)
    requires |s| == Regions
    ensures LpSatisfies(LpOf(s), val) <==> IsLpPlan(s, Matrix(val), CabCounts(val))
  {
    NonNegativeSemantics(|s|, val);
    RowsSemantics(s, val);
    assert LpSatisfies(LpOf(s), val) <==>
      (forall c :: c in LpVariables(|s|) ==> val(c.name) >= 0) && RowsMet(s, val);
  }

  // ---------------------------------------------------------------------
  // LP plans and the dashboard's plans
  // ---------------------------------------------------------------------

  /** `unusedSeatsPerRegion`: seven seats per cab minus the students assigned to
      the region. */
  function UnusedSeats(a: seq<seq<int>>, y: seq<int>): (u: seq<int>)
    requires IsMatrix(a) && |y| == Regions
    ensures |u| == Regions
  {
    seq(Regions, j requires 0 <= j < Regions => Capacity * y[j] - ColumnSum(a, j, Regions))
  }

  /** On an LP plan no region is short of seats. */
  lemma UnusedSeatsNonNegative(s: seq<int>, a: seq<seq<int>>, y: seq<int>)
    requires |s| == Regions && IsLpPlan(s, a, y)
    ensures forall j :: 0 <= j < Regions ==> UnusedSeats(a, y)[j] >= 0
  {
  }

  /** Every plan of the dashboard's model is an LP plan, and its vacant seats are
      the unused seats computed afterwards. */
  lemma CabPlanIsLpPlan(s: seq<int>, a: seq<seq<int>>, y: seq<int>, r: seq<int>)
    requires |s| == Regions && IsCabPlan(s, a, y, r)
    ensures IsLpPlan(s, a, y) && UnusedSeats(a, y) == r
  {
  }

  /** The converse fails: one student and two cabs in region 0 is an LP plan with
      thirteen unused seats, which no plan of the dashboard's model has. */
  lemma SpareCabIsLpPlan()
    ensures var s := [1, 0, 0, 0, 0, 0, 0];
            var a := Diagonal(s);
            var y := [2, 0, 0, 0, 0, 0, 0];
            IsLpPlan(s, a, y) && UnusedSeats(a, y)[0] == 13
            && forall r :: !IsCabPlan(s, a, y, r)
  {
    var s := [1, 0, 0, 0, 0, 0, 0];
    var a := Diagonal(s);
    var y := [2, 0, 0, 0, 0, 0, 0];
    forall i | 0 <= i < Regions
      ensures Sum(a[i]) == s[i]
    {
      OneHotSum(a[i], i, s[i]);
    }
    forall j | 0 <= j < Regions
      ensures ColumnSum(a, j, Regions) == s[j]
    {
      DiagonalColumn(s, j, Regions);
    }
  }

  /** Dropping one cab from a region with seven or more unused seats keeps an LP
      plan and saves one vehicle's cost. */
  lemma DropSpareCab(s: seq<int>, a: seq<seq<int>>, y: seq<int>, j: nat)
    requires |s| == Regions && IsLpPlan(s, a, y) && j < Regions
    requires UnusedSeats(a, y)[j] >= Capacity
    ensures IsLpPlan(s, a, y[j := y[j] - 1])
    ensures Objective(a, y[j := y[j] - 1]) == Objective(a, y) - VehicleCost
  {
    var y' := y[j := y[j] - 1];
    assert ColumnSum(a, j, Regions) >= 0 by {
      ColumnNonNegative(a, j, Regions);
    }
    SumUpdate(y, j, y[j] - 1);
  }

  lemma {:induction false} ColumnNonNegative(a: seq<seq<int>>, j: nat, n: nat)
    requires IsMatrix(a) && j < Regions && n <= Regions
    requires forall i :: 0 <= i < Regions ==> a[i][j] >= 0
    ensures ColumnSum(a, j, n) >= 0
  {
    if n > 0 {
      ColumnNonNegative(a, j, n - 1);
    }
  }

  lemma {:induction false} SumUpdate(xs: seq<int>, k: nat, v: int)
    requires k < |xs|
    ensures Sum(xs[k := v]) == Sum(xs) - xs[k] + v
  {
    var ys := xs[k := v];
    if k < |xs| - 1 {
      assert ys[..|ys| - 1] == xs[..|xs| - 1][k := v];
      SumUpdate(xs[..|xs| - 1], k, v);
    } else {
      assert ys[..|ys| - 1] == xs[..|xs| - 1];
    }
  }

  /** The column of an LP plan holds at most all the students. */
  lemma {:induction false} ColumnAtMostTotal(s: seq<int>, a: seq<seq<int>>, j: nat, n: nat)
    requires |s| == Regions && IsMatrix(a) && j < Regions && n <= Regions
    requires forall i :: 0 <= i < Regions ==> 0 <= a[i][j] <= s[i]
    ensures ColumnSum(a, j, n) <= Sum(s[..n])
  {
    if n > 0 {
      ColumnAtMostTotal(s, a, j, n - 1);
      assert s[..n][..n - 1] == s[..n - 1];
    }
  }

  /** An LP plan that no LP plan beats is a plan of the dashboard's model, with the
      unused seats as its vacant seats: an optimum never keeps a spare cab. */
  lemma OptimalLpPlanIsCabPlan(s: seq<int>, a: seq<seq<int>>, y: seq<int>)
    requires |s| == Regions && IsLpPlan(s, a, y)
    requires forall y' :: IsLpPlan(s, a, y') ==> Objective(a, y) <= Objective(a, y')
    ensures IsCabPlan(s, a, y, UnusedSeats(a, y))
  {
    var u := UnusedSeats(a, y);
    forall j | 0 <= j < Regions
      ensures Capacity * y[j] - ColumnSum(a, j, Regions) < Capacity
    {
      if u[j] >= Capacity {
        DropSpareCab(s, a, y, j);
        assert false;
      }
    }
    forall i, j | 0 <= i < Regions && 0 <= j < Regions
      ensures a[i][j] <= s[i]
    {
      ElementAtMostSum(a[i], j);
    }
    forall j | 0 <= j < Regions
      ensures y[j] <= Sum(s)
    {
      var c := ColumnSum(a, j, Regions);
      ColumnAtMostTotal(s, a, j, Regions);
      assert s[..Regions] == s;
      ColumnNonNegative(a, j, Regions);
      CeilingBound(c, y[j]);
    }
  }

  /** 7y − c < 7 with c ≥ 0 gives y ≤ c, unless both are 0. */
  lemma CeilingBound(c: int, y: int)
    requires c >= 0 && y >= 0 && Capacity * y - c < Capacity
    ensures y <= c || y == 0
  {
  }

  // ---------------------------------------------------------------------
  // The solver's answer and its formatting
  // ---------------------------------------------------------------------

  /** `solver.Solve(model)`: the `feasible` flag, the objective `result`, and the
      value of each variable the solver reports, in key order (variables at 0
      may be missing). */
  datatype LpResult = LpResult(feasible: bool, result: int, entries: seq<(Var, int)>)

  /** The value reported last for v, or 0 when v is not reported. */
  function Reported(entries: seq<(Var, int)>, v: Var): int {
    if entries == [] then 0
    else if entries[|entries| - 1].0 == v then entries[|entries| - 1].1
    else Reported(entries[..|entries| - 1], v)
  }

  function ReportedValues(entries: seq<(Var, int)>): Values {
    v => Reported(entries, v)
  }

  /** A key the formatting can store: `x_i_j` or `y_j` with indices below 7. */
  predicate IsModelKey(v: Var) {
    match v
    case X(i, j) => 0 <= i < Regions && 0 <= j < Regions
    case Y(j) => 0 <= j < Regions
    case R(_) => false
  }

  /** A feasible answer reports only the model's variables, at values that satisfy
      the model, with the objective of those values as `result`. */
  ghost predicate LpSolverContract(lp: Lp, res: LpResult) {
    && (res.feasible ==>
      && (forall k :: 0 <= k < |res.entries| ==> IsModelKey(res.entries[k].0))
      && LpSatisfies(lp, ReportedValues(res.entries))
      && res.result == LpObjective(lp, ReportedValues(res.entries)))
    && (!res.feasible ==> forall val :: !LpSatisfies(lp, val))
  }

  /** `solver.Solve` keeps that contract on every model it is given. */
  ghost predicate TrustedLpSolver(solve: Lp -> LpResult) {
    forall lp :: LpSolverContract(lp, solve(lp))
  }

  /** The solver reports the model infeasible exactly when some count is negative. */
  lemma InfeasibleIffNegative(s: seq<int>, res: LpResult)
    requires |s| == Regions && LpSolverContract(LpOf(s), res)
    ensures !res.feasible <==> exists i :: 0 <= i < Regions && s[i] < 0
  {
    LpFeasibleIff(s);
    if res.feasible {
      assert LpSatisfies(LpOf(s), ReportedValues(res.entries));
    }
  }

  /** The answer is minimal among all solutions of the model. */
  ghost predicate LpOptimal(lp: Lp, res: LpResult) {
    forall val :: LpSatisfies(lp, val) ==> LpObjective(lp, ReportedValues(res.entries)) <= LpObjective(lp, val)
  }

  /** After the first k keys: every cell and count holds what those keys report. */
  predicate Formatted(entries: seq<(Var, int)>, k: nat, a: seq<seq<int>>, y: seq<int>)
    requires k <= |entries|
  {
    && IsMatrix(a) && |y| == Regions
    && (forall i, j :: 0 <= i < Regions && 0 <= j < Regions ==> a[i][j] == Reported(entries[..k], X(i, j)))
    && (forall j :: 0 <= j < Regions ==> y[j] == Reported(entries[..k], Y(j)))
  }

  lemma FormatStep(entries: seq<(Var, int)>, k: nat, a: seq<seq<int>>, y: seq<int>)
    requires k < |entries| && Formatted(entries, k, a, y) && IsModelKey(entries[k].0)
    ensures var (v, x) := entries[k];
            Formatted(entries, k + 1,
              if v.X? then a[v.i := a[v.i][v.j := x]] else a,
              if v.Y? then y[v.j := x] else y)
  {
    assert entries[..k + 1][..k] == entries[..k];
  }

  /** Zero-filled `assignments` and `numCabsPerRegion`, then one write per `x_`
      or `y_` key of the answer. */
  method FormatOutput(entries: seq<(Var, int)>) returns (a: seq<seq<int>>, y: seq<int>)
    requires forall k :: 0 <= k < |entries| ==> IsModelKey(entries[k].0)
    ensures a == Matrix(ReportedValues(entries)) && y == CabCounts(ReportedValues(entries))
  {
    a := seq(Regions, i => seq(Regions, j => 0));
    y := seq(Regions, j => 0);
    FormatStart(entries);
    for k := 0 to |entries|
      invariant Formatted(entries, k, a, y)
    {
      FormatStep(entries, k, a, y);
      var (v, x) := entries[k];
      if v.X? {
        a := a[v.i := a[v.i][v.j := x]];
      } else if v.Y? {
        y := y[v.j := x];
      }
    }
    FormatDone(entries, a, y);
  }

  lemma FormatStart(entries: seq<(Var, int)>)
    ensures Formatted(entries, 0, seq(Regions, i => seq(Regions, j => 0)), seq(Regions, j => 0))
  {
  }

  lemma FormatDone(entries: seq<(Var, int)>, a: seq<seq<int>>, y: seq<int>)
    requires Formatted(entries, |entries|, a, y)
    ensures a == Matrix(ReportedValues(entries)) && y == CabCounts(ReportedValues(entries))
  {
    assert entries[..|entries|] == entries;
    var val := ReportedValues(entries);
    assert a == Matrix(val) by {
      forall i | 0 <= i < Regions ensures a[i] == Matrix(val)[i] { }
    }
  }

  /** The cab allocation both front ends return. */
  datatype LpAllocation = LpAllocation(
    objectiveValue: int,
    numCabsPerRegion: seq<int>,
    assignments: seq<seq<int>>,
    unusedSeatsPerRegion: seq<int>)

  /** What a returned allocation promises for the counts s: an LP plan with its
      objective and unused seats, and, when the solver's answer is optimal, a
      plan of the dashboard's model with the unused seats as vacancies. */
  predicate Delivers(s: seq<int>, p: LpAllocation)
    requires |s| == Regions
  {
    && IsLpPlan(s, p.assignments, p.numCabsPerRegion)
    && p.objectiveValue == Objective(p.assignments, p.numCabsPerRegion)
    && p.unusedSeatsPerRegion == UnusedSeats(p.assignments, p.numCabsPerRegion)
    && (forall j :: 0 <= j < Regions ==> p.unusedSeatsPerRegion[j] >= 0)
  }

  /** `p` is the solver's answer `res` read back: the reported `x_i_j` and
      `y_j` values, the reported objective and the seats they leave unused. */
  predicate ReadsBack(res: LpResult, p: LpAllocation) {
    var val := ReportedValues(res.entries);
    && p.assignments == Matrix(val)
    && p.numCabsPerRegion == CabCounts(val)
    && p.objectiveValue == res.result
    && p.unusedSeatsPerRegion == UnusedSeats(Matrix(val), CabCounts(val))
  }

  /** Building the model, reading a feasible answer back and adding the unused
      seats: the common part of both front ends. */
  method FormatAllocation(s: seq<int>, res: LpResult) returns (p: LpAllocation)
    requires |s| == Regions && res.feasible && LpSolverContract(LpOf(s), res)
    ensures ReadsBack(res, p)
    ensures Delivers(s, p)
    ensures LpOptimal(LpOf(s), res) ==> IsCabPlan(s, p.assignments, p.numCabsPerRegion, p.unusedSeatsPerRegion)
  {
    var a, y := FormatOutput(res.entries);
    var val := ReportedValues(res.entries);
    LpSemantics(s, val);
    LpObjectiveSemantics(s, val);
    UnusedSeatsNonNegative(s, a, y);
    p := LpAllocation(res.result, y, a, UnusedSeats(a, y));
    if LpOptimal(LpOf(s), res) {
      OptimumIsCabPlan(s, res);
    }
  }

  lemma OptimumIsCabPlan(s: seq<int>, res: LpResult)
    requires |s| == Regions && res.feasible && LpSolverContract(LpOf(s), res) && LpOptimal(LpOf(s), res)
    ensures var val := ReportedValues(res.entries);
            IsCabPlan(s, Matrix(val), CabCounts(val), UnusedSeats(Matrix(val), CabCounts(val)))
  {
    var val := ReportedValues(res.entries);
    var a, y := Matrix(val), CabCounts(val);
    LpSemantics(s, val);
    forall y' | IsLpPlan(s, a, y')
      ensures Objective(a, y) <= Objective(a, y')
    {
      var other := PlanValues(a, y', seq(Regions, j => 0));
      LpSemantics(s, other);
      LpObjectiveSemantics(s, other);
      LpObjectiveSemantics(s, val);
    }
    OptimalLpPlanIsCabPlan(s, a, y);
  }

  // ---------------------------------------------------------------------
  // Feasibility
  // ---------------------------------------------------------------------

  /** The model has a solution iff no count is negative. */
  lemma LpFeasibleIff(s: seq<int>)
    requires |s| == Regions
    ensures (exists val :: LpSatisfies(LpOf(s), val)) <==> forall i :: 0 <= i < Regions ==> s[i] >= 0
  {
    if forall i :: 0 <= i < Regions ==> s[i] >= 0 {
      ModelIsFeasible(s);
      var val :| Satisfies(CabCpModel(s), val);
      ModelSemantics(s, val);
      CabPlanIsLpPlan(s, Matrix(val), CabCounts(val), Vacancies(val));
      LpSemantics(s, val);
    }
    if exists val :: LpSatisfies(LpOf(s), val) {
      var val :| LpSatisfies(LpOf(s), val);
      LpSemantics(s, val);
      var a := Matrix(val);
      forall i | 0 <= i < Regions
        ensures s[i] >= 0
      {
        SumNonNegative(a[i]);
      }
    }
  }
}
