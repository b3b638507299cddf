/** The integer model that `solve_cab_allocation` in scripts/cab_dashboard.py
    hands to the CP-SAT solver, and the adapter that reads the solver's answer
    back.  Students from origin region i ride a cab dispatched at region j
    (`X[i][j]`), `y[j]` cabs leave region j and `r[j]` seats stay empty there.

    The solver itself is an oracle: its status and the values it chose are
    parameters, and what it promises (the values satisfy the model whenever
    it reports OPTIMAL or FEASIBLE) is the adapter's precondition. */
module CabModel {
  import opened Wrappers

  const Regions: nat := 7
  const Capacity: nat := 7
  /** cost per region stepped with the flow, towards the gate */
  const Alpha: nat := 1
  /** cost per region stepped against the flow */
  const Beta: nat := 10
  const VehicleCost: nat := 100

  // ---------------------------------------------------------------------
  // Swap weight
  // ---------------------------------------------------------------------

  /** w(i, j): the price of a student from region i riding a cab of region j. */
  function Weight(i: nat, j: nat): (w: nat)
    ensures w == 0 <==> i == j
  {
    if i == j then 0
    else if j > i then Alpha * (j - i)
    else Beta * (i - j)
  }

  /** The weight depends only on the signed distance between the two regions. */
  lemma WeightDependsOnOffset(i: nat, j: nat, k: nat)
    ensures Weight(i + k, j + k) == Weight(i, j)
  {
  }

  /** A step against the flow costs ten times the same step with it. */
  lemma BackwardCostsTenfold(i: nat, j: nat)
    requires i < j
    ensures Weight(i, j) == j - i
    ensures Weight(j, i) == 10 * Weight(i, j)
  {
  }

  // ---------------------------------------------------------------------
  // Sums over vectors and 7x7 matrices
  // ---------------------------------------------------------------------

  function Sum(xs: seq<int>): int {
    if xs == [] then 0 else Sum(xs[..|xs| - 1]) + xs[|xs| - 1]
  }

  lemma {:induction false} SumNonNegative(xs: seq<int>)
    requires forall k :: 0 <= k < |xs| ==> xs[k] >= 0
    ensures Sum(xs) >= 0
  {
    if xs != [] {
      SumNonNegative(xs[..|xs| - 1]);
    }
  }

  lemma SumSnoc(xs: seq<int>, x: int)
    ensures Sum(xs + [x]) == Sum(xs) + x
  {
    assert (xs + [x])[..|xs|] == xs;
  }

  predicate IsMatrix(a: seq<seq<int>>) {
    |a| == Regions && forall i :: 0 <= i < |a| ==> |a[i]| == Regions
  }

  /** Σ_{i < n} a[i][j]: the first n entries of column j. */
  function ColumnSum(a: seq<seq<int>>, j: nat, n: nat): int
    requires IsMatrix(a) && j < Regions && n <= Regions
  {
    if n == 0 then 0 else ColumnSum(a, j, n - 1) + a[n - 1][j]
  }

  /** Σ over the first n cells in row-major order of w(i, j)·a[i][j]. */
  function SwapCost(a: seq<seq<int>>, n: nat): int
    requires IsMatrix(a) && n <= Regions * Regions
  {
    if n == 0 then 0
    else SwapCost(a, n - 1) + Weight((n - 1) / 7, (n - 1) % 7) * a[(n - 1) / 7][(n - 1) % 7]
  }

  /** 100·Σ_j y[j] + Σ_{i≠j} w(i, j)·X[i][j]; the diagonal adds nothing as w(i, i) = 0. */
  function Objective(a: seq<seq<int>>, y: seq<int>): int
    requires IsMatrix(a)
  {
    VehicleCost * Sum(y) + SwapCost(a, Regions * Regions)
  }

  /** What a solution of the model is, stated on the matrix, the cab counts and the
      vacant seats: every student of region i is assigned (row sums), and every
      column exactly fills y[j] cabs except for 0..6 vacant seats. */
  predicate IsCabPlan(s: seq<int>, a: seq<seq<int>>, y: seq<int>, r: seq<int>)
    requires |s| == Regions
  {
    && IsMatrix(a) && |y| == Regions && |r| == Regions
    && (forall i, j :: 0 <= i < Regions && 0 <= j < Regions ==> 0 <= a[i][j] <= s[i])
    && (forall j :: 0 <= j < Regions ==> 0 <= y[j] <= Sum(s))
    && (forall j :: 0 <= j < Regions ==> 0 <= r[j] < Capacity)
    && (forall i :: 0 <= i < Regions ==> Sum(a[i]) == s[i])
    && (forall j :: 0 <= j < Regions ==> ColumnSum(a, j, Regions) + r[j] == Capacity * y[j])
  }

  // ---------------------------------------------------------------------
  // The CP-SAT model as data
  // ---------------------------------------------------------------------

  datatype Var = X(i: int, j: int) | Y(j: int) | R(j: int)

  /** `model.NewIntVar(lo, hi, name)` */
  datatype VarDecl = VarDecl(v: Var, lo: int, hi: int)

  datatype Term = Term(coef: int, v: Var)

  /** `model.Add(lhs == rhs)`, normalised to Σ coef·var == constant. */
  datatype Constraint = LinearEq(terms: seq<Term>, rhs: int)

  /** Variables in creation order, constraints in the order they were added,
      and the minimised objective as a flat list of terms. */
  datatype CpModel = CpModel(vars: seq<VarDecl>, constraints: seq<Constraint>, objective: seq<Term>)

  /** The values a solver assigns to the variables (`solver.Value`). */
  type Values = Var -> int

  function Eval(ts: seq<Term>, val: Values): int {
    if ts == [] then 0 else Eval(ts[..|ts| - 1], val) + ts[|ts| - 1].coef * val(ts[|ts| - 1].v)
  }

  /** Every variable within its declared domain and every constraint holding. */
  predicate Satisfies(m: CpModel, val: Values) {
    WithinBounds(m.vars, val) && AllHold(m.constraints, val)
  }

  predicate WithinBounds(vars: seq<VarDecl>, val: Values) {
    forall k :: 0 <= k < |vars| ==> vars[k].lo <= val(vars[k].v) <= vars[k].hi
  }

  predicate Holds(c: Constraint, val: Values) {
    Eval(c.terms, val) == c.rhs
  }

  predicate AllHold(cs: seq<Constraint>, val: Values) {
    forall k :: 0 <= k < |cs| ==> Holds(cs[k], val)
  }

  /** X[i, j] for the first n cells in row-major order, each in 0..students[i]. */
  function XDecls(s: seq<int>, n: nat): (ds: seq<VarDecl>)
    requires |s| == Regions && n <= Regions * Regions
    ensures |ds| == n
  {
    if n == 0 then [] else XDecls(s, n - 1) + [VarDecl(X((n - 1) / 7, (n - 1) % 7), 0, s[(n - 1) / 7])]
  }

  /** y[j] in 0..total_students for the first n regions. */
  function YDecls(total: int, n: nat): (ds: seq<VarDecl>)
    ensures |ds| == n
  {
    if n == 0 then [] else YDecls(total, n - 1) + [VarDecl(Y(n - 1), 0, total)]
  }

  /** r[j] in 0..cap-1 for the first n regions. */
  function RDecls(n: nat): (ds: seq<VarDecl>)
    ensures |ds| == n
  {
    if n == 0 then [] else RDecls(n - 1) + [VarDecl(R(n - 1), 0, Capacity - 1)]
  }

  /** `sum(X[i, j] for j in range(n))` */
  function RowTerms(i: nat, n: nat): seq<Term> {
    if n == 0 then [] else RowTerms(i, n - 1) + [Term(1, X(i, n - 1))]
  }

  /** `sum(X[i, j] for i in range(n))` */
  function ColumnTerms(j: nat, n: nat): seq<Term> {
    if n == 0 then [] else ColumnTerms(j, n - 1) + [Term(1, X(n - 1, j))]
  }

  /** Row i: Σ_j X[i][j] == students[i]. */
  function RowConstraint(s: seq<int>, i: nat): Constraint
    requires i < |s|
  {
    LinearEq(RowTerms(i, Regions), s[i])
  }

  /** Column j: Σ_i X[i][j] + r[j] == 7·y[j], i.e. Σ_i X[i][j] + r[j] - 7·y[j] == 0. */
  function ColumnConstraint(j: nat): Constraint {
    LinearEq(ColumnTerms(j, Regions) + [Term(1, R(j)), Term(-(Capacity as int), Y(j))], 0)
  }

  function RowConstraints(s: seq<int>, n: nat): (cs: seq<Constraint>)
    requires n <= |s|
    ensures |cs| == n
  {
    if n == 0 then [] else RowConstraints(s, n - 1) + [RowConstraint(s, n - 1)]
  }

  function ColumnConstraints(n: nat): (cs: seq<Constraint>)
    ensures |cs| == n
  {
    if n == 0 then [] else ColumnConstraints(n - 1) + [ColumnConstraint(n - 1)]
  }

  /** `C_vehicle * sum(y[j] for j in range(n))`, one term per cab variable. */
  function VehicleTerms(n: nat): seq<Term> {
    if n == 0 then [] else VehicleTerms(n - 1) + [Term(VehicleCost, Y(n - 1))]
  }

  /** `w_ij * X[i, j]` for the first n cells in row-major order whose weight is not 0. */
  function SwapTerms(n: nat): seq<Term> {
    if n == 0 then []
    else
      var i, j := (n - 1) / 7, (n - 1) % 7;
      SwapTerms(n - 1) + (if Weight(i, j) != 0 then [Term(Weight(i, j), X(i, j))] else [])
  }

  /** The model `solve_cab_allocation` builds for a vector of seven counts. */
  function CabCpModel(s: seq<int>): CpModel
    requires |s| == Regions
  {
    CpModel(XDecls(s, 49) + YDecls(Sum(s), Regions) + RDecls(|s|),
            RowConstraints(s, Regions) + ColumnConstraints(|s|),
            VehicleTerms(|s|) + SwapTerms(Regions * |s|))
  }

  // ---------------------------------------------------------------------
  // Building the model (the nested loops of solve_cab_allocation)
  // ---------------------------------------------------------------------

  /** The three `NewIntVar` loops: X row by row, then y, then r. */
  method DeclareVars(s: seq<int>) returns (decls: seq<VarDecl>)
    requires |s| == Regions
    ensures decls == XDecls(s, 49) + YDecls(Sum(s), Regions) + RDecls(|s|)
  {
    var total := Sum(s);
    decls := [];
    for i := 0 to Regions
      invariant decls == XDecls(s, 7 * i)
    {
      for j := 0 to Regions
        invariant decls == XDecls(s, 7 * i + j)
      {
        assert (7 * i + j) / 7 == i && (7 * i + j) % 7 == j;
        decls := decls + [VarDecl(X(i, j), 0, s[i])];
      }
    }
    for j := 0 to Regions
      invariant decls == XDecls(s, 49) + YDecls(total, j)
    {
      decls := decls + [VarDecl(Y(j), 0, total)];
    }
    for j := 0 to Regions
      invariant decls == XDecls(s, 49) + YDecls(total, Regions) + RDecls(j)
    {
      decls := decls + [VarDecl(R(j), 0, Capacity - 1)];
    }
  }

  /** The two `model.Add` loops: one row constraint per origin, then one column
      constraint per cab region. */
  method AddConstraints(s: seq<int>) returns (constraints: seq<Constraint>)
    requires |s| == Regions
    ensures constraints == RowConstraints(s, Regions) + ColumnConstraints(|s|)
  {
    constraints := [];
    for i := 0 to Regions
      invariant constraints == RowConstraints(s, i)
    {
      constraints := constraints + [LinearEq(RowTerms(i, Regions), s[i])];
    }
    for j := 0 to Regions
      invariant constraints == RowConstraints(s, Regions) + ColumnConstraints(j)
    {
      constraints := constraints + [LinearEq(ColumnTerms(j, Regions) + [Term(1, R(j)), Term(-(Capacity as int), Y(j))], 0)];
    }
  }

  /** `objective_terms`: the vehicle cost first, then every non-zero swap term. */
  method BuildObjective(s: seq<int>) returns (objective: seq<Term>)
    requires |s| == Regions
    ensures objective == VehicleTerms(|s|) + SwapTerms(Regions * |s|)
  {
    objective := VehicleTerms(|s|);
    for i := 0 to Regions
      invariant objective == VehicleTerms(|s|) + SwapTerms(7 * i)
    {
      for j := 0 to Regions
        invariant objective == VehicleTerms(|s|) + SwapTerms(7 * i + j)
      {
        var w;
        if i == j {
          w := 0;
        } else if j > i {
          w := Alpha * (j - i);
        } else {
          w := Beta * (i - j);
        }
        SwapTermsStep(i, j);
        if w != 0 {
          objective := objective + [Term(w, X(i, j))];
        }
      }
    }
  }

  /** One step of the nested loop appends the term of cell (i, j), if any. */
  lemma SwapTermsStep(i: nat, j: nat)
    requires i < Regions && j < Regions
    ensures SwapTerms(7 * i + j + 1)
         == SwapTerms(7 * i + j) + (if Weight(i, j) != 0 then [Term(Weight(i, j), X(i, j))] else [])
  {
    assert (7 * i + j) / 7 == i && (7 * i + j) % 7 == j;
  }

  method BuildCpModel(s: seq<int>) returns (m: CpModel)
    requires |s| == Regions
    ensures m == CabCpModel(s)
  {
    var decls := DeclareVars(s);
    var constraints := AddConstraints(s);
    var objective := BuildObjective(s);
    m := CpModel(decls, constraints, objective);
  }

  // ---------------------------------------------------------------------
  // What the model means
  // ---------------------------------------------------------------------

  /** `[[solver.Value(X[i, j]) for j in regions] for i in regions]` */
  function Matrix(val: Values): (a: seq<seq<int>>)
    ensures IsMatrix(a)
    ensures forall i, j :: 0 <= i < Regions && 0 <= j < Regions ==> a[i][j] == val(X(i, j))
  {
    seq(Regions, i => seq(Regions, j => val(X(i, j))))
  }

  /** `[solver.Value(y[j]) for j in regions]` */
  function CabCounts(val: Values): (y: seq<int>)
    ensures |y| == Regions && forall j :: 0 <= j < Regions ==> y[j] == val(Y(j))
  {
    seq(Regions, j => val(Y(j)))
  }

  /** `[solver.Value(r[j]) for j in regions]` */
  function Vacancies(val: Values): (r: seq<int>)
    ensures |r| == Regions && forall j :: 0 <= j < Regions ==> r[j] == val(R(j))
  {
    seq(Regions, j => val(R(j)))
  }

  /** Values that put a given plan back into the variables: the inverse of the
      three read-outs above. */
  function PlanValues(a: seq<seq<int>>, y: seq<int>, r: seq<int>): (val: Values)
    requires IsMatrix(a) && |y| == Regions && |r| == Regions
    ensures Matrix(val) == a && CabCounts(val) == y && Vacancies(val) == r
  {
    var val: Values := (v: Var) =>
      match v
      case X(i, j) => if 0 <= i < Regions && 0 <= j < Regions then a[i][j] else 0
      case Y(j) => if 0 <= j < Regions then y[j] else 0
      case R(j) => if 0 <= j < Regions then r[j] else 0;
    assert Matrix(val) == a by {
      forall i | 0 <= i < Regions ensures Matrix(val)[i] == a[i] { }
    }
    val
  }

  lemma {:induction false} EvalAppend(ts: seq<Term>, us: seq<Term>, val: Values)
    ensures Eval(ts + us, val) == Eval(ts, val) + Eval(us, val)
  {
    if us == [] {
      assert ts + us == ts;
    } else {
      assert (ts + us)[..|ts + us| - 1] == ts + us[..|us| - 1];
      EvalAppend(ts, us[..|us| - 1], val);
    }
  }

  lemma {:induction false} EvalRow(i: nat, n: nat, val: Values)
    requires i < Regions && n <= Regions
    ensures Eval(RowTerms(i, n), val) == Sum(Matrix(val)[i][..n])
  {
    if n > 0 {
      EvalRow(i, n - 1, val);
      assert Matrix(val)[i][..n][..n - 1] == Matrix(val)[i][..n - 1];
    }
  }

  lemma {:induction false} EvalColumn(j: nat, n: nat, val: Values)
    requires j < Regions && n <= Regions
    ensures Eval(ColumnTerms(j, n), val) == ColumnSum(Matrix(val), j, n)
  {
    if n > 0 {
      EvalColumn(j, n - 1, val);
    }
  }

  lemma EvalColumnConstraint(j: nat, val: Values)
    requires j < Regions
    ensures Eval(ColumnConstraint(j).terms, val) == ColumnSum(Matrix(val), j, Regions) + val(R(j)) - Capacity * val(Y(j))
  {
    var tail := [Term(1, R(j)), Term(-(Capacity as int), Y(j))];
    EvalAppend(ColumnTerms(j, Regions), tail, val);
    EvalColumn(j, Regions, val);
    assert tail[..1] == [Term(1, R(j))];
    assert tail[..1][..0] == [];
    assert Eval(tail[..1], val) == val(R(j));
    assert Eval(tail, val) == val(R(j)) - Capacity * val(Y(j));
  }

  lemma {:induction false} XDeclAt(s: seq<int>, n: nat, k: nat)
    requires |s| == Regions && k < n <= Regions * Regions
    ensures XDecls(s, n)[k] == VarDecl(X(k / 7, k % 7), 0, s[k / 7])
  {
    if k < n - 1 {
      XDeclAt(s, n - 1, k);
    }
  }

  lemma {:induction false} YDeclAt(total: int, n: nat, k: nat)
    requires k < n
    ensures YDecls(total, n)[k] == VarDecl(Y(k), 0, total)
  {
    if k < n - 1 {
      YDeclAt(total, n - 1, k);
    }
  }

  lemma {:induction false} RDeclAt(n: nat, k: nat)
    requires k < n
    ensures RDecls(n)[k] == VarDecl(R(k), 0, Capacity - 1)
  {
    if k < n - 1 {
      RDeclAt(n - 1, k);
    }
  }

  lemma {:induction false} RowConstraintAt(s: seq<int>, n: nat, k: nat)
    requires k < n <= |s|
    ensures RowConstraints(s, n)[k] == RowConstraint(s, k)
  {
    if k < n - 1 {
      RowConstraintAt(s, n - 1, k);
    }
  }

  lemma {:induction false} ColumnConstraintAt(n: nat, k: nat)
    requires k < n
    ensures ColumnConstraints(n)[k] == ColumnConstraint(k)
  {
    if k < n - 1 {
      ColumnConstraintAt(n - 1, k);
    }
  }

  /** The `NewIntVar` domains, stated per variable family. */
  predicate XInDomains(s: seq<int>, val: Values)
    requires |s| == Regions
  {
    forall i, j :: 0 <= i < Regions && 0 <= j < Regions ==> 0 <= val(X(i, j)) <= s[i]
  }

  predicate YInDomains(total: int, val: Values) {
    forall j :: 0 <= j < Regions ==> 0 <= val(Y(j)) <= total
  }

  predicate RInDomains(val: Values) {
    forall j :: 0 <= j < Regions ==> 0 <= val(R(j)) <= Capacity - 1
  }

  predicate InDomains(s: seq<int>, val: Values)
    requires |s| == Regions
  {
    XInDomains(s, val) && YInDomains(Sum(s), val) && RInDomains(val)
  }

  lemma BoundsAppend(us: seq<VarDecl>, ws: seq<VarDecl>, val: Values)
    ensures WithinBounds(us + ws, val) <==> WithinBounds(us, val) && WithinBounds(ws, val)
  {
    var vs := us + ws;
    if WithinBounds(us, val) && WithinBounds(ws, val) {
      forall k | 0 <= k < |vs|
        ensures vs[k].lo <= val(vs[k].v) <= vs[k].hi
      {
        if k >= |us| {
          assert vs[k] == ws[k - |us|];
        }
      }
    }
    if WithinBounds(vs, val) {
      forall k | 0 <= k < |us|
        ensures us[k].lo <= val(us[k].v) <= us[k].hi
      {
        assert vs[k] == us[k];
      }
      forall k | 0 <= k < |ws|
        ensures ws[k].lo <= val(ws[k].v) <= ws[k].hi
      {
        assert vs[|us| + k] == ws[k];
      }
    }
  }

  lemma XDeclCell(s: seq<int>, i: nat, j: nat)
    requires |s| == Regions && i < Regions && j < Regions
    ensures 7 * i + j < 49 && XDecls(s, 49)[7 * i + j] == VarDecl(X(i, j), 0, s[i])
  {
    XDeclAt(s, 49, 7 * i + j);
    assert (7 * i + j) / 7 == i && (7 * i + j) % 7 == j;
  }

  lemma XBounds(s: seq<int>, val: Values)
    requires |s| == Regions
    ensures WithinBounds(XDecls(s, 49), val) <==> XInDomains(s, val)
  {
    var xs := XDecls(s, 49);
    if WithinBounds(xs, val) {
      forall i, j | 0 <= i < Regions && 0 <= j < Regions
        ensures 0 <= val(X(i, j)) <= s[i]
      {
        XDeclCell(s, i, j);
      }
    }
    if XInDomains(s, val) {
      forall k | 0 <= k < 49
        ensures xs[k].lo <= val(xs[k].v) <= xs[k].hi
      {
        XDeclAt(s, 49, k);
        var i, j := k / 7, k % 7;
        assert 0 <= i < Regions && 0 <= j < Regions;
        assert 0 <= val(X(i, j)) <= s[i];
      }
    }
  }

  lemma YBounds(total: int, val: Values)
    ensures WithinBounds(YDecls(total, Regions), val) <==> YInDomains(total, val)
  {
    var ys := YDecls(total, Regions);
    forall j | 0 <= j < Regions
      ensures ys[j] == VarDecl(Y(j), 0, total)
    {
      YDeclAt(total, Regions, j);
    }
  }

  lemma RBounds(s: seq<int>, val: Values)
    requires |s| == Regions
    ensures WithinBounds(RDecls(|s|), val) <==> RInDomains(val)
  {
    var rs := RDecls(|s|);
    forall j | 0 <= j < Regions
      ensures rs[j] == VarDecl(R(j), 0, Capacity - 1)
    {
      RDeclAt(|s|, j);
    }
  }

  /** The declared domains are exactly the three `NewIntVar` ranges. */
  lemma BoundsSemantics(s: seq<int>, val: Values)
    requires |s| == Regions
    ensures WithinBounds(CabCpModel(s).vars, val) <==> InDomains(s, val)
  {
    var xs, ys, rs := XDecls(s, 49), YDecls(Sum(s), Regions), RDecls(|s|);
    assert CabCpModel(s).vars == xs + ys + rs;
    BoundsAppend(xs + ys, rs, val);
    BoundsAppend(xs, ys, val);
    XBounds(s, val);
    YBounds(Sum(s), val);
    RBounds(s, val);
  }

  /** The two constraint families, stated on the read-out matrix and vectors. */
  predicate RowBalanced(s: seq<int>, i: nat, val: Values)
    requires |s| == Regions && i < Regions
  {
    Sum(Matrix(val)[i]) == s[i]
  }

  predicate ColumnBalanced(j: nat, val: Values)
    requires j < Regions
  {
    ColumnSum(Matrix(val), j, Regions) + val(R(j)) == Capacity * val(Y(j))
  }

  predicate RowsBalanced(s: seq<int>, val: Values)
    requires |s| == Regions
  {
    forall i :: 0 <= i < Regions ==> RowBalanced(s, i, val)
  }

  predicate ColumnsBalanced(val: Values) {
    forall j :: 0 <= j < Regions ==> ColumnBalanced(j, val)
  }

  predicate Balanced(s: seq<int>, val: Values)
    requires |s| == Regions
  {
    RowsBalanced(s, val) && ColumnsBalanced(val)
  }

  lemma AllHoldAppend(us: seq<Constraint>, ws: seq<Constraint>, val: Values)
    ensures AllHold(us + ws, val) <==> AllHold(us, val) && AllHold(ws, val)
  {
    var cs := us + ws;
    if AllHold(us, val) && AllHold(ws, val) {
      forall k | 0 <= k < |cs|
        ensures Holds(cs[k], val)
      {
        if k >= |us| {
          assert cs[k] == ws[k - |us|];
        }
      }
    }
    if AllHold(cs, val) {
      forall k | 0 <= k < |us|
        ensures Holds(us[k], val)
      {
        assert cs[k] == us[k];
      }
      forall k | 0 <= k < |ws|
        ensures Holds(ws[k], val)
      {
        assert cs[|us| + k] == ws[k];
      }
    }
  }

  lemma RowSemantics(s: seq<int>, i: nat, val: Values)
    requires |s| == Regions && i < Regions
    ensures Holds(RowConstraints(s, Regions)[i], val) <==> RowBalanced(s, i, val)
  {
    RowConstraintAt(s, Regions, i);
    EvalRow(i, Regions, val);
    assert Matrix(val)[i][..Regions] == Matrix(val)[i];
  }

  lemma RowsSemantics(s: seq<int>, val: Values)
    requires |s| == Regions
    ensures AllHold(RowConstraints(s, Regions), val) <==> RowsBalanced(s, val)
  {
    var rows := RowConstraints(s, Regions);
    forall i | 0 <= i < Regions
      ensures Holds(rows[i], val) <==> RowBalanced(s, i, val)
    {
      RowSemantics(s, i, val);
    }
  }

  lemma ColumnSemantics(s: seq<int>, j: nat, val: Values)
    requires |s| == Regions && j < Regions
    ensures Holds(ColumnConstraints(|s|)[j], val) <==> ColumnBalanced(j, val)
  {
    ColumnConstraintAt(|s|, j);
    EvalColumnConstraint(j, val);
  }

  lemma ColumnsSemantics(s: seq<int>, val: Values)
    requires |s| == Regions
    ensures AllHold(ColumnConstraints(|s|), val) <==> ColumnsBalanced(val)
  {
    var cols := ColumnConstraints(|s|);
    forall j | 0 <= j < Regions
      ensures Holds(cols[j], val) <==> ColumnBalanced(j, val)
    {
      ColumnSemantics(s, j, val);
    }
  }

  /** The added constraints hold exactly when rows and columns balance. */
  lemma ConstraintSemantics(s: seq<int>, val: Values)
    requires |s| == Regions
    ensures AllHold(CabCpModel(s).constraints, val) <==> Balanced(s, val)
  {
    var rows, cols := RowConstraints(s, Regions), ColumnConstraints(|s|);
    assert CabCpModel(s).constraints == rows + cols;
    AllHoldAppend(rows, cols, val);
    RowsSemantics(s, val);
    ColumnsSemantics(s, val);
  }

  /** Domains plus balance, stated on the variables, is the plan read out of them. */
  lemma ReadOut(s: seq<int>, val: Values)
    requires |s| == Regions
    ensures InDomains(s, val) && Balanced(s, val) <==> IsCabPlan(s, Matrix(val), CabCounts(val), Vacancies(val))
  {
    var a, y, r := Matrix(val), CabCounts(val), Vacancies(val);
    assert XInDomains(s, val) <==> forall i, j :: 0 <= i < Regions && 0 <= j < Regions ==> 0 <= a[i][j] <= s[i];
    if RowsBalanced(s, val) {
      forall i | 0 <= i < Regions
        ensures Sum(a[i]) == s[i]
      {
        assert RowBalanced(s, i, val);
      }
    }
    if forall i :: 0 <= i < Regions ==> Sum(a[i]) == s[i] {
      forall i | 0 <= i < Regions
        ensures RowBalanced(s, i, val)
      {
        assert Sum(a[i]) == s[i];
      }
    }
    if ColumnsBalanced(val) {
      forall j | 0 <= j < Regions
        ensures ColumnSum(a, j, Regions) + r[j] == Capacity * y[j]
      {
        assert ColumnBalanced(j, val);
      }
    }
    if forall j :: 0 <= j < Regions ==> ColumnSum(a, j, Regions) + r[j] == Capacity * y[j] {
      forall j | 0 <= j < Regions
        ensures ColumnBalanced(j, val)
      {
        assert ColumnSum(a, j, Regions) + r[j] == Capacity * y[j];
      }
    }
  }

  /** The model's solutions are exactly the cab plans: any values satisfying it
      read out as a plan, and every plan is the read-out of values satisfying it. */
  lemma ModelSemantics(s: seq<int>, val: Values)
    requires |s| == Regions
    ensures Satisfies(CabCpModel(s), val) <==> IsCabPlan(s, Matrix(val), CabCounts(val), Vacancies(val))
  {
    BoundsSemantics(s, val);
    ConstraintSemantics(s, val);
    ReadOut(s, val);
  }

  lemma {:induction false} EvalVehicleTerms(n: nat, val: Values)
    requires n <= Regions
    ensures Eval(VehicleTerms(n), val) == VehicleCost * Sum(CabCounts(val)[..n])
  {
    if n > 0 {
      EvalVehicleTerms(n - 1, val);
      assert CabCounts(val)[..n][..n - 1] == CabCounts(val)[..n - 1];
      EvalAppend(VehicleTerms(n - 1), [Term(VehicleCost, Y(n - 1))], val);
    }
  }

  lemma {:induction false} EvalSwapTerms(n: nat, val: Values)
    requires n <= Regions * Regions
    ensures Eval(SwapTerms(n), val) == SwapCost(Matrix(val), n)
  {
    if n > 0 {
      EvalSwapTerms(n - 1, val);
      var i, j := (n - 1) / 7, (n - 1) % 7;
      if Weight(i, j) != 0 {
        EvalAppend(SwapTerms(n - 1), [Term(Weight(i, j), X(i, j))], val);
      } else {
        assert SwapTerms(n - 1) + [] == SwapTerms(n - 1);
      }
    }
  }

  lemma ObjectiveParts(s: seq<int>, val: Values)
    requires |s| == Regions
    ensures Eval(VehicleTerms(|s|) + SwapTerms(Regions * |s|), val)
         == Objective(Matrix(val), CabCounts(val))
  {
    EvalAppend(VehicleTerms(|s|), SwapTerms(Regions * |s|), val);
    EvalVehicleTerms(|s|, val);
    assert CabCounts(val)[..|s|] == CabCounts(val);
    EvalSwapTerms(Regions * |s|, val);
  }

  /** The minimised expression is the objective of the read-out plan. */
  lemma ObjectiveSemantics(s: seq<int>, val: Values)
    requires |s| == Regions
    ensures Eval(CabCpModel(s).objective, val) == Objective(Matrix(val), CabCounts(val))
  {
    assert CabCpModel(s).objective == VehicleTerms(|s|) + SwapTerms(Regions * |s|);
    ObjectiveParts(s, val);
  }

  // ---------------------------------------------------------------------
  // Consequences of the semantics
  // ---------------------------------------------------------------------

  lemma {:induction false} ElementAtMostSum(xs: seq<int>, k: nat)
    requires k < |xs| && forall m :: 0 <= m < |xs| ==> xs[m] >= 0
    ensures xs[k] <= Sum(xs)
  {
    var init := xs[..|xs| - 1];
    if k < |xs| - 1 {
      ElementAtMostSum(init, k);
    } else {
      SumNonNegative(init);
    }
  }

  /** Row i of the diagonal plan: every student rides a cab of their own region. */
  function Diagonal(s: seq<int>): (a: seq<seq<int>>)
    requires |s| == Regions
    ensures IsMatrix(a)
    ensures forall i, j :: 0 <= i < Regions && 0 <= j < Regions ==> a[i][j] == if i == j then s[i] else 0
  {
    seq(Regions, i requires 0 <= i < Regions => seq(Regions, j => if i == j then s[i] else 0))
  }

  lemma {:induction false} OneHotSum(xs: seq<int>, i: nat, v: int)
    requires i < |xs| && forall k :: 0 <= k < |xs| ==> xs[k] == if k == i then v else 0
    ensures Sum(xs) == v
  {
    var init := xs[..|xs| - 1];
    if i < |xs| - 1 {
      OneHotSum(init, i, v);
    } else {
      ZeroSum(init);
    }
  }

  lemma {:induction false} ZeroSum(xs: seq<int>)
    requires forall k :: 0 <= k < |xs| ==> xs[k] == 0
    ensures Sum(xs) == 0
  {
    if xs != [] {
      ZeroSum(xs[..|xs| - 1]);
    }
  }

  lemma {:induction false} DiagonalColumn(s: seq<int>, j: nat, n: nat)
    requires |s| == Regions && j < Regions && n <= Regions
    ensures ColumnSum(Diagonal(s), j, n) == if j < n then s[j] else 0
  {
    if n > 0 {
      DiagonalColumn(s, j, n - 1);
    }
  }

  /** ⌈c / 7⌉ cabs, and 7·⌈c / 7⌉ − c of their seats vacant. */
  lemma CeilingSplit(c: int)
    requires c >= 0
    ensures 0 <= (c + 6) / 7 <= c || c == 0
    ensures 0 <= Capacity * ((c + 6) / 7) - c < Capacity
  {
    var q := (c + 6) / 7;
    assert c + 6 == 7 * q + (c + 6) % 7;
  }

  /** For non-negative counts the model always has a solution: every student
      stays in their own region, with ⌈s[j] / 7⌉ cabs there. */
  lemma ModelIsFeasible(s: seq<int>)
    requires |s| == Regions && forall i :: 0 <= i < Regions ==> s[i] >= 0
    ensures exists val :: Satisfies(CabCpModel(s), val)
  {
    var a := Diagonal(s);
    var y := seq(Regions, j requires 0 <= j < Regions => (s[j] + 6) / 7);
    var r := seq(Regions, j requires 0 <= j < Regions => Capacity * y[j] - s[j]);
    forall i | 0 <= i < Regions
      ensures Sum(a[i]) == s[i]
    {
      OneHotSum(a[i], i, s[i]);
    }
    forall j | 0 <= j < Regions
      ensures ColumnSum(a, j, Regions) + r[j] == Capacity * y[j]
      ensures 0 <= y[j] <= Sum(s) && 0 <= r[j] < Capacity
    {
      DiagonalColumn(s, j, Regions);
      CeilingSplit(s[j]);
      ElementAtMostSum(s, j);
    }
    forall i, j | 0 <= i < Regions && 0 <= j < Regions
      ensures 0 <= a[i][j] <= s[i]
    {
    }
    assert IsCabPlan(s, a, y, r);
    var val := PlanValues(a, y, r);
    ModelSemantics(s, val);
  }

  /** A negative count leaves the model without a solution: X[i][j] would have to
      lie in 0..students[i]. */
  lemma NegativeCountInfeasible(s: seq<int>, i: nat, val: Values)
    requires |s| == Regions && i < Regions && s[i] < 0
    ensures !Satisfies(CabCpModel(s), val)
  {
    ModelSemantics(s, val);
    NoPlanWithNegativeCount(s, Matrix(val), CabCounts(val), Vacancies(val), i);
  }

  lemma NoPlanWithNegativeCount(s: seq<int>, a: seq<seq<int>>, y: seq<int>, r: seq<int>, i: nat)
    requires |s| == Regions && i < Regions && s[i] < 0
    ensures !IsCabPlan(s, a, y, r)
  {
  }

  lemma DivideBySeven(n: int, q: int, m: int)
    requires n == 7 * q + m && 0 <= m < 7
    ensures n / 7 == q && n % 7 == m
  {
  }

  /** The model never sends a superfluous cab: y[j] is exactly ⌈c / 7⌉ for the c
      students assigned to region j, and the vacancies are what the last cab
      leaves free. */
  lemma CabsAreCeiling(s: seq<int>, a: seq<seq<int>>, y: seq<int>, r: seq<int>, j: nat)
    requires |s| == Regions && IsCabPlan(s, a, y, r) && j < Regions
    ensures y[j] == (ColumnSum(a, j, Regions) + Capacity - 1) / Capacity
    ensures r[j] == (Capacity - ColumnSum(a, j, Regions) % Capacity) % Capacity
  {
    var c := ColumnSum(a, j, Regions);
    DivideBySeven(c + 6, y[j], 6 - r[j]);
    if r[j] == 0 {
      DivideBySeven(c, y[j], 0);
      DivideBySeven(7, 1, 0);
    } else {
      DivideBySeven(c, y[j] - 1, 7 - r[j]);
      DivideBySeven(r[j], 0, r[j]);
    }
  }

  // ---------------------------------------------------------------------
  // solve_cab_allocation
  // ---------------------------------------------------------------------

  /** The statuses `CpSolver.Solve` can report. */
  datatype Status = Unknown | ModelInvalid | Feasible | Infeasible | Optimal

  /** The dictionary `solve_cab_allocation` returns. */
  datatype Allocation = Allocation(
    numCabsPerRegion: seq<int>,
    unusedSeatsPerRegion: seq<int>,
    assignments: seq<seq<int>>,
    objectiveValue: int)

  predicate Solved(status: Status) {
    status == Optimal || status == Feasible
  }

  /** What CP-SAT promises about `values`: they solve the model whenever it
      reports success, and nothing cheaper solves it when it reports OPTIMAL. */
  ghost predicate SolverContract(m: CpModel, status: Status, values: Values) {
    && (Solved(status) ==> Satisfies(m, values))
    && (status == Optimal ==> forall v :: Satisfies(m, v) ==> Eval(m.objective, values) <= Eval(m.objective, v))
  }

  /** The error raised for a count vector of the wrong length. */
  const LengthError := "students_per_region must have length 7"

  /** Builds the model, hands it to the solver (whose answer is `status` and
      `values`) and reads the plan back; `None` when the solver found nothing. */
  method SolveCabAllocation(students: seq<int>, status: Status, values: Values)
    returns (res: Result<Option<Allocation>, string>)
    requires |students| == Regions ==> SolverContract(CabCpModel(students), status, values)
    ensures res.Failure? <==> |students| != Regions
    ensures res.Failure? ==> res.error == LengthError
    ensures res.Success? ==> (res.value.Some? <==> Solved(status))
    ensures res.Success? && res.value.Some? ==>
      var p := res.value.value;
      && p.assignments == Matrix(values) && p.numCabsPerRegion == CabCounts(values)
      && p.unusedSeatsPerRegion == Vacancies(values)
      && IsCabPlan(students, p.assignments, p.numCabsPerRegion, p.unusedSeatsPerRegion)
      && p.objectiveValue == Objective(p.assignments, p.numCabsPerRegion)
    ensures res.Success? && res.value.Some? && status == Optimal ==>
      var p := res.value.value;
      forall a, y, r :: IsCabPlan(students, a, y, r) ==> Objective(p.assignments, p.numCabsPerRegion) <= Objective(a, y)
    ensures |students| == Regions && (exists i :: 0 <= i < Regions && students[i] < 0) ==> res == Success(None)
  {
    if |students| != Regions {
      return Failure(LengthError);
    }
    var m := BuildCpModel(students);
    if (exists i :: 0 <= i < Regions && students[i] < 0) {
      var i :| 0 <= i < Regions && students[i] < 0;
      NegativeCountInfeasible(students, i, values);
    }
    if !Solved(status) {
      return Success(None);
    }
    var assignments := Matrix(values);
    var cabs := CabCounts(values);
    var unused := Vacancies(values);
    ModelSemantics(students, values);
    ObjectiveSemantics(students, values);
    var p := Allocation(cabs, unused, assignments, Eval(m.objective, values));
    if status == Optimal {
      forall a, y, r | IsCabPlan(students, a, y, r)
        ensures Objective(assignments, cabs) <= Objective(a, y)
      {
        var v := PlanValues(a, y, r);
        ModelSemantics(students, v);
        ObjectiveSemantics(students, v);
      }
    }
    return Success(Some(p));
  }
}
