/** The inputs of `model_problem`: the six tables (already read), the scalar parameters,
  * the separability test on the route table and the split into sub-problems. */
module CashData {
  import opened Wrappers

  /** The tables as `pd.read_csv` yields them. Rows of `routeBranches` and `businessDays` are routes,
    * rows of `collection` are branches; the other three are single columns. */
  datatype Tables = Tables(
    routeBranches: seq<seq<real>>,
    costRoutes: seq<real>,
    cashInBranch: seq<real>,
    boxAmounts: seq<real>,
    businessDays: seq<seq<real>>,
    collection: seq<seq<real>>)

  /** The scalar arguments of `model_problem` (`debug` only prints and is not modelled). */
  datatype Params = Params(
    nDays: nat,
    nBranches: nat,
    nRoutes: nat,
    lastDays: seq<nat>,
    extraBox: real,
    rate: real,
    solver: string,
    threads: int)

  /** Table lookups used while building rows. Every lookup made for a sub-problem that passes
    * `BuildOk` is in range, so the default never shows up in a built problem. */
  function Entry(v: seq<real>, i: nat): real
  {
    if i < |v| then v[i] else 0.0
  }

  function Cell(m: seq<seq<real>>, i: nat, j: nat): real
  {
    if i < |m| && j < |m[i]| then m[i][j] else 0.0
  }

  function RowLength(m: seq<seq<real>>, i: nat): nat
  {
    if i < |m| then |m[i]| else 0
  }

  predicate Rectangular(rows: seq<seq<real>>)
  {
    forall i :: 0 <= i < |rows| ==> |rows[i]| == |rows[0]|
  }

  /** The array `np.loadtxt` returns: a 1x1 file becomes a 0-d array, a single row or a single
    * column is squeezed to a 1-D array, anything else stays 2-D. */
  datatype Loaded = Scalar(x: real) | Vector(v: seq<real>) | Matrix(rows: seq<seq<real>>)

  /** `np.loadtxt(route_branches_csv, delimiter=",")`; None where it raises (ragged rows). */
  function Loadtxt(rows: seq<seq<real>>): Option<Loaded>
  {
    if !Rectangular(rows) then None
    else if |rows| == 0 || |rows[0]| == 0 then Some(Vector([]))
    else if |rows| == 1 && |rows[0]| == 1 then Some(Scalar(rows[0][0]))
    else if |rows| == 1 then Some(Vector(rows[0]))
    else if |rows[0]| == 1 then Some(Vector(seq(|rows|, i requires 0 <= i < |rows| => rows[i][0])))
    else Some(Matrix(rows))
  }

  function Size(m: Loaded): nat
  {
    match m
    case Scalar(_) => 1
    case Vector(v) => |v|
    case Matrix(rows) => if |rows| == 0 then 0 else |rows| * |rows[0]|
  }

  predicate IsDiagonal(rows: seq<seq<real>>)
  {
    forall i, j :: 0 <= i < |rows| && 0 <= j < |rows[i]| && i != j ==> rows[i][j] == 0.0
  }

  /** `np.array_equal(M, np.diag(np.diag(M)))`, reached only when the size is not 1.
    * For a 1-D array `np.diag` first builds the diagonal matrix and then reads its diagonal
    * back, so the comparison is of `v` with itself. For a 2-D array it builds the square
    * diagonal matrix of side min(rows, columns), which has the shape of `M` only when `M` is square. */
  predicate EqualsDiagOfDiag(m: Loaded)
  {
    match m
    case Scalar(_) => true
    case Vector(_) => true
    case Matrix(rows) => Rectangular(rows) && |rows| > 0 && |rows| == |rows[0]| && IsDiagonal(rows)
  }

  /** model.py:36. */
  predicate Separable(m: Loaded)
  {
    Size(m) == 1 || EqualsDiagOfDiag(m)
  }

  /** A 2-D table with at least two rows and two columns is separable exactly when it is square
    * and every entry off the diagonal is zero, whatever the diagonal holds. */
  lemma SeparableMatrixIff(rows: seq<seq<real>>)
    requires Rectangular(rows) && |rows| >= 2 && |rows[0]| >= 2
    ensures Loadtxt(rows) == Some(Matrix(rows))
    ensures Separable(Loadtxt(rows).value) <==> |rows| == |rows[0]| && IsDiagonal(rows)
  {
    assert |rows| * |rows[0]| >= 2 * 2;
  }

  /** A rectangular table with more routes than branches (or fewer), two of each at least, is never separable. */
  lemma RectangularNotSeparable(rows: seq<seq<real>>)
    requires Rectangular(rows) && |rows| >= 2 && |rows[0]| >= 2 && |rows| != |rows[0]|
    ensures Loadtxt(rows).Some? && !Separable(Loadtxt(rows).value)
  {
    SeparableMatrixIff(rows);
  }

  /** A file with one row or one column loads as a 1-D array, and every 1-D array passes the test:
    * a single route serving several branches counts as separable. */
  lemma OneDimensionalSeparable(rows: seq<seq<real>>)
    requires Rectangular(rows) && |rows| > 0 && |rows[0]| > 0
    requires |rows| == 1 || |rows[0]| == 1
    ensures Loadtxt(rows).Some? && Separable(Loadtxt(rows).value)
  {
  }

  /** The branches and routes of one sub-problem. */
  datatype SubProblem = SubProblem(branches: seq<nat>, routes: seq<nat>)

  function Range(n: nat): (r: seq<nat>)
    ensures |r| == n && forall i :: 0 <= i < n ==> r[i] == i
  {
    seq(n, i requires 0 <= i < n => i)
  }

  /** model.py:41 and 114-116: one sub-problem `[p]`, `[p]` per branch p when separable,
    * otherwise a single one over every branch and route. */
  function SubProblems(p: Params, separable: bool): seq<SubProblem>
  {
    if separable then seq(p.nBranches, i requires 0 <= i < p.nBranches => SubProblem([i], [i]))
    else [SubProblem(Range(p.nBranches), Range(p.nRoutes))]
  }

  /** Whichever way the problem is split, each branch lies in exactly one sub-problem;
    * separable sub-problem p uses route p alone, the global one uses every route. */
  lemma DecompositionCoversEachBranchOnce(p: Params, separable: bool, b: nat)
    requires b < p.nBranches
    ensures exists k :: 0 <= k < |SubProblems(p, separable)| && b in SubProblems(p, separable)[k].branches
    ensures forall k, k' ::
      (0 <= k < |SubProblems(p, separable)| && 0 <= k' < |SubProblems(p, separable)| &&
       b in SubProblems(p, separable)[k].branches && b in SubProblems(p, separable)[k'].branches) ==> k == k'
    ensures |SubProblems(p, separable)| == if separable then p.nBranches else 1
    ensures forall k :: 0 <= k < |SubProblems(p, separable)| ==>
      SubProblems(p, separable)[k].routes == if separable then [k] else Range(p.nRoutes)
  {
    var subs := SubProblems(p, separable);
    if separable {
      assert b in subs[b].branches;
    } else {
      assert Range(p.nBranches)[b] == b;
      assert b in subs[0].branches;
    }
  }

  predicate RouteKept(subs: seq<SubProblem>, r: nat)
  {
    exists k :: 0 <= k < |subs| && r in subs[k].routes
  }

  /** A split of the routes into sub-problems that loses nothing: every route of the table lies in
    * some sub-problem, every sub-problem names only routes of the table, and each sub-problem
    * holds every branch its routes serve. */
  predicate SplitFaithful(rows: seq<seq<real>>, subs: seq<SubProblem>)
  {
    && (forall r :: 0 <= r < |rows| ==> RouteKept(subs, r))
    && (forall k, r :: 0 <= k < |subs| && r in subs[k].routes ==> r < |rows|)
    && (forall k, r, b :: 0 <= k < |subs| && r in subs[k].routes && r < |rows| && 0 <= b < |rows[r]| && rows[r][b] != 0.0 ==>
          b in subs[k].branches)
  }

  /** The test model.py:36 evidently means: routes and branches pair off one to one, each route
    * serving its own branch and no other. */
  predicate SeparableIntended(rows: seq<seq<real>>)
  {
    Rectangular(rows) && |rows| > 0 && |rows| == |rows[0]| && IsDiagonal(rows)
  }

  /** With one parameter per row and per column of the route table, the per-branch split loses
    * nothing exactly when the intended test holds, and the single global split never loses
    * anything: choosing the split by the intended test is always faithful. */
  lemma SeparableIntendedIsFaithful(rows: seq<seq<real>>, p: Params)
    requires Rectangular(rows) && |rows| > 0 && |rows[0]| > 0
    requires p.nRoutes == |rows| && p.nBranches == |rows[0]|
    ensures SplitFaithful(rows, SubProblems(p, true)) <==> SeparableIntended(rows)
    ensures SplitFaithful(rows, SubProblems(p, false))
    ensures SplitFaithful(rows, SubProblems(p, SeparableIntended(rows)))
  {
    var one, all := SubProblems(p, true), SubProblems(p, false);
    if SplitFaithful(rows, one) {
      assert |rows[0]| - 1 in one[|rows[0]| - 1].routes;
      assert |rows[0]| - 1 < |rows|;
      var last := |rows| - 1;
      assert RouteKept(one, last);
      var k :| 0 <= k < |one| && last in one[k].routes;
      assert one[k].routes == [k];
      forall i, j | 0 <= i < |rows| && 0 <= j < |rows[i]| && i != j
        ensures rows[i][j] == 0.0
      {
        assert i in one[i].routes;
      }
    }
    if SeparableIntended(rows) {
      forall r | 0 <= r < |rows|
        ensures RouteKept(one, r)
      {
        assert r in one[r].routes;
      }
    }
    forall r | 0 <= r < |rows|
      ensures RouteKept(all, r)
    {
      assert Range(p.nRoutes)[r] == r;
      assert r in all[0].routes;
    }
    forall r, b | r in all[0].routes && r < |rows| && 0 <= b < |rows[r]|
      ensures b in all[0].branches
    {
      assert Range(p.nBranches)[b] == b;
    }
  }

  /** As written, a table of one route over two branches loads as a 1-D array and passes the
    * test, and so does a table of two routes over one branch; neither split is faithful. */
  lemma SeparableAsWrittenLosesRoutes(p: Params)
    ensures var row := [[1.0, 1.0]];
      && Loadtxt(row) == Some(Vector([1.0, 1.0])) && Separable(Loadtxt(row).value)
      && (p.nRoutes == 1 && p.nBranches == 2 ==> !SplitFaithful(row, SubProblems(p, true)))
    ensures var column := [[1.0], [1.0]];
      && Loadtxt(column) == Some(Vector([1.0, 1.0])) && Separable(Loadtxt(column).value)
      && (p.nRoutes == 2 && p.nBranches == 1 ==> !SplitFaithful(column, SubProblems(p, true)))
  {
    var row, column := [[1.0, 1.0]], [[1.0], [1.0]];
    assert Loadtxt(column) == Some(Vector([1.0, 1.0])) by {
      assert seq(|column|, i requires 0 <= i < |column| => column[i][0]) == [1.0, 1.0];
    }
    if p.nRoutes == 1 && p.nBranches == 2 {
      var subs := SubProblems(p, true);
      assert 1 in subs[1].routes && !(1 < |row|);
    }
    if p.nRoutes == 2 && p.nBranches == 1 {
      var subs := SubProblems(p, true);
      assert subs == [SubProblem([0], [0])];
      assert !RouteKept(subs, 1);
    }
  }

  /** The tables hold every row `model_problem` reads with `iloc` (model.py:47-98); otherwise it
    * returns the unsolved triple. `read_csv` also raises on an empty route file. */
  predicate LoadOk(t: Tables, p: Params)
  {
    && |t.routeBranches| > 0
    && p.nRoutes <= |t.routeBranches|
    && p.nRoutes <= |t.costRoutes|
    && p.nBranches <= |t.cashInBranch|
    && p.nBranches <= |t.boxAmounts|
    && p.nRoutes <= |t.businessDays|
    && p.nBranches <= |t.collection|
  }

  /** Building the sub-problem raises no KeyError, IndexError or TypeError (model.py:111-220):
    * - the objective adds `sum(x[r].values()) * cost_routes[r]` to `None` for each route: with
    *   no day that sum is the number 0 and `None + 0.0` raises, and with no route the objective
    *   stays `None`, which `problem +=` refuses; `cost_routes` is a dict over the route range;
    * - the balance rows read `collection[b][d]` for every day;
    * - the big-M rows read `route_branches[r][b]`, the calendar rows `business_days[r][d]`;
    * - the mandatory rows read `x[r][d]` (a dict over the day range) for each listed day. */
  predicate BuildOk(t: Tables, p: Params, sp: SubProblem)
  {
    var B, R := sp.branches, sp.routes;
    && |R| > 0
    && p.nDays >= 1
    && (forall r :: r in R ==> r < p.nRoutes)
    && (forall b :: b in B ==> p.nDays <= RowLength(t.collection, b))
    && (forall r, b :: r in R && b in B ==> b < RowLength(t.routeBranches, r))
    && (forall r :: r in R ==> p.nDays <= RowLength(t.businessDays, r))
    && (|p.lastDays| > 0 && |B| > 0 ==> forall d :: d in p.lastDays ==> d < p.nDays)
  }
}
