/** The sub-problem that `model_problem` builds (model.py:111-220): its variables, its objective
  * and its seven families of constraint rows. Each family is specified by a grid of rows (one
  * cell per iteration of the source's nested loops) and built by a method with those loops. */
module Constraints {
  import opened Seqs
  import opened Lp
  import opened CashData

  /** model.py:6. */
  const BIG_M: real := 30000000.0

  /** Days strictly before the last one (`days[:-1]`). */
  function DaysBeforeLast(nDays: nat): nat
  {
    if nDays == 0 then 0 else nDays - 1
  }

  // ---------------------------------------------------------------- variables (model.py:119-155)

  function XGrid(p: Params, sp: SubProblem): seq<seq<Var>>
  {
    var R := sp.routes;
    seq(|R|, j requires 0 <= j < |R| => seq(p.nDays, d requires 0 <= d < p.nDays => X(d, R[j])))
  }

  function EGrid(p: Params, sp: SubProblem): seq<seq<Var>>
  {
    var B := sp.branches;
    seq(|B|, i requires 0 <= i < |B| => seq(p.nDays, d requires 0 <= d < p.nDays => E(B[i], d)))
  }

  function TGridOfBranch(p: Params, sp: SubProblem, b: nat): seq<seq<Var>>
  {
    var R := sp.routes;
    seq(p.nDays, d requires 0 <= d < p.nDays => seq(|R|, j requires 0 <= j < |R| => T(b, d, R[j])))
  }

  function TGrid(p: Params, sp: SubProblem): seq<seq<Var>>
  {
    var B := sp.branches;
    seq(|B|, i requires 0 <= i < |B| => Flatten(TGridOfBranch(p, sp, B[i])))
  }

  /** The variables of a sub-problem: the `x` dict by route then day, `e` by branch then day,
    * `t` by branch, day, route. */
  function Declared(p: Params, sp: SubProblem): seq<Var>
  {
    Flatten(XGrid(p, sp)) + Flatten(EGrid(p, sp)) + Flatten(TGrid(p, sp))
  }

  /** True of exactly the variables a sub-problem over branches B, routes R and `nDays` days declares. */
  predicate Wanted(p: Params, sp: SubProblem, v: Var)
  {
    match v
    case X(d, r) => d < p.nDays && r in sp.routes
    case E(b, d) => b in sp.branches && d < p.nDays
    case T(b, d, r) => b in sp.branches && d < p.nDays && r in sp.routes
  }

  // ---------------------------------------------------------------- rows (model.py:172-220)

  /** `[coeff * t[b][d][r] for r in routes]`. */
  function Withdrawals(b: nat, d: nat, R: seq<nat>, coeff: real): seq<Term>
  {
    seq(|R|, j requires 0 <= j < |R| => Term(coeff, T(b, d, R[j])))
  }

  /** model.py:175 (day 0) and 177-181: e[b,d] == e[b,d-1] + collection[b][d] - sum_r t[b,d,r],
    * with the opening cash in place of e[b,-1]. */
  function BalanceRow(t: Tables, b: nat, d: nat, R: seq<nat>): Row
  {
    if d == 0 then
      Row(LinExpr([Term(1.0, E(b, 0))], 0.0), Eq,
          LinExpr(Withdrawals(b, 0, R, -1.0), Entry(t.cashInBranch, b) + Cell(t.collection, b, 0)))
    else
      Row(LinExpr([Term(1.0, E(b, d))], 0.0), Eq,
          LinExpr([Term(1.0, E(b, d - 1))] + Withdrawals(b, d, R, -1.0), Cell(t.collection, b, d)))
  }

  /** model.py:187: sum_b route_branches[r][b] * t[b,d,r] <= BIG_M * x[d,r]. */
  function BigMRow(t: Tables, B: seq<nat>, d: nat, r: nat): Row
  {
    Row(LinExpr(seq(|B|, i requires 0 <= i < |B| => Term(Cell(t.routeBranches, r, B[i]), T(B[i], d, r))), 0.0),
        Le, LinExpr([Term(BIG_M, X(d, r))], 0.0))
  }

  /** model.py:193: sum_b (1 - route_branches[r][b]) * t[b,d,r] == 0. */
  function NonIncidenceRow(t: Tables, B: seq<nat>, d: nat, r: nat): Row
  {
    Row(LinExpr(seq(|B|, i requires 0 <= i < |B| => Term(1.0 - Cell(t.routeBranches, r, B[i]), T(B[i], d, r))), 0.0),
        Eq, LinExpr([], 0.0))
  }

  /** model.py:199: e[b,d] <= box_max[b] * (1 + extra_box_percent). */
  function BoxRow(t: Tables, p: Params, b: nat, d: nat): Row
  {
    Row(LinExpr([Term(1.0, E(b, d))], 0.0), Le, LinExpr([], Entry(t.boxAmounts, b) * (1.0 + p.extraBox)))
  }

  /** model.py:204 (day 0) and 206: sum_r t[b,d,r] <= e[b,d-1], the opening cash on day 0. */
  function WithdrawalRow(t: Tables, b: nat, d: nat, R: seq<nat>): Row
  {
    if d == 0 then
      Row(LinExpr(Withdrawals(b, 0, R, 1.0), 0.0), Le, LinExpr([], Entry(t.cashInBranch, b)))
    else
      Row(LinExpr(Withdrawals(b, d, R, 1.0), 0.0), Le, LinExpr([Term(1.0, E(b, d - 1))], 0.0))
  }

  /** model.py:212: x[d,r] <= business_days[r][d]. */
  function CalendarRow(t: Tables, d: nat, r: nat): Row
  {
    Row(LinExpr([Term(1.0, X(d, r))], 0.0), Le, LinExpr([], Cell(t.businessDays, r, d)))
  }

  function MandatoryGrid(t: Tables, p: Params, b: nat, R: seq<nat>): seq<seq<Term>>
  {
    var L := p.lastDays;
    seq(|R|, j requires 0 <= j < |R| =>
      seq(|L|, k requires 0 <= k < |L| => Term(Cell(t.routeBranches, R[j], b), X(L[k], R[j]))))
  }

  /** model.py:217-220: sum over routes r and listed days d of route_branches[r][b] * x[d,r] >= 1. */
  function MandatoryRow(t: Tables, p: Params, b: nat, R: seq<nat>): Row
  {
    Row(LinExpr(Flatten(MandatoryGrid(t, p, b, R)), 0.0), Ge, LinExpr([], 1.0))
  }

  function BalanceGrid(t: Tables, p: Params, sp: SubProblem): seq<seq<Row>>
  {
    var B, R := sp.branches, sp.routes;
    seq(|B|, i requires 0 <= i < |B| => seq(p.nDays, d requires 0 <= d < p.nDays => BalanceRow(t, B[i], d, R)))
  }

  function BigMGrid(t: Tables, p: Params, sp: SubProblem): seq<seq<Row>>
  {
    var B, R := sp.branches, sp.routes;
    seq(p.nDays, d requires 0 <= d < p.nDays => seq(|R|, j requires 0 <= j < |R| => BigMRow(t, B, d, R[j])))
  }

  function NonIncidenceGrid(t: Tables, p: Params, sp: SubProblem): seq<seq<Row>>
  {
    var B, R := sp.branches, sp.routes;
    seq(p.nDays, d requires 0 <= d < p.nDays => seq(|R|, j requires 0 <= j < |R| => NonIncidenceRow(t, B, d, R[j])))
  }

  function BoxGrid(t: Tables, p: Params, sp: SubProblem): seq<seq<Row>>
  {
    var B := sp.branches;
    seq(p.nDays, d requires 0 <= d < p.nDays => seq(|B|, i requires 0 <= i < |B| => BoxRow(t, p, B[i], d)))
  }

  function WithdrawalGrid(t: Tables, p: Params, sp: SubProblem): seq<seq<Row>>
  {
    var B, R := sp.branches, sp.routes;
    seq(|B|, i requires 0 <= i < |B| => seq(p.nDays, d requires 0 <= d < p.nDays => WithdrawalRow(t, B[i], d, R)))
  }

  function CalendarGrid(t: Tables, p: Params, sp: SubProblem): seq<seq<Row>>
  {
    var R := sp.routes;
    seq(p.nDays, d requires 0 <= d < p.nDays => seq(|R|, j requires 0 <= j < |R| => CalendarRow(t, d, R[j])))
  }

  /** PuLP drops a constraint that Python has already evaluated to `True`: with no branch, each
    * non-incidence row is `0 == 0` and is not added. */
  function NonIncidenceRows(t: Tables, p: Params, sp: SubProblem): seq<Row>
  {
    if |sp.branches| == 0 then [] else Flatten(NonIncidenceGrid(t, p, sp))
  }

  function MandatoryRows(t: Tables, p: Params, sp: SubProblem): seq<Row>
  {
    var B, R := sp.branches, sp.routes;
    if |p.lastDays| > 0 then seq(|B|, i requires 0 <= i < |B| => MandatoryRow(t, p, B[i], R)) else []
  }

  /** Every row of the sub-problem, in the order the source adds them. */
  function Rows(t: Tables, p: Params, sp: SubProblem): seq<Row>
  {
    Flatten(BalanceGrid(t, p, sp)) + Flatten(BigMGrid(t, p, sp)) + NonIncidenceRows(t, p, sp)
    + Flatten(BoxGrid(t, p, sp)) + Flatten(WithdrawalGrid(t, p, sp)) + Flatten(CalendarGrid(t, p, sp))
    + MandatoryRows(t, p, sp)
  }

  // ---------------------------------------------------------------- objective (model.py:159-168)

  /** `sum(x[r].values()) * cost_routes[r]`. */
  function RouteCostTerms(c: real, r: nat, nDays: nat): seq<Term>
  {
    seq(nDays, d requires 0 <= d < nDays => Term(c, X(d, r)))
  }

  /** The cost terms of the first k routes. */
  function CostTerms(t: Tables, p: Params, R: seq<nat>, k: nat): seq<Term>
    requires k <= |R|
  {
    if k == 0 then [] else CostTerms(t, p, R, k - 1) + RouteCostTerms(Entry(t.costRoutes, R[k - 1]), R[k - 1], p.nDays)
  }

  function BranchInterestTerms(rate: real, b: nat, n: nat): seq<Term>
  {
    seq(n, d requires 0 <= d < n => Term(rate, E(b, d)))
  }

  /** `[e[b][d] * rate for b in branches for d in days[:-1]]` over the first k branches. */
  function InterestTerms(p: Params, B: seq<nat>, k: nat): seq<Term>
    requires k <= |B|
  {
    if k == 0 then [] else InterestTerms(p, B, k - 1) + BranchInterestTerms(p.rate, B[k - 1], DaysBeforeLast(p.nDays))
  }

  /** `sum([first_cash_in_branch[b] * rate for b in branches])` over the first k branches. */
  function OpeningInterest(t: Tables, p: Params, B: seq<nat>, k: nat): real
    requires k <= |B|
  {
    if k == 0 then 0.0 else OpeningInterest(t, p, B, k - 1) + Entry(t.cashInBranch, B[k - 1]) * p.rate
  }

  function Objective(t: Tables, p: Params, sp: SubProblem): LinExpr
  {
    var B, R := sp.branches, sp.routes;
    if p.rate > 0.0 then
      LinExpr(CostTerms(t, p, R, |R|) + InterestTerms(p, B, |B|), OpeningInterest(t, p, B, |B|))
    else
      LinExpr(CostTerms(t, p, R, |R|), 0.0)
  }

  // ---------------------------------------------------------------- builders

  /** The objective loop of model.py:160-166. */
  method BuildObjective(t: Tables, p: Params, sp: SubProblem) returns (obj: LinExpr)
    ensures obj == Objective(t, p, sp)
  {
    var B, R := sp.branches, sp.routes;
    var terms: seq<Term> := [];
    for j := 0 to |R|
      invariant terms == CostTerms(t, p, R, j)
    {
      terms := terms + RouteCostTerms(Entry(t.costRoutes, R[j]), R[j], p.nDays);
    }
    obj := LinExpr(terms, 0.0);
    if p.rate > 0.0 {
      obj := LinExpr(obj.terms + InterestTerms(p, B, |B|), OpeningInterest(t, p, B, |B|));
    }
  }

  /** model.py:174-181. */
  method AddBalanceRows(t: Tables, p: Params, sp: SubProblem, rows0: seq<Row>) returns (rows: seq<Row>)
    requires p.nDays >= 1
    ensures rows == rows0 + Flatten(BalanceGrid(t, p, sp))
  {
    var B, R := sp.branches, sp.routes;
    ghost var G := BalanceGrid(t, p, sp);
    rows := rows0;
    for i := 0 to |B|
      invariant rows == rows0 + Flatten(G[..i])
    {
      rows := rows + [BalanceRow(t, B[i], 0, R)];
      assert G[i][..1] == [BalanceRow(t, B[i], 0, R)];
      for d := 1 to p.nDays
        invariant rows == rows0 + Flatten(G[..i]) + G[i][..d]
      {
        rows := rows + [BalanceRow(t, B[i], d, R)];
        assert G[i][..d + 1] == G[i][..d] + [G[i][d]];
      }
      assert G[i][..p.nDays] == G[i];
      FlattenSnoc(G, i);
    }
    FlattenWhole(G);
  }

  /** model.py:185-187. */
  method AddBigMRows(t: Tables, p: Params, sp: SubProblem, rows0: seq<Row>) returns (rows: seq<Row>)
    ensures rows == rows0 + Flatten(BigMGrid(t, p, sp))
  {
    var B, R := sp.branches, sp.routes;
    ghost var G := BigMGrid(t, p, sp);
    rows := rows0;
    for d := 0 to p.nDays
      invariant rows == rows0 + Flatten(G[..d])
    {
      for j := 0 to |R|
        invariant rows == rows0 + Flatten(G[..d]) + G[d][..j]
      {
        rows := rows + [BigMRow(t, B, d, R[j])];
        assert G[d][..j + 1] == G[d][..j] + [G[d][j]];
      }
      assert G[d][..|R|] == G[d];
      FlattenSnoc(G, d);
    }
    FlattenWhole(G);
  }

  /** model.py:191-193. */
  method AddNonIncidenceRows(t: Tables, p: Params, sp: SubProblem, rows0: seq<Row>) returns (rows: seq<Row>)
    ensures rows == rows0 + NonIncidenceRows(t, p, sp)
  {
    var B, R := sp.branches, sp.routes;
    ghost var G := NonIncidenceGrid(t, p, sp);
    rows := rows0;
    if |B| == 0 {
      return;
    }
    for d := 0 to p.nDays
      invariant rows == rows0 + Flatten(G[..d])
    {
      for j := 0 to |R|
        invariant rows == rows0 + Flatten(G[..d]) + G[d][..j]
      {
        rows := rows + [NonIncidenceRow(t, B, d, R[j])];
        assert G[d][..j + 1] == G[d][..j] + [G[d][j]];
      }
      assert G[d][..|R|] == G[d];
      FlattenSnoc(G, d);
    }
    FlattenWhole(G);
  }

  /** model.py:197-199. */
  method AddBoxRows(t: Tables, p: Params, sp: SubProblem, rows0: seq<Row>) returns (rows: seq<Row>)
    ensures rows == rows0 + Flatten(BoxGrid(t, p, sp))
  {
    var B := sp.branches;
    ghost var G := BoxGrid(t, p, sp);
    rows := rows0;
    for d := 0 to p.nDays
      invariant rows == rows0 + Flatten(G[..d])
    {
      for i := 0 to |B|
        invariant rows == rows0 + Flatten(G[..d]) + G[d][..i]
      {
        rows := rows + [BoxRow(t, p, B[i], d)];
        assert G[d][..i + 1] == G[d][..i] + [G[d][i]];
      }
      assert G[d][..|B|] == G[d];
      FlattenSnoc(G, d);
    }
    FlattenWhole(G);
  }

  /** model.py:203-206. */
  method AddWithdrawalRows(t: Tables, p: Params, sp: SubProblem, rows0: seq<Row>) returns (rows: seq<Row>)
    requires p.nDays >= 1
    ensures rows == rows0 + Flatten(WithdrawalGrid(t, p, sp))
  {
    var B, R := sp.branches, sp.routes;
    ghost var G := WithdrawalGrid(t, p, sp);
    rows := rows0;
    for i := 0 to |B|
      invariant rows == rows0 + Flatten(G[..i])
    {
      rows := rows + [WithdrawalRow(t, B[i], 0, R)];
      assert G[i][..1] == [WithdrawalRow(t, B[i], 0, R)];
      for d := 1 to p.nDays
        invariant rows == rows0 + Flatten(G[..i]) + G[i][..d]
      {
        rows := rows + [WithdrawalRow(t, B[i], d, R)];
        assert G[i][..d + 1] == G[i][..d] + [G[i][d]];
      }
      assert G[i][..p.nDays] == G[i];
      FlattenSnoc(G, i);
    }
    FlattenWhole(G);
  }

  /** model.py:210-212. */
  method AddCalendarRows(t: Tables, p: Params, sp: SubProblem, rows0: seq<Row>) returns (rows: seq<Row>)
    ensures rows == rows0 + Flatten(CalendarGrid(t, p, sp))
  {
    var R := sp.routes;
    ghost var G := CalendarGrid(t, p, sp);
    rows := rows0;
    for d := 0 to p.nDays
      invariant rows == rows0 + Flatten(G[..d])
    {
      for j := 0 to |R|
        invariant rows == rows0 + Flatten(G[..d]) + G[d][..j]
      {
        rows := rows + [CalendarRow(t, d, R[j])];
        assert G[d][..j + 1] == G[d][..j] + [G[d][j]];
      }
      assert G[d][..|R|] == G[d];
      FlattenSnoc(G, d);
    }
    FlattenWhole(G);
  }

  /** model.py:215-220. */
  method AddMandatoryRows(t: Tables, p: Params, sp: SubProblem, rows0: seq<Row>) returns (rows: seq<Row>)
    ensures rows == rows0 + MandatoryRows(t, p, sp)
  {
    var B, R := sp.branches, sp.routes;
    rows := rows0;
    if |p.lastDays| > 0 {
      ghost var M := MandatoryRows(t, p, sp);
      for i := 0 to |B|
        invariant rows == rows0 + M[..i]
      {
        rows := rows + [MandatoryRow(t, p, B[i], R)];
        assert M[..i + 1] == M[..i] + [M[i]];
      }
      assert M[..|B|] == M;
    }
  }

  /** All constraint loops of model.py:174-220, in order. */
  method BuildRows(t: Tables, p: Params, sp: SubProblem) returns (rows: seq<Row>)
    requires BuildOk(t, p, sp)
    ensures rows == Rows(t, p, sp)
  {
    ghost var balance, bigM, box := Flatten(BalanceGrid(t, p, sp)), Flatten(BigMGrid(t, p, sp)), Flatten(BoxGrid(t, p, sp));
    ghost var withdrawal, calendar := Flatten(WithdrawalGrid(t, p, sp)), Flatten(CalendarGrid(t, p, sp));
    rows := AddBalanceRows(t, p, sp, []);
    assert rows == balance;
    rows := AddBigMRows(t, p, sp, rows);
    rows := AddNonIncidenceRows(t, p, sp, rows);
    assert rows == balance + bigM + NonIncidenceRows(t, p, sp);
    rows := AddBoxRows(t, p, sp, rows);
    rows := AddWithdrawalRows(t, p, sp, rows);
    rows := AddCalendarRows(t, p, sp, rows);
    assert rows == balance + bigM + NonIncidenceRows(t, p, sp) + box + withdrawal + calendar;
    rows := AddMandatoryRows(t, p, sp, rows);
  }
}
