/** A small instance of the model: one branch, one route serving it, three business days,
  * no opening cash, 10 collected each day, a box of 15 and no interest. Holding everything
  * would overflow the box on day 1, so every feasible plan dispatches the route on days 1 and 2
  * and costs at least two route costs. */
module WorkedExample {
  import opened Wrappers
  import opened Lp
  import opened CashData
  import opened Constraints
  import opened Feasibility
  import opened ModelProblem

  function Instance(cost: real): Tables
  {
    Tables([[1.0]], [cost], [0.0], [15.0], [[1.0, 1.0, 1.0]], [[10.0, 10.0, 10.0]])
  }

  const Horizon: Params := Params(3, 1, 1, [], 0.0, 0.0, "cbc", 4)

  const Only: SubProblem := SubProblem([0], [0])

  /** A 1x1 route table loads as a scalar, so the instance is one sub-problem per branch. */
  lemma InstancePlan(cost: real)
    ensures Plan(Instance(cost), Horizon) == Some([Only])
  {
    assert Loadtxt(Instance(cost).routeBranches) == Some(Scalar(1.0));
    assert SubProblems(Horizon, true) == [Only];
  }

  lemma WithdrawalsNonNegative(t: Tables, a: Assignment, d: nat)
    requires Feasible(a, t, Horizon, Only) && d < 3
    ensures SumT(a, 0, d, [0]) == a(T(0, d, 0)) && a(T(0, d, 0)) >= 0.0
  {
    DeclaredInBounds(Horizon, Only, a, T(0, d, 0));
    assert [0][..0] == [];
  }

  lemma BalancesOfInstance(cost: real, a: Assignment)
    requires Feasible(a, Instance(cost), Horizon, Only)
    ensures a(E(0, 0)) == 10.0 - a(T(0, 0, 0))
    ensures a(E(0, 1)) == a(E(0, 0)) + 10.0 - a(T(0, 1, 0))
    ensures a(E(0, 2)) == a(E(0, 1)) + 10.0 - a(T(0, 2, 0))
  {
    var t := Instance(cost);
    WithdrawalsNonNegative(t, a, 0);
    WithdrawalsNonNegative(t, a, 1);
    WithdrawalsNonNegative(t, a, 2);
    BalanceIsPrefixSum(t, Horizon, Only, a, 0, 0);
    BalanceIsPrefixSum(t, Horizon, Only, a, 0, 1);
    BalanceIsPrefixSum(t, Horizon, Only, a, 0, 2);
  }

  /** Every feasible plan dispatches on days 1 and 2 (counting from 0). */
  lemma DispatchesForced(cost: real, a: Assignment)
    requires Feasible(a, Instance(cost), Horizon, Only)
    ensures a(X(1, 0)) == 1.0 && a(X(2, 0)) == 1.0
  {
    var t := Instance(cost);
    BalancesOfInstance(cost, a);
    WithdrawalsNonNegative(t, a, 0);
    WithdrawalsNonNegative(t, a, 1);
    WithdrawalsNonNegative(t, a, 2);
    WithdrawalCoveredByPreviousBalance(t, Horizon, Only, a, 0, 0);
    WithdrawalCoveredByPreviousBalance(t, Horizon, Only, a, 0, 1);
    WithdrawalCoveredByPreviousBalance(t, Horizon, Only, a, 0, 2);
    BoxCapacityRespected(t, Horizon, Only, a, 0, 1);
    BoxCapacityRespected(t, Horizon, Only, a, 0, 2);
    assert a(T(0, 1, 0)) >= 5.0;
    assert a(T(0, 2, 0)) >= 5.0;
    WithdrawalForcesDispatch(t, Horizon, Only, a, 0, 1, 0);
    WithdrawalForcesDispatch(t, Horizon, Only, a, 0, 2, 0);
  }

  /** With a non-negative route cost, every feasible plan costs at least two dispatches. */
  lemma CostAtLeastTwoDispatches(cost: real, a: Assignment)
    requires cost >= 0.0 && Feasible(a, Instance(cost), Horizon, Only)
    ensures Value(Objective(Instance(cost), Horizon, Only), a) >= 2.0 * cost
  {
    var t := Instance(cost);
    DispatchesForced(cost, a);
    DeclaredInBounds(Horizon, Only, a, X(0, 0));
    ObjectiveValue(t, Horizon, Only, a);
    assert Dispatches(a, 0, 3) == a(X(0, 0)) + a(X(1, 0)) + a(X(2, 0));
    assert DispatchCost(t, a, [0], 1, 3) == cost * Dispatches(a, 0, 3);
    assert Dispatches(a, 0, 3) >= 2.0;
    Scale(cost, Dispatches(a, 0, 3), 2.0);
  }

  lemma Scale(c: real, x: real, y: real)
    requires c >= 0.0 && x >= y
    ensures c * x >= c * y
  {
  }
}
