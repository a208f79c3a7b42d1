/** What every assignment satisfying a sub-problem's rows must look like, what the objective
  * charges, and how many variables and rows a sub-problem has. */
module Feasibility {
  import opened Seqs
  import opened Lp
  import opened CashData
  import opened Constraints

  /** Within bounds on every declared variable and satisfying every row: what a solver reports as feasible. */
  predicate Feasible(a: Assignment, t: Tables, p: Params, sp: SubProblem)
  {
    && SatisfiesAll(a, Rows(t, p, sp))
    && forall v :: v in Declared(p, sp) ==> InBounds(a, v)
  }

  /** The source reads the route table as 0/1 incidences; nothing checks it. */
  predicate IncidenceIsBinary(t: Tables, sp: SubProblem)
  {
    forall r, b :: r in sp.routes && b in sp.branches ==>
      Cell(t.routeBranches, r, b) == 0.0 || Cell(t.routeBranches, r, b) == 1.0
  }

  lemma SatisfiesMember(a: Assignment, rows: seq<Row>, row: Row)
    requires SatisfiesAll(a, rows) && row in rows
    ensures Satisfies(a, row)
  {
    var i :| 0 <= i < |rows| && rows[i] == row;
  }

  // ---------------------------------------------------------------- variables

  /** The declared variables are exactly one `x` per (day, route), one `e` per (branch, day)
    * and one `t` per (branch, day, route) of the sub-problem. */
  lemma DeclaredExactly(p: Params, sp: SubProblem, v: Var)
    ensures v in Declared(p, sp) <==> Wanted(p, sp, v)
  {
    XDeclared(p, sp, v);
    EDeclared(p, sp, v);
    TDeclared(p, sp, v);
  }

  lemma XDeclared(p: Params, sp: SubProblem, v: Var)
    ensures v in Flatten(XGrid(p, sp)) <==> v.X? && v.day < p.nDays && v.route in sp.routes
  {
    var R, XG := sp.routes, XGrid(p, sp);
    if v in Flatten(XG) {
      FlattenMemberInv(XG, v);
    }
    if v.X? && v.day < p.nDays && v.route in R {
      var j :| 0 <= j < |R| && R[j] == v.route;
      FlattenMember(XG, j, v.day);
    }
  }

  lemma EDeclared(p: Params, sp: SubProblem, v: Var)
    ensures v in Flatten(EGrid(p, sp)) <==> v.E? && v.branch in sp.branches && v.day < p.nDays
  {
    var B, EG := sp.branches, EGrid(p, sp);
    if v in Flatten(EG) {
      FlattenMemberInv(EG, v);
    }
    if v.E? && v.branch in B && v.day < p.nDays {
      var i :| 0 <= i < |B| && B[i] == v.branch;
      FlattenMember(EG, i, v.day);
    }
  }

  lemma TDeclared(p: Params, sp: SubProblem, v: Var)
    ensures v in Flatten(TGrid(p, sp)) <==> v.T? && v.branch in sp.branches && v.day < p.nDays && v.route in sp.routes
  {
    var B, R, TG := sp.branches, sp.routes, TGrid(p, sp);
    if v in Flatten(TG) {
      FlattenMemberInv(TG, v);
      var i, k :| 0 <= i < |TG| && 0 <= k < |TG[i]| && TG[i][k] == v;
      FlattenMemberInv(TGridOfBranch(p, sp, B[i]), v);
    }
    if v.T? && v.branch in B && v.day < p.nDays && v.route in R {
      var i :| 0 <= i < |B| && B[i] == v.branch;
      var j :| 0 <= j < |R| && R[j] == v.route;
      FlattenMember(TGridOfBranch(p, sp, v.branch), v.day, j);
      assert v in TG[i];
      var k :| 0 <= k < |TG[i]| && TG[i][k] == v;
      FlattenMember(TG, i, k);
    }
  }

  /** With no branch or route listed twice, no variable is declared twice; since names are
    * injective, the names are distinct too. */
  lemma DeclaredNoDuplicates(p: Params, sp: SubProblem)
    requires NoDup(sp.branches) && NoDup(sp.routes)
    ensures NoDup(Declared(p, sp))
    ensures forall i, j :: 0 <= i < j < |Declared(p, sp)| ==> Name(Declared(p, sp)[i]) != Name(Declared(p, sp)[j])
  {
    var XS, ES, TS := Flatten(XGrid(p, sp)), Flatten(EGrid(p, sp)), Flatten(TGrid(p, sp));
    FlattenNoDup(XGrid(p, sp));
    FlattenNoDup(EGrid(p, sp));
    TGridNoDup(p, sp);
    forall x | x in XS ensures x !in ES {
      XDeclared(p, sp, x);
      EDeclared(p, sp, x);
    }
    NoDupAppend(XS, ES);
    forall x | x in XS + ES ensures x !in TS {
      XDeclared(p, sp, x);
      EDeclared(p, sp, x);
      TDeclared(p, sp, x);
    }
    NoDupAppend(XS + ES, TS);
    NamesDistinct(Declared(p, sp));
  }

  /** The `t` variables, branch by branch, are all distinct. */
  lemma TGridNoDup(p: Params, sp: SubProblem)
    requires NoDup(sp.branches) && NoDup(sp.routes)
    ensures NoDup(Flatten(TGrid(p, sp)))
  {
    var B, TG := sp.branches, TGrid(p, sp);
    forall i | 0 <= i < |B|
      ensures NoDup(TG[i])
    {
      FlattenNoDup(TGridOfBranch(p, sp, B[i]));
    }
    forall i, k, x | 0 <= i < k < |TG| && x in TG[i]
      ensures x !in TG[k]
    {
      FlattenMemberInv(TGridOfBranch(p, sp, B[i]), x);
      if x in TG[k] {
        FlattenMemberInv(TGridOfBranch(p, sp, B[k]), x);
      }
    }
    FlattenNoDup(TG);
  }

  /** Distinct variables have distinct names. */
  lemma NamesDistinct(vs: seq<Var>)
    requires NoDup(vs)
    ensures forall i, j :: 0 <= i < j < |vs| ==> Name(vs[i]) != Name(vs[j])
  {
    forall i, j | 0 <= i < j < |vs|
      ensures Name(vs[i]) != Name(vs[j])
    {
      if Name(vs[i]) == Name(vs[j]) {
        NameInjective(vs[i], vs[j]);
      }
    }
  }

  lemma DeclaredCount(p: Params, sp: SubProblem)
    ensures |Declared(p, sp)| == p.nDays * |sp.routes| + |sp.branches| * p.nDays + |sp.branches| * (p.nDays * |sp.routes|)
  {
    var B := sp.branches;
    FlattenUniformLength(XGrid(p, sp), p.nDays);
    FlattenUniformLength(EGrid(p, sp), p.nDays);
    forall i | 0 <= i < |B|
      ensures |TGrid(p, sp)[i]| == p.nDays * |sp.routes|
    {
      FlattenUniformLength(TGridOfBranch(p, sp, B[i]), |sp.routes|);
    }
    FlattenUniformLength(TGrid(p, sp), p.nDays * |sp.routes|);
  }

  // ---------------------------------------------------------------- sums

  /** sum_r t[b,d,r] over the routes of R. */
  function SumT(a: Assignment, b: nat, d: nat, R: seq<nat>): real
    decreases |R|
  {
    if |R| == 0 then 0.0 else SumT(a, b, d, R[..|R| - 1]) + a(T(b, d, R[|R| - 1]))
  }

  lemma {:induction false} EvalWithdrawals(a: Assignment, b: nat, d: nat, R: seq<nat>, c: real)
    ensures Eval(Withdrawals(b, d, R, c), a) == c * SumT(a, b, d, R)
    decreases |R|
  {
    if |R| > 0 {
      assert Withdrawals(b, d, R, c)[..|R| - 1] == Withdrawals(b, d, R[..|R| - 1], c);
      EvalWithdrawals(a, b, d, R[..|R| - 1], c);
    }
  }

  // ---------------------------------------------------------------- balance recurrence

  /** Opening cash plus the collections of days 0..d minus everything withdrawn on those days. */
  function Balance(t: Tables, a: Assignment, b: nat, d: nat, R: seq<nat>): real
    decreases d
  {
    (if d == 0 then Entry(t.cashInBranch, b) else Balance(t, a, b, d - 1, R))
    + Cell(t.collection, b, d) - SumT(a, b, d, R)
  }

  lemma EvalSingle(c: real, v: Var, a: Assignment)
    ensures Eval([Term(c, v)], a) == c * a(v)
  {
    assert [Term(c, v)][..0] == [];
  }

  lemma BalanceRowMeaning(t: Tables, a: Assignment, b: nat, d: nat, R: seq<nat>)
    ensures Satisfies(a, BalanceRow(t, b, d, R)) <==>
      a(E(b, d)) == (if d == 0 then Entry(t.cashInBranch, b) else a(E(b, d - 1))) + Cell(t.collection, b, d) - SumT(a, b, d, R)
  {
    EvalSingle(1.0, E(b, d), a);
    BalanceRowRhs(t, a, b, d, R);
  }

  lemma BalanceRowRhs(t: Tables, a: Assignment, b: nat, d: nat, R: seq<nat>)
    ensures Value(BalanceRow(t, b, d, R).rhs, a) ==
      (if d == 0 then Entry(t.cashInBranch, b) else a(E(b, d - 1))) + Cell(t.collection, b, d) - SumT(a, b, d, R)
  {
    EvalWithdrawals(a, b, d, R, -1.0);
    if d > 0 {
      EvalSingle(1.0, E(b, d - 1), a);
      EvalAppend([Term(1.0, E(b, d - 1))], Withdrawals(b, d, R, -1.0), a);
    }
  }

  lemma BalanceRowIn(t: Tables, p: Params, sp: SubProblem, b: nat, d: nat)
    requires b in sp.branches && d < p.nDays
    ensures BalanceRow(t, b, d, sp.routes) in Rows(t, p, sp)
  {
    var i :| 0 <= i < |sp.branches| && sp.branches[i] == b;
    FlattenMember(BalanceGrid(t, p, sp), i, d);
  }

  /** Once the withdrawals are fixed, the balance rows leave one value for each `e[b,d]`: the prefix sum. */
  lemma {:induction false} BalanceIsPrefixSum(t: Tables, p: Params, sp: SubProblem, a: Assignment, b: nat, d: nat)
    requires SatisfiesAll(a, Rows(t, p, sp))
    requires b in sp.branches && d < p.nDays
    ensures a(E(b, d)) == Balance(t, a, b, d, sp.routes)
    decreases d
  {
    BalanceRowIn(t, p, sp, b, d);
    SatisfiesMember(a, Rows(t, p, sp), BalanceRow(t, b, d, sp.routes));
    BalanceRowMeaning(t, a, b, d, sp.routes);
    if d > 0 {
      BalanceIsPrefixSum(t, p, sp, a, b, d - 1);
    }
  }

  /** Conversely, cash equal to the prefix sums satisfies every balance row. */
  lemma {:induction false} PrefixSumSatisfiesBalance(t: Tables, p: Params, sp: SubProblem, a: Assignment)
    requires forall b: nat, d: nat :: b in sp.branches && d < p.nDays ==> a(E(b, d)) == Balance(t, a, b, d, sp.routes)
    ensures SatisfiesAll(a, Flatten(BalanceGrid(t, p, sp)))
  {
    var G := BalanceGrid(t, p, sp);
    var rows := Flatten(G);
    forall k | 0 <= k < |rows|
      ensures Satisfies(a, rows[k])
    {
      assert rows[k] in rows;
      FlattenMemberInv(G, rows[k]);
      var i, d :| 0 <= i < |G| && 0 <= d < |G[i]| && G[i][d] == rows[k];
      var b := sp.branches[i];
      BalanceRowMeaning(t, a, b, d, sp.routes);
      if d > 0 {
        assert a(E(b, d - 1)) == Balance(t, a, b, d - 1, sp.routes);
      }
    }
  }

  // ---------------------------------------------------------------- big-M link and non-incidence

  lemma BigMRowIn(t: Tables, p: Params, sp: SubProblem, d: nat, r: nat)
    requires r in sp.routes && d < p.nDays
    ensures BigMRow(t, sp.branches, d, r) in Rows(t, p, sp)
  {
    var j :| 0 <= j < |sp.routes| && sp.routes[j] == r;
    FlattenMember(BigMGrid(t, p, sp), d, j);
  }

  lemma NonIncidenceRowIn(t: Tables, p: Params, sp: SubProblem, d: nat, r: nat)
    requires r in sp.routes && d < p.nDays && |sp.branches| > 0
    ensures NonIncidenceRow(t, sp.branches, d, r) in Rows(t, p, sp)
  {
    var j :| 0 <= j < |sp.routes| && sp.routes[j] == r;
    FlattenMember(NonIncidenceGrid(t, p, sp), d, j);
  }

  /** The bounds of a declared variable. */
  lemma DeclaredInBounds(p: Params, sp: SubProblem, a: Assignment, v: Var)
    requires forall v :: v in Declared(p, sp) ==> InBounds(a, v)
    requires Wanted(p, sp, v)
    ensures InBounds(a, v)
  {
    DeclaredExactly(p, sp, v);
  }

  /** Each incident withdrawal is at most BIG_M times the route's binary. */
  lemma BigMRowBound(t: Tables, a: Assignment, B: seq<nat>, d: nat, r: nat, i: nat)
    requires Satisfies(a, BigMRow(t, B, d, r))
    requires forall k :: 0 <= k < |B| ==>
      (Cell(t.routeBranches, r, B[k]) == 0.0 || Cell(t.routeBranches, r, B[k]) == 1.0) && a(T(B[k], d, r)) >= 0.0
    requires i < |B|
    ensures Cell(t.routeBranches, r, B[i]) * a(T(B[i], d, r)) <= BIG_M * a(X(d, r))
  {
    var terms := BigMRow(t, B, d, r).lhs.terms;
    EvalAtLeastTerm(terms, a, i);
    EvalSingle(BIG_M, X(d, r), a);
  }

  /** Each non-incident withdrawal is zero. */
  lemma NonIncidenceRowZero(t: Tables, a: Assignment, B: seq<nat>, d: nat, r: nat, i: nat)
    requires Satisfies(a, NonIncidenceRow(t, B, d, r))
    requires forall k :: 0 <= k < |B| ==>
      (Cell(t.routeBranches, r, B[k]) == 0.0 || Cell(t.routeBranches, r, B[k]) == 1.0) && a(T(B[k], d, r)) >= 0.0
    requires i < |B|
    ensures (1.0 - Cell(t.routeBranches, r, B[i])) * a(T(B[i], d, r)) == 0.0
  {
    var terms := NonIncidenceRow(t, B, d, r).lhs.terms;
    EvalAtLeastTerm(terms, a, i);
    EvalNonNegative([], a);
  }

  lemma IncidentWithdrawalsNonNegative(t: Tables, p: Params, sp: SubProblem, a: Assignment, d: nat, r: nat)
    requires Feasible(a, t, p, sp) && IncidenceIsBinary(t, sp)
    requires r in sp.routes && d < p.nDays
    ensures forall k :: 0 <= k < |sp.branches| ==>
      (Cell(t.routeBranches, r, sp.branches[k]) == 0.0 || Cell(t.routeBranches, r, sp.branches[k]) == 1.0)
      && a(T(sp.branches[k], d, r)) >= 0.0
  {
    forall k | 0 <= k < |sp.branches|
      ensures a(T(sp.branches[k], d, r)) >= 0.0
    {
      DeclaredInBounds(p, sp, a, T(sp.branches[k], d, r));
    }
  }

  /** A positive withdrawal from a branch the route serves switches the route's binary on. */
  lemma WithdrawalForcesDispatch(t: Tables, p: Params, sp: SubProblem, a: Assignment, b: nat, d: nat, r: nat)
    requires Feasible(a, t, p, sp) && IncidenceIsBinary(t, sp)
    requires b in sp.branches && r in sp.routes && d < p.nDays
    requires Cell(t.routeBranches, r, b) == 1.0 && a(T(b, d, r)) > 0.0
    ensures a(X(d, r)) == 1.0
  {
    var B := sp.branches;
    BigMRowIn(t, p, sp, d, r);
    SatisfiesMember(a, Rows(t, p, sp), BigMRow(t, B, d, r));
    IncidentWithdrawalsNonNegative(t, p, sp, a, d, r);
    var i :| 0 <= i < |B| && B[i] == b;
    BigMRowBound(t, a, B, d, r, i);
    DeclaredInBounds(p, sp, a, X(d, r));
  }

  /** Nothing is withdrawn from a branch through a route that does not serve it. */
  lemma NoWithdrawalOffRoute(t: Tables, p: Params, sp: SubProblem, a: Assignment, b: nat, d: nat, r: nat)
    requires Feasible(a, t, p, sp) && IncidenceIsBinary(t, sp)
    requires b in sp.branches && r in sp.routes && d < p.nDays
    requires Cell(t.routeBranches, r, b) == 0.0
    ensures a(T(b, d, r)) == 0.0
  {
    var B := sp.branches;
    NonIncidenceRowIn(t, p, sp, d, r);
    SatisfiesMember(a, Rows(t, p, sp), NonIncidenceRow(t, B, d, r));
    IncidentWithdrawalsNonNegative(t, p, sp, a, d, r);
    var i :| 0 <= i < |B| && B[i] == b;
    NonIncidenceRowZero(t, a, B, d, r, i);
  }

  // ---------------------------------------------------------------- calendar, box, withdrawal limit

  /** A route is never dispatched on a day that is not one of its business days. */
  lemma NoDispatchOnClosedDay(t: Tables, p: Params, sp: SubProblem, a: Assignment, d: nat, r: nat)
    requires Feasible(a, t, p, sp)
    requires r in sp.routes && d < p.nDays
    requires Cell(t.businessDays, r, d) < 1.0
    ensures a(X(d, r)) == 0.0
  {
    var j :| 0 <= j < |sp.routes| && sp.routes[j] == r;
    FlattenMember(CalendarGrid(t, p, sp), d, j);
    SatisfiesMember(a, Rows(t, p, sp), CalendarRow(t, d, r));
    EvalSingle(1.0, X(d, r), a);
    DeclaredInBounds(p, sp, a, X(d, r));
  }

  /** End-of-day cash never exceeds the box capacity widened by the extra percentage. */
  lemma BoxCapacityRespected(t: Tables, p: Params, sp: SubProblem, a: Assignment, b: nat, d: nat)
    requires SatisfiesAll(a, Rows(t, p, sp))
    requires b in sp.branches && d < p.nDays
    ensures a(E(b, d)) <= Entry(t.boxAmounts, b) * (1.0 + p.extraBox)
  {
    BoxRowIn(t, p, sp, b, d);
    SatisfiesMember(a, Rows(t, p, sp), BoxRow(t, p, b, d));
    BoxRowMeaning(t, p, a, b, d);
  }

  lemma BoxRowIn(t: Tables, p: Params, sp: SubProblem, b: nat, d: nat)
    requires b in sp.branches && d < p.nDays
    ensures BoxRow(t, p, b, d) in Rows(t, p, sp)
  {
    var i :| 0 <= i < |sp.branches| && sp.branches[i] == b;
    FlattenMember(BoxGrid(t, p, sp), d, i);
  }

  lemma BoxRowMeaning(t: Tables, p: Params, a: Assignment, b: nat, d: nat)
    ensures Satisfies(a, BoxRow(t, p, b, d)) <==> a(E(b, d)) <= Entry(t.boxAmounts, b) * (1.0 + p.extraBox)
  {
    EvalSingle(1.0, E(b, d), a);
  }

  lemma WithdrawalRowMeaning(t: Tables, a: Assignment, b: nat, d: nat, R: seq<nat>)
    ensures Satisfies(a, WithdrawalRow(t, b, d, R)) <==>
      SumT(a, b, d, R) <= if d == 0 then Entry(t.cashInBranch, b) else a(E(b, d - 1))
  {
    EvalWithdrawals(a, b, d, R, 1.0);
    EvalSingle(1.0, E(b, if d == 0 then 0 else d - 1), a);
  }

  /** What is withdrawn on a day is covered by the cash held at the end of the previous day
    * (the opening cash on day 0). */
  lemma WithdrawalCoveredByPreviousBalance(t: Tables, p: Params, sp: SubProblem, a: Assignment, b: nat, d: nat)
    requires SatisfiesAll(a, Rows(t, p, sp))
    requires b in sp.branches && d < p.nDays
    ensures SumT(a, b, d, sp.routes) <= if d == 0 then Entry(t.cashInBranch, b) else a(E(b, d - 1))
  {
    WithdrawalRowIn(t, p, sp, b, d);
    SatisfiesMember(a, Rows(t, p, sp), WithdrawalRow(t, b, d, sp.routes));
    WithdrawalRowMeaning(t, a, b, d, sp.routes);
  }

  lemma WithdrawalRowIn(t: Tables, p: Params, sp: SubProblem, b: nat, d: nat)
    requires b in sp.branches && d < p.nDays
    ensures WithdrawalRow(t, b, d, sp.routes) in Rows(t, p, sp)
  {
    var i :| 0 <= i < |sp.branches| && sp.branches[i] == b;
    FlattenMember(WithdrawalGrid(t, p, sp), i, d);
  }

  // ---------------------------------------------------------------- mandatory days

  lemma {:induction false} EvalAllNonPositive(s: seq<Term>, a: Assignment)
    requires forall i :: 0 <= i < |s| ==> s[i].coeff * a(s[i].v) <= 0.0
    ensures Eval(s, a) <= 0.0
    decreases |s|
  {
    if |s| > 0 {
      EvalAllNonPositive(s[..|s| - 1], a);
    }
  }

  /** A satisfied mandatory row has a positive term: a route serving the branch dispatched on a listed day. */
  lemma MandatoryRowMeaning(t: Tables, p: Params, a: Assignment, b: nat, R: seq<nat>)
    requires Satisfies(a, MandatoryRow(t, p, b, R))
    ensures exists j, k ::
              && 0 <= j < |R| && 0 <= k < |p.lastDays|
              && Cell(t.routeBranches, R[j], b) * a(X(p.lastDays[k], R[j])) > 0.0
  {
    var L := p.lastDays;
    var G := MandatoryGrid(t, p, b, R);
    var terms := Flatten(G);
    if forall j, k :: 0 <= j < |R| && 0 <= k < |L| ==> Cell(t.routeBranches, R[j], b) * a(X(L[k], R[j])) <= 0.0 {
      forall m | 0 <= m < |terms|
        ensures terms[m].coeff * a(terms[m].v) <= 0.0
      {
        assert terms[m] in terms;
        FlattenMemberInv(G, terms[m]);
      }
      EvalAllNonPositive(terms, a);
    }
  }

  /** With listed last days, each branch has one row, and a satisfying plan dispatches, on one of
    * those days, some route with a positive incidence on the branch. */
  lemma MandatoryDayServed(t: Tables, p: Params, sp: SubProblem, a: Assignment, b: nat)
    requires SatisfiesAll(a, Rows(t, p, sp))
    requires |p.lastDays| > 0 && b in sp.branches
    ensures exists j, k ::
              && 0 <= j < |sp.routes| && 0 <= k < |p.lastDays|
              && Cell(t.routeBranches, sp.routes[j], b) * a(X(p.lastDays[k], sp.routes[j])) > 0.0
  {
    var B, R := sp.branches, sp.routes;
    var i :| 0 <= i < |B| && B[i] == b;
    assert MandatoryRows(t, p, sp)[i] == MandatoryRow(t, p, b, R);
    SatisfiesMember(a, Rows(t, p, sp), MandatoryRow(t, p, b, R));
    MandatoryRowMeaning(t, p, a, b, R);
  }

  // ---------------------------------------------------------------- size

  /** With at least one branch: 3|B||D| + 3|D||R| rows, plus one per branch when last days are listed. */
  lemma RowCount(t: Tables, p: Params, sp: SubProblem)
    requires |sp.branches| > 0
    ensures |Rows(t, p, sp)| == 3 * (|sp.branches| * p.nDays) + 3 * (p.nDays * |sp.routes|)
      + (if |p.lastDays| > 0 then |sp.branches| else 0)
    ensures |MandatoryRows(t, p, sp)| == if |p.lastDays| > 0 then |sp.branches| else 0
  {
    BranchDayRowCount(t, p, sp);
    DayRouteRowCount(t, p, sp);
  }

  /** The balance, box and withdrawal rows: one per branch and day each. */
  lemma BranchDayRowCount(t: Tables, p: Params, sp: SubProblem)
    ensures |Flatten(BalanceGrid(t, p, sp))| == |sp.branches| * p.nDays
    ensures |Flatten(BoxGrid(t, p, sp))| == |sp.branches| * p.nDays
    ensures |Flatten(WithdrawalGrid(t, p, sp))| == |sp.branches| * p.nDays
  {
    FlattenUniformLength(BalanceGrid(t, p, sp), p.nDays);
    FlattenUniformLength(BoxGrid(t, p, sp), |sp.branches|);
    FlattenUniformLength(WithdrawalGrid(t, p, sp), p.nDays);
  }

  /** The big-M, non-incidence and calendar rows: one per day and route each. */
  lemma DayRouteRowCount(t: Tables, p: Params, sp: SubProblem)
    ensures |Flatten(BigMGrid(t, p, sp))| == p.nDays * |sp.routes|
    ensures |Flatten(NonIncidenceGrid(t, p, sp))| == p.nDays * |sp.routes|
    ensures |Flatten(CalendarGrid(t, p, sp))| == p.nDays * |sp.routes|
  {
    FlattenUniformLength(BigMGrid(t, p, sp), |sp.routes|);
    FlattenUniformLength(NonIncidenceGrid(t, p, sp), |sp.routes|);
    FlattenUniformLength(CalendarGrid(t, p, sp), |sp.routes|);
  }

  // ---------------------------------------------------------------- objective value

  /** Number of dispatches of route r over the first n days. */
  function Dispatches(a: Assignment, r: nat, n: nat): real
  {
    if n == 0 then 0.0 else Dispatches(a, r, n - 1) + a(X(n - 1, r))
  }

  /** What route r costs over the first n days at c per dispatch. */
  function RouteCost(c: real, a: Assignment, r: nat, n: nat): real
  {
    c * Dispatches(a, r, n)
  }

  /** sum over the first k routes of cost[r] * (dispatches of r over nDays days). */
  function DispatchCost(t: Tables, a: Assignment, R: seq<nat>, k: nat, nDays: nat): real
    requires k <= |R|
  {
    if k == 0 then 0.0 else DispatchCost(t, a, R, k - 1, nDays) + RouteCost(Entry(t.costRoutes, R[k - 1]), a, R[k - 1], nDays)
  }

  /** Cash branch b holds at the end of its first n days. */
  function Held(a: Assignment, b: nat, n: nat): real
  {
    if n == 0 then 0.0 else Held(a, b, n - 1) + a(E(b, n - 1))
  }

  function HeldCash(a: Assignment, B: seq<nat>, k: nat, n: nat): real
    requires k <= |B|
  {
    if k == 0 then 0.0 else HeldCash(a, B, k - 1, n) + Held(a, B[k - 1], n)
  }

  function OpeningCash(t: Tables, B: seq<nat>, k: nat): real
    requires k <= |B|
  {
    if k == 0 then 0.0 else OpeningCash(t, B, k - 1) + Entry(t.cashInBranch, B[k - 1])
  }

  /** Scaling a sum that has already been named. */
  lemma ScaleSum(r: real, x: real, y: real, z: real)
    requires x == y + z
    ensures r * x == r * y + r * z
  {
  }

  lemma {:induction false} EvalRouteCost(a: Assignment, c: real, r: nat, n: nat)
    ensures Eval(RouteCostTerms(c, r, n), a) == RouteCost(c, a, r, n)
  {
    if n > 0 {
      assert RouteCostTerms(c, r, n)[..n - 1] == RouteCostTerms(c, r, n - 1);
      EvalRouteCost(a, c, r, n - 1);
    }
  }

  lemma {:induction false} EvalCost(t: Tables, p: Params, a: Assignment, R: seq<nat>, k: nat)
    requires k <= |R|
    ensures Eval(CostTerms(t, p, R, k), a) == DispatchCost(t, a, R, k, p.nDays)
  {
    if k > 0 {
      var c := Entry(t.costRoutes, R[k - 1]);
      var front, last := CostTerms(t, p, R, k - 1), RouteCostTerms(c, R[k - 1], p.nDays);
      assert CostTerms(t, p, R, k) == front + last;
      EvalCost(t, p, a, R, k - 1);
      EvalRouteCost(a, c, R[k - 1], p.nDays);
      EvalAppend(front, last, a);
    }
  }

  /** Interest at `rate` on what branch b holds over its first n days. */
  function BranchHeldInterest(rate: real, a: Assignment, b: nat, n: nat): real
  {
    rate * Held(a, b, n)
  }

  /** Interest at `rate` on what the first k branches of B hold over their first n days. */
  function HeldInterest(rate: real, a: Assignment, B: seq<nat>, k: nat, n: nat): real
    requires k <= |B|
  {
    rate * HeldCash(a, B, k, n)
  }

  lemma {:induction false} EvalBranchInterest(a: Assignment, rate: real, b: nat, n: nat)
    ensures Eval(BranchInterestTerms(rate, b, n), a) == BranchHeldInterest(rate, a, b, n)
  {
    if n > 0 {
      assert BranchInterestTerms(rate, b, n)[..n - 1] == BranchInterestTerms(rate, b, n - 1);
      EvalBranchInterest(a, rate, b, n - 1);
    }
  }

  lemma HeldInterestStep(rate: real, a: Assignment, B: seq<nat>, k: nat, n: nat)
    requires 0 < k <= |B|
    ensures HeldInterest(rate, a, B, k, n) == HeldInterest(rate, a, B, k - 1, n) + BranchHeldInterest(rate, a, B[k - 1], n)
  {
    ScaleSum(rate, HeldCash(a, B, k, n), HeldCash(a, B, k - 1, n), Held(a, B[k - 1], n));
  }

  lemma {:induction false} EvalInterest(p: Params, a: Assignment, B: seq<nat>, k: nat)
    requires k <= |B|
    ensures Eval(InterestTerms(p, B, k), a) == HeldInterest(p.rate, a, B, k, DaysBeforeLast(p.nDays))
  {
    if k > 0 {
      var n := DaysBeforeLast(p.nDays);
      var front, last := InterestTerms(p, B, k - 1), BranchInterestTerms(p.rate, B[k - 1], n);
      assert InterestTerms(p, B, k) == front + last;
      EvalInterest(p, a, B, k - 1);
      EvalBranchInterest(a, p.rate, B[k - 1], n);
      EvalAppend(front, last, a);
      HeldInterestStep(p.rate, a, B, k, n);
    }
  }

  lemma {:induction false} OpeningInterestValue(t: Tables, p: Params, B: seq<nat>, k: nat)
    requires k <= |B|
    ensures OpeningInterest(t, p, B, k) == p.rate * OpeningCash(t, B, k)
  {
    if k > 0 {
      OpeningInterestValue(t, p, B, k - 1);
      assert OpeningCash(t, B, k) == OpeningCash(t, B, k - 1) + Entry(t.cashInBranch, B[k - 1]);
      ScaleSum(p.rate, OpeningCash(t, B, k), OpeningCash(t, B, k - 1), Entry(t.cashInBranch, B[k - 1]));
    }
  }

  /** With a positive rate the value of the objective is that of its cost terms, plus the opening
    * interest, plus that of its interest terms. */
  lemma InterestObjectiveSplit(t: Tables, p: Params, sp: SubProblem, a: Assignment)
    requires p.rate > 0.0
    ensures Value(Objective(t, p, sp), a) ==
      Eval(CostTerms(t, p, sp.routes, |sp.routes|), a)
      + OpeningInterest(t, p, sp.branches, |sp.branches|)
      + Eval(InterestTerms(p, sp.branches, |sp.branches|), a)
  {
    EvalAppend(CostTerms(t, p, sp.routes, |sp.routes|), InterestTerms(p, sp.branches, |sp.branches|), a);
  }

  /** The next three lemmas each replace one summand of the split objective by its value. */
  lemma SubstCost(t: Tables, p: Params, sp: SubProblem, a: Assignment, v: real, y: real, z: real)
    requires v == Eval(CostTerms(t, p, sp.routes, |sp.routes|), a) + y + z
    ensures v == DispatchCost(t, a, sp.routes, |sp.routes|, p.nDays) + y + z
  {
    EvalCost(t, p, a, sp.routes, |sp.routes|);
  }

  lemma SubstOpening(t: Tables, p: Params, sp: SubProblem, v: real, x: real, z: real)
    requires v == x + OpeningInterest(t, p, sp.branches, |sp.branches|) + z
    ensures v == x + p.rate * OpeningCash(t, sp.branches, |sp.branches|) + z
  {
    OpeningInterestValue(t, p, sp.branches, |sp.branches|);
  }

  lemma SubstHeld(p: Params, sp: SubProblem, a: Assignment, v: real, x: real, y: real)
    requires v == x + y + Eval(InterestTerms(p, sp.branches, |sp.branches|), a)
    ensures v == x + y + p.rate * HeldCash(a, sp.branches, |sp.branches|, DaysBeforeLast(p.nDays))
  {
    EvalInterest(p, a, sp.branches, |sp.branches|);
  }

  /** With a positive rate the objective adds the interest terms and the opening interest. */
  lemma InterestObjectiveValue(t: Tables, p: Params, sp: SubProblem, a: Assignment)
    requires p.rate > 0.0
    ensures Value(Objective(t, p, sp), a) ==
      DispatchCost(t, a, sp.routes, |sp.routes|, p.nDays)
      + p.rate * OpeningCash(t, sp.branches, |sp.branches|)
      + p.rate * HeldCash(a, sp.branches, |sp.branches|, DaysBeforeLast(p.nDays))
  {
    var B, R := sp.branches, sp.routes;
    var v := Value(Objective(t, p, sp), a);
    InterestObjectiveSplit(t, p, sp, a);
    SubstCost(t, p, sp, a, v, OpeningInterest(t, p, B, |B|), Eval(InterestTerms(p, B, |B|), a));
    SubstOpening(t, p, sp, v, DispatchCost(t, a, R, |R|, p.nDays), Eval(InterestTerms(p, B, |B|), a));
    SubstHeld(p, sp, a, v, DispatchCost(t, a, R, |R|, p.nDays), p.rate * OpeningCash(t, B, |B|));
  }

  /** What the objective charges on cash: only with a positive rate, the rate on the opening cash
    * of branches B and on the cash they hold at the end of every day but the last. */
  function CashCharge(t: Tables, p: Params, a: Assignment, B: seq<nat>): real
  {
    if p.rate > 0.0
    then p.rate * (OpeningCash(t, B, |B|) + HeldCash(a, B, |B|, DaysBeforeLast(p.nDays)))
    else 0.0
  }

  /** With a positive rate, the charge on cash is the rate on the opening cash o plus the held cash h. */
  lemma CashChargeOf(t: Tables, p: Params, a: Assignment, B: seq<nat>, o: real, h: real)
    requires p.rate > 0.0
    requires o == OpeningCash(t, B, |B|) && h == HeldCash(a, B, |B|, DaysBeforeLast(p.nDays))
    ensures CashCharge(t, p, a, B) == p.rate * (o + h)
  {
  }

  /** The charge on cash never rewards holding cash: a plan that leaves branches B holding more
    * cash before the last day is charged at least as much, and nothing at all without a positive
    * rate. */
  lemma CashChargeMonotone(t: Tables, p: Params, a1: Assignment, a2: Assignment, B: seq<nat>)
    requires HeldCash(a1, B, |B|, DaysBeforeLast(p.nDays)) <= HeldCash(a2, B, |B|, DaysBeforeLast(p.nDays))
    ensures CashCharge(t, p, a1, B) <= CashCharge(t, p, a2, B)
    ensures p.rate <= 0.0 ==> CashCharge(t, p, a1, B) == 0.0
  {
    if p.rate > 0.0 {
      var o := OpeningCash(t, B, |B|);
      var h1, h2 := HeldCash(a1, B, |B|, DaysBeforeLast(p.nDays)), HeldCash(a2, B, |B|, DaysBeforeLast(p.nDays));
      CashChargeOf(t, p, a1, B, o, h1);
      CashChargeOf(t, p, a2, B, o, h2);
      ScaleLe(p.rate, o + h1, o + h2);
    }
  }

  lemma ScaleLe(r: real, x: real, y: real)
    requires r > 0.0 && x <= y
    ensures r * x <= r * y
  {
  }

  /** The objective charges each dispatch its route's cost, plus the charge on cash. */
  lemma ObjectiveValue(t: Tables, p: Params, sp: SubProblem, a: Assignment)
    ensures Value(Objective(t, p, sp), a) ==
      DispatchCost(t, a, sp.routes, |sp.routes|, p.nDays) + CashCharge(t, p, a, sp.branches)
  {
    if p.rate > 0.0 {
      var opening, held := OpeningCash(t, sp.branches, |sp.branches|), HeldCash(a, sp.branches, |sp.branches|, DaysBeforeLast(p.nDays));
      InterestObjectiveValue(t, p, sp, a);
      ScaleSum(p.rate, opening + held, opening, held);
    } else {
      EvalCost(t, p, a, sp.routes, |sp.routes|);
      assert Value(Objective(t, p, sp), a) == 0.0 + Eval(CostTerms(t, p, sp.routes, |sp.routes|), a);
    }
  }
}
