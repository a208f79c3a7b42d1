/** The result bookkeeping of helpers.py: `calculo_recaudaciones`, the cost sums and the gain of
  * `calculo_ganancia`, the status gate and financial sum of `agregar_resultado`, and the
  * mandatory-day list of `generate_csvs`. */
module Helpers {
  import opened Wrappers
  import opened Seqs
  import opened Text
  import opened Lp
  import opened CashData
  import opened Constraints
  import opened Feasibility
  import opened Solving
  import opened ModelProblem

  /** `calculo_recaudaciones` (helpers.py:13-15): the split by branch share is still to be
    * written, so the three tables come back as they went in. */
  function Collections<S>(share: S, collections: seq<seq<real>>, e0: seq<real>, boxes: seq<real>)
    : (r: (seq<seq<real>>, seq<real>, seq<real>))
    ensures r.0 == collections && r.1 == e0 && r.2 == boxes
  {
    (collections, e0, boxes)
  }

  // ---------------------------------------------------------------- objective values

  /** The values a solve left, read as an assignment (a variable without a value reads 0). */
  function Lookup(values: map<Var, real>): Assignment
  {
    (v: Var) => if v in values then values[v] else 0.0
  }

  /** Every term PuLP keeps has a value. PuLP's product with a zero constant is the empty
    * expression, so a term whose coefficient is 0 is not part of the objective it reads. */
  predicate Valued(terms: seq<Term>, values: map<Var, real>)
  {
    forall i :: 0 <= i < |terms| ==> terms[i].coeff != 0.0 ==> terms[i].v in values
  }

  /** `problem.objective.value()`: None as soon as one of its variables has no value. A variable
    * whose coefficient is 0 is read as 0, the value it adds. */
  function ObjectiveValueOf(pr: Problem): Option<real>
  {
    if Valued(pr.lp.objective.terms, pr.values) then Some(Value(pr.lp.objective, Lookup(pr.values))) else None
  }

  /** On a problem carrying the objective `model_problem` builds (as every built problem does,
    * `Built`), once all its variables have values, the objective value is the dispatch cost plus
    * the charge on cash. */
  lemma ObjectiveOfBuiltProblem(t: Tables, p: Params, sp: SubProblem, pr: Problem)
    requires pr.lp.objective == Objective(t, p, sp)
    requires Valued(pr.lp.objective.terms, pr.values)
    ensures var a := Lookup(pr.values);
      ObjectiveValueOf(pr) == Some(DispatchCost(t, a, sp.routes, |sp.routes|, p.nDays) + CashCharge(t, p, a, sp.branches))
  {
    var a := Lookup(pr.values);
    assert ObjectiveValueOf(pr) == Some(Value(pr.lp.objective, a));
    ObjectiveValue(t, p, sp, a);
  }

  /** Routes that cost 0 give only terms with coefficient 0. */
  lemma {:induction false} FreeRoutesZeroCostTerms(t: Tables, p: Params, R: seq<nat>, k: nat)
    requires k <= |R|
    requires forall j :: 0 <= j < |R| ==> Entry(t.costRoutes, R[j]) == 0.0
    ensures forall i :: 0 <= i < |CostTerms(t, p, R, k)| ==> CostTerms(t, p, R, k)[i].coeff == 0.0
  {
    if k > 0 {
      FreeRoutesZeroCostTerms(t, p, R, k - 1);
    }
  }

  /** Terms whose coefficients are all 0 evaluate to 0. */
  lemma {:induction false} EvalZeroCoefficients(terms: seq<Term>, a: Assignment)
    requires forall i :: 0 <= i < |terms| ==> terms[i].coeff == 0.0
    ensures Eval(terms, a) == 0.0
    decreases |terms|
  {
    if |terms| > 0 {
      EvalZeroCoefficients(terms[..|terms| - 1], a);
    }
  }

  /** Without interest and with every route of the sub-problem costing 0, the objective keeps no
    * variable, so its value is 0 whatever the solve left, even nothing. */
  lemma FreeRoutesValueZero(t: Tables, p: Params, sp: SubProblem, pr: Problem)
    requires pr.lp.objective == Objective(t, p, sp)
    requires p.rate <= 0.0
    requires forall j :: 0 <= j < |sp.routes| ==> Entry(t.costRoutes, sp.routes[j]) == 0.0
    ensures ObjectiveValueOf(pr) == Some(0.0)
  {
    var terms := CostTerms(t, p, sp.routes, |sp.routes|);
    FreeRoutesZeroCostTerms(t, p, sp.routes, |sp.routes|);
    EvalZeroCoefficients(terms, Lookup(pr.values));
  }

  /** `sum([prob.objective.value() for prob in Problems])`: None where a None reaches `sum`. */
  function SumObjectives(problems: seq<Problem>): (r: Option<real>)
    ensures r.Some? <==> forall i :: 0 <= i < |problems| ==> ObjectiveValueOf(problems[i]).Some?
    decreases |problems|
  {
    if |problems| == 0 then Some(0.0)
    else
      var init := problems[..|problems| - 1];
      assert forall i :: 0 <= i < |init| ==> init[i] == problems[i];
      match (SumObjectives(init), ObjectiveValueOf(problems[|problems| - 1]))
      case (Some(s), Some(v)) => Some(s + v)
      case _ => None
  }

  method AddObjectives(problems: seq<Problem>) returns (r: Option<real>)
    ensures r == SumObjectives(problems)
  {
    var total := 0.0;
    for i := 0 to |problems|
      invariant SumObjectives(problems[..i]) == Some(total)
    {
      assert problems[..i + 1][..i] == problems[..i];
      var v := ObjectiveValueOf(problems[i]);
      if v.None? {
        return None;
      }
      total := total + v.value;
    }
    assert problems[..|problems|] == problems;
    r := Some(total);
  }

  // ---------------------------------------------------------------- the financial sum

  /** A Python value on either side of `!=`: a string and an int never compare equal. */
  datatype PyValue = PyStr(s: string) | PyInt(i: int)

  /** Whether the loop over `variables` adds a variable: the first `_` piece of its name is `e`
    * and its day piece differs from the last day, compared as the piece itself (a string, as in
    * `calculo_ganancia`) or as `int(dia)` (as in `agregar_resultado`). None where unpacking the
    * name or `int` raises. */
  function Counted(v: Var, nD: nat, parse: bool): Option<bool>
  {
    var parts := Split(Name(v), '_');
    if parts[0] != "e" then Some(false)
    else if |parts| != 3 then None
    else
      var day := if parse then (match ParseInt(parts[2]) case Some(i) => Some(PyInt(i)) case None => None)
                 else Some(PyStr(parts[2]));
      match day
      case None => None
      case Some(d) => Some(d != PyInt(nD - 1))
  }

  /** Compared as a string every `e` variable counts; parsed, all but those of the last day. */
  lemma CountedMeaning(v: Var, nD: nat)
    ensures Counted(v, nD, false) == Some(v.E?)
    ensures Counted(v, nD, true) == Some(v.E? && v.day != nD - 1)
  {
    NameParts(v);
    if v.E? {
      IntRoundTrip(v.day);
      assert IntToString(v.day) == NatToString(v.day);
    }
  }

  /** What `Counted` decides, stated on the variable itself. */
  predicate Counts(v: Var, nD: nat, parse: bool)
  {
    v.E? && (parse ==> v.day != nD - 1)
  }

  lemma CountedIsCounts(v: Var, nD: nat, parse: bool)
    ensures Counted(v, nD, parse) == Some(Counts(v, nD, parse))
  {
    CountedMeaning(v, nD);
  }

  /** One pass of the accumulation loop: a counted variable without a value (or without a handle
    * to read it by) makes the whole sum raise, any other adds its value if counted. */
  lemma AccumulateStep(sols: seq<Solution>, nD: nat, parse: bool, handles: bool, i: nat, held: real)
    requires i < |sols| && HeldSum(sols[..i], nD, parse, handles) == Some(held)
    ensures var c := Counts(sols[i].v, nD, parse);
      && (c && (!handles || sols[i].value.None?) ==> HeldSum(sols, nD, parse, handles).None?)
      && (!(c && (!handles || sols[i].value.None?)) ==>
            HeldSum(sols[..i + 1], nD, parse, handles) == Some(if c then held + sols[i].value.value else held))
  {
    HeldSumStep(sols, nD, parse, handles, i);
    if Counts(sols[i].v, nD, parse) && (!handles || sols[i].value.None?) {
      NoneStays(sols, nD, parse, handles, i);
    }
  }

  /** The accumulation of helpers.py:75-82 and 201-207 over the solution list, or None where
    * it raises: a counted variable without a value, or read through a solver handle that the
    * backend does not provide (`handles`). */
  function HeldSum(sols: seq<Solution>, nD: nat, parse: bool, handles: bool): Option<real>
    decreases |sols|
  {
    if |sols| == 0 then Some(0.0)
    else
      var s := sols[|sols| - 1];
      match HeldSum(sols[..|sols| - 1], nD, parse, handles)
      case None => None
      case Some(h) =>
        if !Counts(s.v, nD, parse) then Some(h)
        else if handles && s.value.Some? then Some(h + s.value.value)
        else None
  }

  /** The financial sum: the opening cash of every branch plus the counted cash. */
  function FinancialSum(e0: seq<real>, sols: seq<Solution>, nD: nat, parse: bool, handles: bool): Option<real>
  {
    match HeldSum(sols, nD, parse, handles)
    case Some(h) => Some(Sum(e0) + h)
    case None => None
  }

  /** `costos_financiero_logístico = e_zero.values.sum()` followed by the loop. */
  method AccumulateHeld(e0: seq<real>, sols: seq<Solution>, nD: nat, parse: bool, handles: bool)
      returns (r: Option<real>)
    ensures r == FinancialSum(e0, sols, nD, parse, handles)
  {
    var total := Sum(e0);
    ghost var held := 0.0;
    for i := 0 to |sols|
      invariant HeldSum(sols[..i], nD, parse, handles) == Some(held)
      invariant total == Sum(e0) + held
    {
      var counted := Counted(sols[i].v, nD, parse);
      CountedIsCounts(sols[i].v, nD, parse);
      AccumulateStep(sols, nD, parse, handles, i, held);
      if counted.value && (!handles || sols[i].value.None?) {
        return None;
      }
      if counted.value {
        total := total + sols[i].value.value;
        held := held + sols[i].value.value;
      }
    }
    assert sols[..|sols|] == sols;
    r := Some(total);
  }

  lemma HeldSumStep(sols: seq<Solution>, nD: nat, parse: bool, handles: bool, i: nat)
    requires i < |sols| && HeldSum(sols[..i], nD, parse, handles).Some?
    ensures var h, s := HeldSum(sols[..i], nD, parse, handles).value, sols[i];
      HeldSum(sols[..i + 1], nD, parse, handles) ==
        if !Counts(s.v, nD, parse) then Some(h)
        else if handles && s.value.Some? then Some(h + s.value.value)
        else None
  {
    assert sols[..i + 1][..i] == sols[..i];
  }

  lemma {:induction false} NoneStays(sols: seq<Solution>, nD: nat, parse: bool, handles: bool, i: nat)
    requires i < |sols| && HeldSum(sols[..i + 1], nD, parse, handles).None?
    ensures HeldSum(sols, nD, parse, handles).None?
    decreases |sols| - i
  {
    if i + 1 < |sols| {
      assert sols[..i + 2][..i + 1] == sols[..i + 1];
      NoneStays(sols, nD, parse, handles, i + 1);
    } else {
      assert sols[..i + 1] == sols;
    }
  }

  /** Every variable of a list with its value. */
  function WithValues(vs: seq<Var>, a: Assignment): (sols: seq<Solution>)
    ensures |sols| == |vs| && forall i :: 0 <= i < |vs| ==> sols[i] == Solution(vs[i], Some(a(vs[i])))
  {
    seq(|vs|, i requires 0 <= i < |vs| => Solution(vs[i], Some(a(vs[i]))))
  }

  /** The cash of the `e` variables of a list for the days before n. */
  function EHeld(vs: seq<Var>, a: Assignment, n: nat): real
    decreases |vs|
  {
    if |vs| == 0 then 0.0
    else
      var v := vs[|vs| - 1];
      EHeld(vs[..|vs| - 1], a, n) + (if v.E? && v.day < n then a(v) else 0.0)
  }

  /** With every value known and every day below nD, the sum compared as a string covers all
    * nD days and the parsed one the days before the last. */
  lemma {:induction false} HeldSumOfValues(vs: seq<Var>, a: Assignment, nD: nat)
    requires nD >= 1
    requires forall i :: 0 <= i < |vs| && vs[i].E? ==> vs[i].day < nD
    ensures HeldSum(WithValues(vs, a), nD, false, true) == Some(EHeld(vs, a, nD))
    ensures HeldSum(WithValues(vs, a), nD, true, true) == Some(EHeld(vs, a, nD - 1))
    decreases |vs|
  {
    if |vs| > 0 {
      var init := vs[..|vs| - 1];
      assert WithValues(vs, a)[..|vs| - 1] == WithValues(init, a);
      HeldSumOfValues(init, a, nD);
    }
  }

  lemma {:induction false} EHeldAppend(u: seq<Var>, w: seq<Var>, a: Assignment, n: nat)
    ensures EHeld(u + w, a, n) == EHeld(u, a, n) + EHeld(w, a, n)
    decreases |w|
  {
    if |w| == 0 {
      assert u + w == u;
    } else {
      assert (u + w)[..|u + w| - 1] == u + w[..|w| - 1];
      EHeldAppend(u, w[..|w| - 1], a, n);
    }
  }

  lemma {:induction false} EHeldWithoutE(vs: seq<Var>, a: Assignment, n: nat)
    requires forall i :: 0 <= i < |vs| ==> !vs[i].E?
    ensures EHeld(vs, a, n) == 0.0
    decreases |vs|
  {
    if |vs| > 0 {
      EHeldWithoutE(vs[..|vs| - 1], a, n);
    }
  }

  lemma {:induction false} EHeldOfRow(p: Params, sp: SubProblem, i: nat, m: nat, a: Assignment, n: nat)
    requires i < |sp.branches| && m <= p.nDays && n <= p.nDays
    ensures EHeld(EGrid(p, sp)[i][..m], a, n) == Held(a, sp.branches[i], if m < n then m else n)
    decreases m
  {
    if m > 0 {
      var row := EGrid(p, sp)[i];
      assert row[..m][..m - 1] == row[..m - 1];
      EHeldOfRow(p, sp, i, m - 1, a, n);
    }
  }

  lemma {:induction false} EHeldOfGrid(p: Params, sp: SubProblem, k: nat, a: Assignment, n: nat)
    requires k <= |sp.branches| && n <= p.nDays
    ensures EHeld(Flatten(EGrid(p, sp)[..k]), a, n) == HeldCash(a, sp.branches, k, n)
    decreases k
  {
    var grid := EGrid(p, sp);
    if k > 0 {
      FlattenSnoc(grid, k - 1);
      EHeldOfGrid(p, sp, k - 1, a, n);
      EHeldAppend(Flatten(grid[..k - 1]), grid[k - 1], a, n);
      EHeldOfRow(p, sp, k - 1, p.nDays, a, n);
      assert grid[k - 1][..p.nDays] == grid[k - 1];
    }
  }

  /** Over the variables of a sub-problem, the `e` cash for the days before n is the cash the
    * objective weighs with n = nDays - 1. */
  lemma EHeldOfDeclared(p: Params, sp: SubProblem, a: Assignment, n: nat)
    requires n <= p.nDays
    ensures EHeld(Declared(p, sp), a, n) == HeldCash(a, sp.branches, |sp.branches|, n)
  {
    var xs, es, ts := Flatten(XGrid(p, sp)), Flatten(EGrid(p, sp)), Flatten(TGrid(p, sp));
    forall i | 0 <= i < |xs| ensures !xs[i].E? {
      FlattenMemberInv(XGrid(p, sp), xs[i]);
    }
    forall i | 0 <= i < |ts| ensures !ts[i].E? {
      FlattenMemberInv(TGrid(p, sp), ts[i]);
      var j, k :| 0 <= j < |TGrid(p, sp)| && 0 <= k < |TGrid(p, sp)[j]| && TGrid(p, sp)[j][k] == ts[i];
      FlattenMemberInv(TGridOfBranch(p, sp, sp.branches[j]), ts[i]);
    }
    EHeldWithoutE(xs, a, n);
    EHeldWithoutE(ts, a, n);
    EHeldAppend(xs, es, a, n);
    EHeldAppend(xs + es, ts, a, n);
    EHeldOfGrid(p, sp, |sp.branches|, a, n);
    FlattenWhole(EGrid(p, sp));
  }

  /** The financial sum as `calculo_ganancia` writes it counts the last day's cash too, while
    * the objective (and the parsed comparison of `agregar_resultado`) stops the day before. */
  lemma FinancialSumOfSubProblem(p: Params, sp: SubProblem, a: Assignment)
    requires p.nDays >= 1
    ensures HeldSum(WithValues(Declared(p, sp), a), p.nDays, false, true)
            == Some(HeldCash(a, sp.branches, |sp.branches|, p.nDays))
    ensures HeldSum(WithValues(Declared(p, sp), a), p.nDays, true, true)
            == Some(HeldCash(a, sp.branches, |sp.branches|, DaysBeforeLast(p.nDays)))
  {
    var vs := Declared(p, sp);
    forall i | 0 <= i < |vs| && vs[i].E? ensures vs[i].day < p.nDays {
      DeclaredExactly(p, sp, vs[i]);
      assert vs[i] in vs;
    }
    HeldSumOfValues(vs, a, p.nDays);
    EHeldOfDeclared(p, sp, a, p.nDays);
    EHeldOfDeclared(p, sp, a, p.nDays - 1);
  }

  /** With the day compared as a number, the financial sum of a sub-problem whose variables all
    * have values is `e_zero` plus the cash held on the days before the last, the days the
    * objective charges. */
  lemma CorrectedFinancialSum(p: Params, sp: SubProblem, e0: seq<real>, a: Assignment)
    requires p.nDays >= 1
    ensures FinancialSum(e0, WithValues(Declared(p, sp), a), p.nDays, true, true)
            == Some(Sum(e0) + HeldCash(a, sp.branches, |sp.branches|, DaysBeforeLast(p.nDays)))
  {
    FinancialSumOfSubProblem(p, sp, a);
  }

  /** Such a sum, with `e_zero` the sub-problem's opening cash, makes the logistic total (the sum
    * times the rate, plus the cost without interest) what the objective with interest charges
    * the same plan. */
  lemma LogisticTotalIsInterestObjective(t: Tables, p: Params, sp: SubProblem, a: Assignment, o: real, h: real, fin: real)
    requires p.rate > 0.0
    requires o == OpeningCash(t, sp.branches, |sp.branches|)
    requires h == HeldCash(a, sp.branches, |sp.branches|, DaysBeforeLast(p.nDays))
    requires fin == o + h
    ensures fin * p.rate + DispatchCost(t, a, sp.routes, |sp.routes|, p.nDays) == Value(Objective(t, p, sp), a)
  {
    ObjectiveValue(t, p, sp, a);
    CashChargeOf(t, p, a, sp.branches, o, h);
    ChargeOnSum(fin, p.rate, DispatchCost(t, a, sp.routes, |sp.routes|, p.nDays), Value(Objective(t, p, sp), a),
                o, h, CashCharge(t, p, a, sp.branches));
  }

  /** A total f = s + h charged at rate r, next to a cost c, is the value c + r(s + h). */
  lemma ChargeOnSum(f: real, r: real, c: real, v: real, s: real, h: real, charge: real)
    requires f == s + h && v == c + charge && charge == r * (s + h)
    ensures f * r + c == v
  {
  }

  /** One branch, one `e` variable on the last day worth x: compared as a string it is counted,
    * parsed it is not. */
  lemma LastDayCountedAsWritten(nD: nat, x: real)
    requires nD >= 1
    ensures HeldSum([Solution(E(0, nD - 1), Some(x))], nD, false, true) == Some(x)
    ensures HeldSum([Solution(E(0, nD - 1), Some(x))], nD, true, true) == Some(0.0)
  {
    var sols := [Solution(E(0, nD - 1), Some(x))];
    assert sols[..0] == [];
  }

  // ---------------------------------------------------------------- over the output of model_problem

  /** A problem whose solve gave every declared variable a value hands back, through
    * `problem.variables()`, each declared variable with its value. */
  lemma SolutionsOfValuedProblem(p: Params, sp: SubProblem, pr: Problem)
    requires pr.lp.variables == Declared(p, sp)
    requires forall v :: v in Declared(p, sp) ==> v in pr.values
    ensures Solutions(pr) == WithValues(Declared(p, sp), Lookup(pr.values))
  {
    var vs := Declared(p, sp);
    forall i | 0 <= i < |vs|
      ensures Solutions(pr)[i] == WithValues(vs, Lookup(pr.values))[i]
    {
      assert vs[i] in vs;
    }
  }

  lemma {:induction false} HeldSumAppend(s: seq<Solution>, u: seq<Solution>, nD: nat, parse: bool, handles: bool, x: real, y: real)
    requires HeldSum(s, nD, parse, handles) == Some(x) && HeldSum(u, nD, parse, handles) == Some(y)
    ensures HeldSum(s + u, nD, parse, handles) == Some(x + y)
    decreases |u|
  {
    if |u| == 0 {
      assert s + u == s;
    } else {
      var init := u[..|u| - 1];
      assert (s + u)[..|s + u| - 1] == s + init;
      var y' := HeldSum(init, nD, parse, handles).value;
      HeldSumAppend(s, init, nD, parse, handles, x, y');
    }
  }

  /** The days a financial sum counts: all of them compared as a string, the days before the
    * last once parsed. */
  function CountedDays(nD: nat, parse: bool): nat
  {
    if parse then DaysBeforeLast(nD) else nD
  }

  /** A problem built for a sub-problem, with all its values, holds that sub-problem's cash. */
  lemma ProblemHeld(p: Params, sp: SubProblem, pr: Problem, parse: bool)
    requires p.nDays >= 1
    requires pr.lp.variables == Declared(p, sp)
    requires forall v :: v in Declared(p, sp) ==> v in pr.values
    ensures HeldSum(Solutions(pr), p.nDays, parse, true)
            == Some(HeldCash(Lookup(pr.values), sp.branches, |sp.branches|, CountedDays(p.nDays, parse)))
  {
    SolutionsOfValuedProblem(p, sp, pr);
    FinancialSumOfSubProblem(p, sp, Lookup(pr.values));
  }

  /** The cash the recorded problems hold for the days before n, each read through its own
    * sub-problem's branches and its own values. */
  function HeldOfRuns(subs: seq<SubProblem>, probs: seq<Problem>, n: nat): real
    requires |probs| <= |subs|
    decreases |probs|
  {
    if |probs| == 0 then 0.0
    else
      var k := |probs| - 1;
      HeldOfRuns(subs, probs[..k], n) + HeldCash(Lookup(probs[k].values), subs[k].branches, |subs[k].branches|, n)
  }

  /** A recorded problem is the one built for its sub-problem and has all its values. */
  predicate RunValued(p: Params, sp: SubProblem, pr: Problem)
  {
    pr.lp.variables == Declared(p, sp) && forall v :: v in Declared(p, sp) ==> v in pr.values
  }

  /** Every recorded problem is valued for its own sub-problem. */
  predicate ValuedRuns(p: Params, subs: seq<SubProblem>, probs: seq<Problem>)
  {
    |probs| <= |subs| && forall i :: 0 <= i < |probs| ==> RunValued(p, subs[i], probs[i])
  }

  lemma {:induction false} HeldSumOfRuns(p: Params, subs: seq<SubProblem>, probs: seq<Problem>, parse: bool)
    requires p.nDays >= 1 || |probs| == 0
    requires ValuedRuns(p, subs, probs)
    ensures HeldSum(AllSolutions(probs), p.nDays, parse, true) == Some(HeldOfRuns(subs, probs, CountedDays(p.nDays, parse)))
    decreases |probs|
  {
    if |probs| > 0 {
      var k, n := |probs| - 1, CountedDays(p.nDays, parse);
      var init, pr, sp := probs[..k], probs[k], subs[k];
      assert ValuedRuns(p, subs, init);
      HeldSumOfRuns(p, subs, init, parse);
      assert RunValued(p, sp, pr);
      ProblemHeld(p, sp, pr, parse);
      var before, own := HeldOfRuns(subs, init, n), HeldCash(Lookup(pr.values), sp.branches, |sp.branches|, n);
      assert AllSolutions(probs) == AllSolutions(init) + Solutions(pr);
      assert HeldOfRuns(subs, probs, n) == before + own;
      HeldSumAppend(AllSolutions(init), Solutions(pr), p.nDays, parse, true, before, own);
    }
  }

  /** What the financial sum needs of the output of `model_problem`: the variables are those of
    * the recorded problems, each built for its sub-problem. */
  lemma ModelRuns(t: Tables, p: Params, debug: bool, solve: (LpProblem, SolverConfig) -> SolveOutcome, subs: seq<SubProblem>)
    requires p.rate >= 0.0 && Plan(t, p) == Some(subs)
    requires Model(t, p, debug, solve).status.Some?
    ensures var out := Model(t, p, debug, solve);
      && |out.problems| <= |subs|
      && out.variables == AllSolutions(out.problems)
      && (|out.problems| > 0 ==> p.nDays >= 1)
      && forall i :: 0 <= i < |out.problems| ==> out.problems[i].lp.variables == Declared(p, subs[i])
  {
    ModelSolved(t, p, debug, solve, subs);
  }

  /** The cash the financial sum counts over what `model_problem` returns, once every recorded
    * problem has all its values: the cash each sub-problem's solution holds, counted over every
    * day when compared as a string (`calculo_ganancia`) and over the days before the last once
    * parsed (`agregar_resultado`), the days the objective charges. `FinancialSum` adds the
    * opening cash to it. */
  lemma ModelHeldSum(t: Tables, p: Params, debug: bool, solve: (LpProblem, SolverConfig) -> SolveOutcome,
                     subs: seq<SubProblem>, parse: bool)
    requires p.rate >= 0.0 && Plan(t, p) == Some(subs)
    requires Model(t, p, debug, solve).status.Some?
    requires forall i, v :: 0 <= i < |Model(t, p, debug, solve).problems| && i < |subs| && v in Declared(p, subs[i]) ==>
               v in Model(t, p, debug, solve).problems[i].values
    ensures var out := Model(t, p, debug, solve);
      && |out.problems| <= |subs|
      && HeldSum(out.variables, p.nDays, parse, true) == Some(HeldOfRuns(subs, out.problems, CountedDays(p.nDays, parse)))
  {
    var out := Model(t, p, debug, solve);
    ModelRuns(t, p, debug, solve, subs);
    forall i | 0 <= i < |out.problems|
      ensures RunValued(p, subs[i], out.problems[i])
    {
    }
    HeldSumOfRuns(p, subs, out.problems, parse);
  }

  // ---------------------------------------------------------------- the gain

  /** What `calculo_ganancia` returns: -1, a ratio, a numpy non-finite value (nan or inf) when
    * the denominator is 0, or an exception it lets through. */
  datatype GainResult = MinusOne | Ratio(value: real) | NonFinite | Raised

  /** L, the logistic plan's total: the cost of the run without interest plus `interes` times
    * the cash it holds. */
  function LogisticTotal(second: ModelOutput, e0: seq<real>, rate: real, nD: nat, parse: bool): Option<real>
  {
    match (SumObjectives(second.problems), FinancialSum(e0, second.variables, nD, parse, true))
    case (Some(l0), Some(fin)) => Some(fin * rate + l0)
    case _ => None
  }

  /** The gain from the run with interest (`first`) and the run without (`second`); `parse`
    * chooses how the day piece is compared. */
  function GainOf(first: ModelOutput, second: ModelOutput, e0: seq<real>, rate: real, nD: nat, parse: bool): GainResult
  {
    match (SumObjectives(first.problems), SumObjectives(second.problems))
    case (Some(f), Some(_)) =>
      (match LogisticTotal(second, e0, rate, nD, parse)
       case None => Raised
       case Some(l) => if l == 0.0 then NonFinite else Ratio((l - f) / l))
    case _ => MinusOne
  }

  /** -1 exactly when a sum of objectives fails; otherwise g with g·L = L − F, unless L is 0. */
  lemma GainMeaning(first: ModelOutput, second: ModelOutput, e0: seq<real>, rate: real, nD: nat, parse: bool)
    ensures var g := GainOf(first, second, e0, rate, nD, parse);
      && (g == MinusOne <==> SumObjectives(first.problems).None? || SumObjectives(second.problems).None?)
      && (g == Raised <==> SumObjectives(first.problems).Some? && SumObjectives(second.problems).Some?
                           && FinancialSum(e0, second.variables, nD, parse, true).None?)
      && (g == NonFinite <==> SumObjectives(first.problems).Some?
                              && LogisticTotal(second, e0, rate, nD, parse) == Some(0.0))
      && (g.Ratio? ==>
            var l, f := LogisticTotal(second, e0, rate, nD, parse).value, SumObjectives(first.problems).value;
            l != 0.0 && g.value * l == l - f)
  {
  }

  /** helpers.py:18-88 with the table files left out: both runs of `model_problem`, the two
    * objective sums, the financial sum and the gain. `nD`, `nS` and `nP` are the shapes of the
    * frames. */
  method CalculateGain(t: Tables, nD: nat, nS: nat, nP: nat, rate: real, solver: string, threads: int,
                       debug: bool, solve: (LpProblem, SolverConfig) -> SolveOutcome)
      returns (g: GainResult)
    ensures g == GainOf(Model(t, GainParams(nD, nS, nP, rate, solver, threads), debug, solve),
                        Model(t, GainParams(nD, nS, nP, 0.0, solver, threads), debug, solve),
                        t.cashInBranch, rate, nD, false)
  {
    var first := ModelProblem.ModelProblem(t, GainParams(nD, nS, nP, rate, solver, threads), debug, solve);
    var second := ModelProblem.ModelProblem(t, GainParams(nD, nS, nP, 0.0, solver, threads), debug, solve);
    g := GainOfRuns(first, second, t.cashInBranch, rate, nD);
  }

  /** helpers.py:57-88 once both runs are known: -1 if a sum of objectives fails, an exception
    * if the financial sum raises, then (L - F) / L. */
  method GainOfRuns(first: ModelOutput, second: ModelOutput, e0: seq<real>, rate: real, nD: nat)
      returns (g: GainResult)
    ensures g == GainOf(first, second, e0, rate, nD, false)
  {
    var f := AddObjectives(first.problems);
    if f.None? {
      return MinusOne;
    }
    var l0 := AddObjectives(second.problems);
    if l0.None? {
      return MinusOne;
    }
    var financial := AccumulateHeld(e0, second.variables, nD, false, true);
    if financial.None? {
      return Raised;
    }
    var l := financial.value * rate + l0.value;
    assert LogisticTotal(second, e0, rate, nD, false).Some?;
    assert LogisticTotal(second, e0, rate, nD, false).value == l;
    if l == 0.0 {
      return NonFinite;
    }
    g := Ratio((l - f.value) / l);
  }

  /** The arguments `calculo_ganancia` passes: no mandatory days, no extra box room. */
  function GainParams(nD: nat, nS: nat, nP: nat, rate: real, solver: string, threads: int): Params
  {
    Params(nD, nS, nP, [], 0.0, rate, solver, threads)
  }

  /** Without interest `calculo_ganancia` makes the same run twice, and a gain, when there is
    * one, is then 0. */
  lemma NoGainWithoutInterest(out: ModelOutput, e0: seq<real>, nD: nat)
    ensures var g := GainOf(out, out, e0, 0.0, nD, false);
      g.Ratio? ==> g.value == 0.0
  {
    var g := GainOf(out, out, e0, 0.0, nD, false);
    if g.Ratio? {
      var l0, fin := SumObjectives(out.problems).value, FinancialSum(e0, out.variables, nD, false, true).value;
      assert LogisticTotal(out, e0, 0.0, nD, false) == Some(fin * 0.0 + l0);
      assert fin * 0.0 + l0 == l0;
    }
  }

  // ---------------------------------------------------------------- agregar_resultado

  /** The literal `agregar_resultado` tests the first status against: an acute accent where
    * `model_problem` writes a grave one. */
  const ACUTE_OPTIMAL_TEXT: string := "Resuelto (Óptimo)"

  /** An entry of `exp_dict[seed][interes][b]`. */
  datatype Record = Unsolved(status: string) | Recorded(total: real, financial: real) | Errored

  /** helpers.py:183-209 for one run of `model_problem`: None where `status[0]` raises. The
    * financial sum is not multiplied by the rate. */
  function RecordOf(out: ModelOutput, e0: seq<real>, nD: nat, gate: string, handles: bool): Option<Record>
  {
    match out.status
    case None => None
    case Some(st) =>
      if |st| == 0 then None
      else if st[0] != gate then Some(Unsolved(st[0]))
      else
        match (SumObjectives(out.problems), FinancialSum(e0, out.variables, nD, true, handles))
        case (Some(total), Some(fin)) => Some(Recorded(total, fin))
        case _ => Some(Errored)
  }

  /** No status `model_problem` writes is the acute literal. */
  lemma ReportNotAcute(code: int, box: bool, mandatory: bool)
    ensures Report(code, box, mandatory) != ACUTE_OPTIMAL_TEXT
  {
    var r := Report(code, box, mandatory);
    assert r[..|StatusText(code)|] == StatusText(code);
    if code == OPTIMAL {
      assert r[10] == OPTIMAL_TEXT[10] != ACUTE_OPTIMAL_TEXT[10];
    } else {
      assert r[0] == StatusText(code)[0];
      if !IsKnownCode(code) {
        assert StatusText(code)[0] == UNKNOWN_PREFIX[0];
      }
      assert r[0] != ACUTE_OPTIMAL_TEXT[0];
    }
  }

  lemma StepTextNotAcute(t: Tables, p: Params, sp: SubProblem, debug: bool, solve: (LpProblem, SolverConfig) -> SolveOutcome)
    requires !StepOf(t, p, sp, debug, solve).BuildFailed?
    ensures StepText(StepOf(t, p, sp, debug, solve)) != ACUTE_OPTIMAL_TEXT
  {
    var step := StepOf(t, p, sp, debug, solve);
    if step.Done? {
      var lp := Built(t, p, sp);
      var outcome := solve(lp, SelectSolver(p.solver, debug, p.threads));
      ReportNotAcute(outcome.code, BoxExceeded(t, p, sp.branches), MandatoryInfeasible(t, p, sp.routes));
    } else {
      assert SOLVE_ERROR_TEXT[0] != ACUTE_OPTIMAL_TEXT[0];
    }
  }

  /** As written the gate never lets a run through: every run that has a status is recorded as
    * unsolved. */
  lemma GateAsWrittenNeverRecords(t: Tables, p: Params, debug: bool, solve: (LpProblem, SolverConfig) -> SolveOutcome,
                                  e0: seq<real>, handles: bool)
    requires var out := Model(t, p, debug, solve); out.status.Some? && |out.status.value| > 0
    ensures var out := Model(t, p, debug, solve);
      RecordOf(out, e0, p.nDays, ACUTE_OPTIMAL_TEXT, handles) == Some(Unsolved(out.status.value[0]))
  {
    var out := Model(t, p, debug, solve);
    var subs := Plan(t, p).value;
    ModelSolved(t, p, debug, solve, subs);
    StepTextNotAcute(t, p, subs[0], debug, solve);
  }

  /** A built sub-problem's pass writes the bare optimal status exactly when its solve came back
    * optimal and neither warning applies. */
  lemma StepIsOptimal(t: Tables, p: Params, sp: SubProblem, debug: bool, solve: (LpProblem, SolverConfig) -> SolveOutcome)
    requires BuildOk(t, p, sp)
    ensures var step := StepOf(t, p, sp, debug, solve);
      StepText(step) == OPTIMAL_TEXT <==>
        step.Done? && step.problem.code == OPTIMAL && !BoxExceeded(t, p, sp.branches) && !MandatoryInfeasible(t, p, sp.routes)
  {
    var step := StepOf(t, p, sp, debug, solve);
    if step.Done? {
      ReportIsOptimal(step.problem.code, BoxExceeded(t, p, sp.branches), MandatoryInfeasible(t, p, sp.routes));
    } else {
      assert SOLVE_ERROR_TEXT[0] != OPTIMAL_TEXT[0];
    }
  }

  /** The gate on a run whose statuses are those of its passes: it records the run exactly when
    * the first sub-problem's solve came back optimal with neither warning. */
  lemma GateOnFirstStep(t: Tables, p: Params, debug: bool, solve: (LpProblem, SolverConfig) -> SolveOutcome,
                        subs: seq<SubProblem>, out: ModelOutput, e0: seq<real>, handles: bool)
    requires out.status.Some? && (|out.status.value| > 0 <==> |subs| > 0)
    requires |subs| > 0 ==> BuildOk(t, p, subs[0]) && out.status.value[0] == StepText(StepOf(t, p, subs[0], debug, solve))
    ensures var r := RecordOf(out, e0, p.nDays, OPTIMAL_TEXT, handles);
      && (r.Some? <==> |subs| > 0)
      && (|subs| > 0 ==>
            var step := StepOf(t, p, subs[0], debug, solve);
            && (!r.value.Unsolved? <==>
                  step.Done? && step.problem.code == OPTIMAL
                  && !BoxExceeded(t, p, subs[0].branches) && !MandatoryInfeasible(t, p, subs[0].routes))
            && (r.value.Recorded? ==>
                  && SumObjectives(out.problems) == Some(r.value.total)
                  && FinancialSum(e0, out.variables, p.nDays, true, handles) == Some(r.value.financial)))
  {
    if |subs| > 0 {
      StepIsOptimal(t, p, subs[0], debug, solve);
    }
  }

  /** With the literal `model_problem` writes, the gate records a run exactly when the first
    * sub-problem's solve came back optimal with neither warning; a run with no sub-problem at all
    * makes `status[0]` raise. A recorded run holds the summed objectives and the financial sum. */
  lemma GateRecordsOptimal(t: Tables, p: Params, debug: bool, solve: (LpProblem, SolverConfig) -> SolveOutcome,
                           subs: seq<SubProblem>, e0: seq<real>, handles: bool)
    requires p.rate >= 0.0 && Plan(t, p) == Some(subs)
    requires Model(t, p, debug, solve).status.Some?
    ensures var out := Model(t, p, debug, solve);
      var r := RecordOf(out, e0, p.nDays, OPTIMAL_TEXT, handles);
      && (r.Some? <==> |subs| > 0)
      && (|subs| > 0 ==>
            var step := StepOf(t, p, subs[0], debug, solve);
            && (!r.value.Unsolved? <==>
                  step.Done? && step.problem.code == OPTIMAL
                  && !BoxExceeded(t, p, subs[0].branches) && !MandatoryInfeasible(t, p, subs[0].routes))
            && (r.value.Recorded? ==>
                  && SumObjectives(out.problems) == Some(r.value.total)
                  && FinancialSum(e0, out.variables, p.nDays, true, handles) == Some(r.value.financial)))
  {
    ModelSolved(t, p, debug, solve, subs);
    GateOnFirstStep(t, p, debug, solve, subs, Model(t, p, debug, solve), e0, handles);
  }

  // ---------------------------------------------------------------- generate_csvs

  /** `[i for i in range(l_d_c.size) if l_d_c[i] == 1]` (helpers.py:334-336). */
  function MandatoryDays(flags: seq<real>): (days: seq<nat>)
    ensures forall i, j :: 0 <= i < j < |days| ==> days[i] < days[j]
    ensures forall d: nat :: d in days <==> d < |flags| && flags[d] == 1.0
    decreases |flags|
  {
    if |flags| == 0 then []
    else
      var init := MandatoryDays(flags[..|flags| - 1]);
      assert forall k :: 0 <= k < |init| ==> init[k] < |flags| - 1 by {
        forall k | 0 <= k < |init| ensures init[k] < |flags| - 1 {
          assert init[k] in init;
        }
      }
      init + (if flags[|flags| - 1] == 1.0 then [|flags| - 1] else [])
  }

  /** Mandatory days read from a horizon-long row of flags never stop a sub-problem from being
    * built (the mandatory rows find every day in `x[r]`), and never make the diagnosis raise on a
    * sub-problem that builds (its calendar row covers the horizon). */
  lemma MandatoryDaysKeepBuild(flags: seq<real>, t: Tables, p: Params, sp: SubProblem)
    requires |flags| == p.nDays && p.lastDays == MandatoryDays(flags)
    ensures BuildOk(t, p, sp) <==> BuildOk(t, p.(lastDays := []), sp)
    ensures BuildOk(t, p, sp) ==> !DiagnosisRaises(t, p, sp.routes)
  {
    if BuildOk(t, p, sp) && |sp.routes| == 1 {
      assert sp.routes[0] in sp.routes;
      forall k | 0 <= k < |p.lastDays|
        ensures p.lastDays[k] < RowLength(t.businessDays, sp.routes[0])
      {
        assert p.lastDays[k] in p.lastDays;
      }
    }
  }
}
