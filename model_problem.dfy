/** `model_problem` (model.py:9-286): the guard on the rate, the separability test, one
  * sub-problem after another built, solved and diagnosed, and the two kinds of early return. */
module ModelProblem {
  import opened Wrappers
  import opened Lp
  import opened CashData
  import opened Constraints
  import opened Solving

  /** A built sub-problem as handed to the solver. */
  datatype LpProblem = LpProblem(variables: seq<Var>, objective: LinExpr, rows: seq<Row>)

  /** What the external solver does with a problem: raise, or set a status code and variable values. */
  datatype SolveOutcome = SolveRaised | Solved(code: int, values: map<Var, real>)

  /** A problem as the source keeps it in `Problems`; a problem whose solve raised keeps PuLP's
    * initial "not solved" status and no values. */
  datatype Problem = Problem(lp: LpProblem, code: int, values: map<Var, real>)

  /** A variable as `problem.variables()` hands it back: its name and its value, if any. */
  datatype Solution = Solution(v: Var, value: Option<real>)

  /** The triple `(status, variables, Problems)`; `status` is None in the unsolved triple. */
  datatype ModelOutput = ModelOutput(status: Option<seq<string>>, variables: seq<Solution>, problems: seq<Problem>)

  /** `None, [], []`. */
  const Sentinel: ModelOutput := ModelOutput(None, [], [])

  /** `problem.variables()` after the solve. */
  function Solutions(pr: Problem): (sols: seq<Solution>)
    ensures |sols| == |pr.lp.variables|
    ensures forall i :: 0 <= i < |sols| ==>
              && sols[i].v == pr.lp.variables[i]
              && (sols[i].value.Some? <==> pr.lp.variables[i] in pr.values)
              && (sols[i].value.Some? ==> sols[i].value.value == pr.values[pr.lp.variables[i]])
  {
    seq(|pr.lp.variables|, i requires 0 <= i < |pr.lp.variables| =>
      Solution(pr.lp.variables[i], if pr.lp.variables[i] in pr.values then Some(pr.values[pr.lp.variables[i]]) else None))
  }

  function Built(t: Tables, p: Params, sp: SubProblem): LpProblem
  {
    LpProblem(Declared(p, sp), Objective(t, p, sp), Rows(t, p, sp))
  }

  /** What one pass of the sub-problem loop produces. */
  datatype Step =
    | BuildFailed
    | SolveFailed(problem: Problem)
    | Done(text: string, problem: Problem)

  /** One pass: a build that raises, a solve (or its diagnostics) that raises, or a status. */
  function StepOf(t: Tables, p: Params, sp: SubProblem, debug: bool,
                  solve: (LpProblem, SolverConfig) -> SolveOutcome): Step
  {
    if !BuildOk(t, p, sp) then BuildFailed
    else
      var lp := Built(t, p, sp);
      match solve(lp, SelectSolver(p.solver, debug, p.threads))
      case SolveRaised => SolveFailed(Problem(lp, NOT_SOLVED, map[]))
      case Solved(code, values) =>
        match Diagnosis(t, p, sp, code)
        case None => SolveFailed(Problem(lp, code, values))
        case Some(text) => Done(text, Problem(lp, code, values))
  }

  /** The step of every sub-problem, in order. Steps are pure, so listing those after an early
    * return changes nothing. */
  function Steps(t: Tables, p: Params, subs: seq<SubProblem>, debug: bool,
                 solve: (LpProblem, SolverConfig) -> SolveOutcome): (steps: seq<Step>)
    ensures |steps| == |subs|
    ensures forall i :: 0 <= i < |subs| ==> steps[i] == StepOf(t, p, subs[i], debug, solve)
  {
    seq(|subs|, i requires 0 <= i < |subs| => StepOf(t, p, subs[i], debug, solve))
  }

  /** The loop over sub-problems from the k-th on, with the lists accumulated so far: a build
    * failure discards everything, a failed solve records itself and stops. */
  function Collect(steps: seq<Step>, k: nat, status: seq<string>, vars: seq<Solution>, probs: seq<Problem>): ModelOutput
    requires k <= |steps|
    decreases |steps| - k
  {
    if k == |steps| then ModelOutput(Some(status), vars, probs)
    else
      match steps[k]
      case BuildFailed => Sentinel
      case SolveFailed(pr) => ModelOutput(Some(status + [SOLVE_ERROR_TEXT]), vars + Solutions(pr), probs + [pr])
      case Done(text, pr) => Collect(steps, k + 1, status + [text], vars + Solutions(pr), probs + [pr])
  }

  /** `variables += problem.variables()` over a list of recorded problems, in order. */
  function AllSolutions(probs: seq<Problem>): seq<Solution>
    decreases |probs|
  {
    if |probs| == 0 then [] else AllSolutions(probs[..|probs| - 1]) + Solutions(probs[|probs| - 1])
  }

  /** The sub-problems, or None where reading the tables raises. */
  function Plan(t: Tables, p: Params): Option<seq<SubProblem>>
  {
    match Loadtxt(t.routeBranches)
    case None => None
    case Some(m) => if LoadOk(t, p) then Some(SubProblems(p, Separable(m))) else None
  }

  function Model(t: Tables, p: Params, debug: bool, solve: (LpProblem, SolverConfig) -> SolveOutcome): ModelOutput
  {
    if p.rate < 0.0 then Sentinel
    else
      match Plan(t, p)
      case None => Sentinel
      case Some(subs) => Collect(Steps(t, p, subs, debug, solve), 0, [], [], [])
  }

  // ---------------------------------------------------------------- the loop

  method BuildProblem(t: Tables, p: Params, sp: SubProblem) returns (lp: LpProblem)
    requires BuildOk(t, p, sp)
    ensures lp == Built(t, p, sp)
  {
    var objective := BuildObjective(t, p, sp);
    var rows := BuildRows(t, p, sp);
    lp := LpProblem(Declared(p, sp), objective, rows);
  }

  /** The body of the loop for one sub-problem (model.py:110-277). */
  method RunStep(t: Tables, p: Params, sp: SubProblem, debug: bool,
                 solve: (LpProblem, SolverConfig) -> SolveOutcome) returns (step: Step)
    ensures step == StepOf(t, p, sp, debug, solve)
  {
    if !BuildOk(t, p, sp) {
      return BuildFailed;
    }
    var lp := BuildProblem(t, p, sp);
    var config := SelectSolver(p.solver, debug, p.threads);
    var outcome := solve(lp, config);
    if outcome.SolveRaised? {
      return SolveFailed(Problem(lp, NOT_SOLVED, map[]));
    }
    var problem := Problem(lp, outcome.code, outcome.values);
    var text := Diagnose(t, p, sp, outcome.code);
    if text.None? {
      return SolveFailed(problem);
    }
    step := Done(text.value, problem);
  }

  /** `model_problem` with the tables already read and the solver passed in. */
  method ModelProblem(t: Tables, p: Params, debug: bool,
                      solve: (LpProblem, SolverConfig) -> SolveOutcome) returns (out: ModelOutput)
    ensures out == Model(t, p, debug, solve)
  {
    if p.rate < 0.0 {
      return Sentinel;
    }
    var plan := Plan(t, p);
    if plan.None? {
      return Sentinel;
    }
    var subs := plan.value;
    ghost var steps := Steps(t, p, subs, debug, solve);
    var status: seq<string> := [];
    var vars: seq<Solution> := [];
    var probs: seq<Problem> := [];
    for k := 0 to |subs|
      invariant Collect(steps, k, status, vars, probs) == Model(t, p, debug, solve)
    {
      var step := RunStep(t, p, subs[k], debug, solve);
      match step
      case BuildFailed =>
        return Sentinel;
      case SolveFailed(pr) =>
        status := status + [SOLVE_ERROR_TEXT];
        probs := probs + [pr];
        vars := vars + Solutions(pr);
        return ModelOutput(Some(status), vars, probs);
      case Done(text, pr) =>
        status := status + [text];
        probs := probs + [pr];
        vars := vars + Solutions(pr);
    }
    out := ModelOutput(Some(status), vars, probs);
  }

  // ---------------------------------------------------------------- properties

  /** A negative rate gives the unsolved triple whatever the tables hold and the solver does. */
  lemma NegativeRateRejected(t: Tables, p: Params, debug: bool, solve: (LpProblem, SolverConfig) -> SolveOutcome)
    requires p.rate < 0.0
    ensures Model(t, p, debug, solve) == Sentinel
  {
  }

  /** The status a pass past the build leaves behind. */
  function StepText(s: Step): string
  {
    if s.Done? then s.text else SOLVE_ERROR_TEXT
  }

  /** A result of the loop without statuses is the unsolved triple, and it comes from a build
    * failure that follows only passes ending in a status. */
  lemma {:induction false} CollectSentinel(steps: seq<Step>, k: nat, status: seq<string>, vars: seq<Solution>, probs: seq<Problem>)
    requires k <= |steps|
    requires Collect(steps, k, status, vars, probs).status.None?
    ensures Collect(steps, k, status, vars, probs) == Sentinel
    ensures exists j :: k <= j < |steps| && steps[j].BuildFailed? && forall i :: k <= i < j ==> steps[i].Done?
    decreases |steps| - k
  {
    if steps[k].Done? {
      var pr := steps[k].problem;
      CollectSentinel(steps, k + 1, status + [steps[k].text], vars + Solutions(pr), probs + [pr]);
    }
  }

  /** Otherwise there is one status and one problem per pass, in order, everything accumulated
    * before is still in place, and the last pass is a failed solve unless every pass was done. */
  lemma {:induction false} CollectShape(steps: seq<Step>, k: nat, status: seq<string>, vars: seq<Solution>, probs: seq<Problem>)
    requires k <= |steps| && |status| == |probs| == k
    requires Collect(steps, k, status, vars, probs).status.Some?
    ensures var out := Collect(steps, k, status, vars, probs);
      && |out.status.value| == |out.problems|
      && k <= |out.problems| <= |steps|
      && out.status.value[..k] == status && out.problems[..k] == probs && vars <= out.variables
      && (forall i :: k <= i < |out.problems| ==>
            && !steps[i].BuildFailed?
            && out.status.value[i] == StepText(steps[i])
            && out.problems[i] == steps[i].problem)
      && (forall i :: k <= i < |out.problems| - 1 ==> steps[i].Done?)
      && (k < |steps| ==> k < |out.problems|)
      && (0 < |out.problems| < |steps| ==> steps[|out.problems| - 1].SolveFailed?)
    decreases |steps| - k
  {
    if k < |steps| && steps[k].Done? {
      var pr := steps[k].problem;
      var status', vars', probs' := status + [steps[k].text], vars + Solutions(pr), probs + [pr];
      CollectShape(steps, k + 1, status', vars', probs');
      var out := Collect(steps, k + 1, status', vars', probs');
      assert out.status.value[..k] == status'[..k];
      assert out.problems[..k] == probs'[..k];
    }
  }

  /** The variables the loop hands back are those of the problems it records, problem by problem. */
  lemma {:induction false} CollectVariables(steps: seq<Step>, k: nat, status: seq<string>, vars: seq<Solution>, probs: seq<Problem>)
    requires k <= |steps| && vars == AllSolutions(probs)
    requires Collect(steps, k, status, vars, probs).status.Some?
    ensures Collect(steps, k, status, vars, probs).variables == AllSolutions(Collect(steps, k, status, vars, probs).problems)
    decreases |steps| - k
  {
    if k < |steps| && !steps[k].BuildFailed? {
      var pr := steps[k].problem;
      assert (probs + [pr])[..|probs|] == probs;
      if steps[k].Done? {
        CollectVariables(steps, k + 1, status + [steps[k].text], vars + Solutions(pr), probs + [pr]);
      }
    }
  }

  /** Conversely, a build failure reached after passes that all ended in a status discards them. */
  lemma {:induction false} CollectReachesBuildFailure(steps: seq<Step>, k: nat, j: nat, status: seq<string>, vars: seq<Solution>, probs: seq<Problem>)
    requires k <= j < |steps| && steps[j].BuildFailed? && forall i :: k <= i < j ==> steps[i].Done?
    ensures Collect(steps, k, status, vars, probs) == Sentinel
    decreases j - k
  {
    if k < j {
      var pr := steps[k].problem;
      CollectReachesBuildFailure(steps, k + 1, j, status + [steps[k].text], vars + Solutions(pr), probs + [pr]);
    }
  }

  /** The unsolved triple comes back exactly when the rate is negative, the tables cannot be
    * read, or a sub-problem fails to build before any solve has failed. */
  lemma ModelUnsolved(t: Tables, p: Params, debug: bool, solve: (LpProblem, SolverConfig) -> SolveOutcome, subs: seq<SubProblem>)
    requires p.rate >= 0.0 && Plan(t, p) == Some(subs)
    ensures Model(t, p, debug, solve).status.None? <==>
      exists j :: 0 <= j < |subs| && StepOf(t, p, subs[j], debug, solve).BuildFailed?
                  && forall i :: 0 <= i < j ==> StepOf(t, p, subs[i], debug, solve).Done?
    ensures Model(t, p, debug, solve).status.None? ==> Model(t, p, debug, solve) == Sentinel
  {
    if Model(t, p, debug, solve).status.None? {
      UnsolvedByBuildFailure(t, p, debug, solve, subs);
    }
    if exists j :: 0 <= j < |subs| && StepOf(t, p, subs[j], debug, solve).BuildFailed?
                   && forall i :: 0 <= i < j ==> StepOf(t, p, subs[i], debug, solve).Done? {
      var j :| 0 <= j < |subs| && StepOf(t, p, subs[j], debug, solve).BuildFailed?
               && forall i :: 0 <= i < j ==> StepOf(t, p, subs[i], debug, solve).Done?;
      BuildFailureUnsolves(t, p, debug, solve, subs, j);
    }
  }

  /** Past the guard and the reading of the tables, the result is that of the loop. */
  lemma ModelIsCollect(t: Tables, p: Params, debug: bool, solve: (LpProblem, SolverConfig) -> SolveOutcome, subs: seq<SubProblem>)
    requires p.rate >= 0.0 && Plan(t, p) == Some(subs)
    ensures Model(t, p, debug, solve) == Collect(Steps(t, p, subs, debug, solve), 0, [], [], [])
  {
  }

  lemma UnsolvedByBuildFailure(t: Tables, p: Params, debug: bool, solve: (LpProblem, SolverConfig) -> SolveOutcome, subs: seq<SubProblem>)
    requires p.rate >= 0.0 && Plan(t, p) == Some(subs)
    requires Model(t, p, debug, solve).status.None?
    ensures Model(t, p, debug, solve) == Sentinel
    ensures exists j :: 0 <= j < |subs| && StepOf(t, p, subs[j], debug, solve).BuildFailed?
                        && forall i :: 0 <= i < j ==> StepOf(t, p, subs[i], debug, solve).Done?
  {
    var steps := Steps(t, p, subs, debug, solve);
    ModelIsCollect(t, p, debug, solve, subs);
    CollectSentinel(steps, 0, [], [], []);
    var j :| 0 <= j < |steps| && steps[j].BuildFailed? && forall i :: 0 <= i < j ==> steps[i].Done?;
    FirstFailureOfSteps(t, p, debug, solve, subs, j);
  }

  /** A first build failure found in the list of steps is one among the sub-problems' own passes. */
  lemma FirstFailureOfSteps(t: Tables, p: Params, debug: bool, solve: (LpProblem, SolverConfig) -> SolveOutcome, subs: seq<SubProblem>, j: nat)
    requires j < |subs|
    requires Steps(t, p, subs, debug, solve)[j].BuildFailed?
    requires forall i :: 0 <= i < j ==> Steps(t, p, subs, debug, solve)[i].Done?
    ensures StepOf(t, p, subs[j], debug, solve).BuildFailed?
    ensures forall i :: 0 <= i < j ==> StepOf(t, p, subs[i], debug, solve).Done?
  {
    var steps := Steps(t, p, subs, debug, solve);
    forall i | 0 <= i < j
      ensures StepOf(t, p, subs[i], debug, solve).Done?
    {
      assert steps[i].Done?;
    }
  }

  lemma BuildFailureUnsolves(t: Tables, p: Params, debug: bool, solve: (LpProblem, SolverConfig) -> SolveOutcome, subs: seq<SubProblem>, j: nat)
    requires p.rate >= 0.0 && Plan(t, p) == Some(subs)
    requires j < |subs| && StepOf(t, p, subs[j], debug, solve).BuildFailed?
    requires forall i :: 0 <= i < j ==> StepOf(t, p, subs[i], debug, solve).Done?
    ensures Model(t, p, debug, solve) == Sentinel
  {
    var steps := Steps(t, p, subs, debug, solve);
    ModelIsCollect(t, p, debug, solve, subs);
    CollectReachesBuildFailure(steps, 0, j, [], [], []);
  }

  /** A route table of one route serving two branches, with one day and no mandatory day. */
  function OneRouteTables(cost: real): Tables
  {
    Tables([[1.0, 1.0]], [cost], [0.0, 0.0], [15.0, 15.0], [[1.0]], [[1.0], [1.0]])
  }

  const OneRouteParams: Params := Params(1, 2, 1, [], 0.0, 0.0, "cbc", 4)

  /** Over that table the test passes and each branch gets the route of its own index: the first
    * sub-problem builds and, whenever the solve returns, is done; the second names route 1, which
    * does not exist, and its build raises. */
  lemma OneRouteSplit(debug: bool, solve: (LpProblem, SolverConfig) -> SolveOutcome, cost: real)
    requires forall lp, c :: solve(lp, c).Solved?
    ensures Plan(OneRouteTables(cost), OneRouteParams) == Some([SubProblem([0], [0]), SubProblem([1], [1])])
    ensures StepOf(OneRouteTables(cost), OneRouteParams, SubProblem([0], [0]), debug, solve).Done?
    ensures StepOf(OneRouteTables(cost), OneRouteParams, SubProblem([1], [1]), debug, solve).BuildFailed?
  {
    var t, p := OneRouteTables(cost), OneRouteParams;
    assert Loadtxt(t.routeBranches) == Some(Vector([1.0, 1.0]));
    assert SubProblems(p, true) == [SubProblem([0], [0]), SubProblem([1], [1])];
    assert BuildOk(t, p, SubProblem([0], [0]));
    assert !DiagnosisRaises(t, p, [0]);
    assert 1 in SubProblem([1], [1]).routes;
  }

  /** As written, one route serving two branches passes the separability test, so branch 1 is
    * given route 1, which does not exist: its build raises and the run comes back unsolved even
    * though every solve succeeds. */
  lemma OneRouteTableUnsolved(debug: bool, solve: (LpProblem, SolverConfig) -> SolveOutcome, cost: real)
    requires forall lp, c :: solve(lp, c).Solved?
    ensures Model(OneRouteTables(cost), OneRouteParams, debug, solve) == Sentinel
  {
    var t, p, subs := OneRouteTables(cost), OneRouteParams, [SubProblem([0], [0]), SubProblem([1], [1])];
    OneRouteSplit(debug, solve, cost);
    assert forall i :: 0 <= i < 1 ==> StepOf(t, p, subs[i], debug, solve).Done? by {
      assert subs[0] == SubProblem([0], [0]);
    }
    BuildFailureUnsolves(t, p, debug, solve, subs, 1);
  }

  /** The intended test rejects that table, and the single global sub-problem it then keeps
    * builds. */
  lemma OneRouteTableIntended(cost: real)
    ensures !SeparableIntended(OneRouteTables(cost).routeBranches)
    ensures SubProblems(OneRouteParams, false) == [SubProblem([0, 1], [0])]
    ensures BuildOk(OneRouteTables(cost), OneRouteParams, SubProblem([0, 1], [0]))
  {
    assert Range(2) == [0, 1] && Range(1) == [0];
    var t, sp := OneRouteTables(cost), SubProblem([0, 1], [0]);
    assert forall b :: b in sp.branches ==> b == 0 || b == 1;
  }

  /** Whenever statuses come back, the i-th status and problem are those of the i-th sub-problem's
    * own pass: a failed solve stops the loop but leaves the earlier results as they were. Each
    * recorded problem is the sub-problem as built, and the variables are theirs, in order. */
  lemma ModelSolved(t: Tables, p: Params, debug: bool, solve: (LpProblem, SolverConfig) -> SolveOutcome, subs: seq<SubProblem>)
    requires p.rate >= 0.0 && Plan(t, p) == Some(subs)
    requires Model(t, p, debug, solve).status.Some?
    ensures var out := Model(t, p, debug, solve);
      && |out.status.value| == |out.problems| <= |subs|
      && (|subs| > 0 ==> |out.problems| > 0)
      && (forall i :: 0 <= i < |out.problems| ==>
            && BuildOk(t, p, subs[i])
            && out.problems[i].lp == Built(t, p, subs[i])
            && out.status.value[i] == StepText(StepOf(t, p, subs[i], debug, solve)))
      && (|out.problems| < |subs| ==> out.status.value[|out.problems| - 1] == SOLVE_ERROR_TEXT)
      && out.variables == AllSolutions(out.problems)
  {
    var steps, out := Steps(t, p, subs, debug, solve), Model(t, p, debug, solve);
    ModelIsCollect(t, p, debug, solve, subs);
    CollectVariables(steps, 0, [], [], []);
    LoopShape(steps, out);
    StepsBuilt(t, p, debug, solve, subs, steps);
    SolvedBuilt(t, p, subs, steps, out);
    SolvedTexts(t, p, debug, solve, subs, steps, out);
  }

  /** Each recorded problem is its sub-problem as built. */
  lemma SolvedBuilt(t: Tables, p: Params, subs: seq<SubProblem>, steps: seq<Step>, out: ModelOutput)
    requires |steps| == |subs| && forall i :: 0 <= i < |subs| && !steps[i].BuildFailed? ==>
      BuildOk(t, p, subs[i]) && steps[i].problem.lp == Built(t, p, subs[i])
    requires out == Collect(steps, 0, [], [], []) && out.status.Some?
    ensures |out.problems| <= |subs|
    ensures forall i :: 0 <= i < |out.problems| ==> BuildOk(t, p, subs[i]) && out.problems[i].lp == Built(t, p, subs[i])
  {
    LoopPasses(steps, out);
  }

  /** Every pass past the build, listed in order, records its sub-problem as built. */
  lemma StepsBuilt(t: Tables, p: Params, debug: bool, solve: (LpProblem, SolverConfig) -> SolveOutcome, subs: seq<SubProblem>,
                   steps: seq<Step>)
    requires |steps| == |subs| && forall i :: 0 <= i < |subs| ==> steps[i] == StepOf(t, p, subs[i], debug, solve)
    ensures forall i :: 0 <= i < |subs| && !steps[i].BuildFailed? ==>
      BuildOk(t, p, subs[i]) && steps[i].problem.lp == Built(t, p, subs[i])
  {
    forall i | 0 <= i < |subs| && !steps[i].BuildFailed?
      ensures BuildOk(t, p, subs[i]) && steps[i].problem.lp == Built(t, p, subs[i])
    {
      StepBuilt(t, p, subs[i], debug, solve);
    }
  }

  /** Each recorded status is the one its sub-problem's own pass left. */
  lemma SolvedTexts(t: Tables, p: Params, debug: bool, solve: (LpProblem, SolverConfig) -> SolveOutcome, subs: seq<SubProblem>,
                    steps: seq<Step>, out: ModelOutput)
    requires |steps| == |subs| && forall i :: 0 <= i < |subs| ==> steps[i] == StepOf(t, p, subs[i], debug, solve)
    requires out == Collect(steps, 0, [], [], []) && out.status.Some?
    ensures |out.status.value| == |out.problems| <= |subs|
    ensures forall i :: 0 <= i < |out.problems| ==> out.status.value[i] == StepText(StepOf(t, p, subs[i], debug, solve))
  {
    LoopPasses(steps, out);
  }

  /** The loop run from the start, when it returns statuses: one per recorded pass, each that
    * pass's own, and a failed solve as the last unless every pass was recorded. */
  lemma LoopShape(steps: seq<Step>, out: ModelOutput)
    requires out == Collect(steps, 0, [], [], []) && out.status.Some?
    ensures && |out.status.value| == |out.problems| <= |steps|
      && (|steps| > 0 ==> |out.problems| > 0)
      && (forall i :: 0 <= i < |out.problems| ==>
            && !steps[i].BuildFailed?
            && out.status.value[i] == StepText(steps[i])
            && out.problems[i] == steps[i].problem)
      && (|out.problems| < |steps| ==> out.status.value[|out.problems| - 1] == SOLVE_ERROR_TEXT)
  {
    LoopLengths(steps, out);
    LoopPasses(steps, out);
    if |out.problems| < |steps| {
      LoopLast(steps, out);
    }
  }

  lemma LoopLengths(steps: seq<Step>, out: ModelOutput)
    requires out == Collect(steps, 0, [], [], []) && out.status.Some?
    ensures |out.status.value| == |out.problems| <= |steps|
    ensures |steps| > 0 ==> |out.problems| > 0
  {
    CollectShape(steps, 0, [], [], []);
  }

  lemma LoopPasses(steps: seq<Step>, out: ModelOutput)
    requires out == Collect(steps, 0, [], [], []) && out.status.Some?
    ensures |out.status.value| == |out.problems| <= |steps|
    ensures forall i :: 0 <= i < |out.problems| ==>
      && !steps[i].BuildFailed?
      && out.status.value[i] == StepText(steps[i])
      && out.problems[i] == steps[i].problem
  {
    CollectShape(steps, 0, [], [], []);
  }

  lemma LoopLast(steps: seq<Step>, out: ModelOutput)
    requires out == Collect(steps, 0, [], [], []) && out.status.Some?
    requires |out.problems| < |steps|
    ensures 0 < |out.problems| == |out.status.value|
    ensures out.status.value[|out.problems| - 1] == SOLVE_ERROR_TEXT
  {
    LoopPasses(steps, out);
    CollectEndsInFailure(steps, 0, [], [], []);
  }

  /** A loop that stops before the last sub-problem stops on a failed solve. */
  lemma {:induction false} CollectEndsInFailure(steps: seq<Step>, k: nat, status: seq<string>, vars: seq<Solution>, probs: seq<Problem>)
    requires k <= |steps| && |probs| == k
    requires Collect(steps, k, status, vars, probs).status.Some?
    ensures var n := |Collect(steps, k, status, vars, probs).problems|;
      n < |steps| ==> 0 < n && steps[n - 1].SolveFailed?
    decreases |steps| - k
  {
    if k < |steps| && steps[k].Done? {
      var pr := steps[k].problem;
      CollectEndsInFailure(steps, k + 1, status + [steps[k].text], vars + Solutions(pr), probs + [pr]);
    }
  }

  /** Every pass past the build records the problem as built. */
  lemma StepBuilt(t: Tables, p: Params, sp: SubProblem, debug: bool, solve: (LpProblem, SolverConfig) -> SolveOutcome)
    ensures !StepOf(t, p, sp, debug, solve).BuildFailed? <==> BuildOk(t, p, sp)
    ensures BuildOk(t, p, sp) ==> StepOf(t, p, sp, debug, solve).problem.lp == Built(t, p, sp)
  {
  }

  /** When every pass ends in a status, the loop runs to the end. */
  lemma CollectAllDone(steps: seq<Step>)
    requires forall i :: 0 <= i < |steps| ==> steps[i].Done?
    ensures var out := Collect(steps, 0, [], [], []);
      && out.status.Some?
      && |out.status.value| == |out.problems| == |steps|
      && forall i :: 0 <= i < |steps| ==> out.status.value[i] == steps[i].text && out.problems[i] == steps[i].problem
  {
    if Collect(steps, 0, [], [], []).status.None? {
      CollectSentinel(steps, 0, [], [], []);
    }
    CollectShape(steps, 0, [], [], []);
  }

  /** On a normal exit there is one status and one problem per sub-problem, in order; each
    * problem is the sub-problem as built, each status is the one its own solve produced, and
    * the variables are those of the problems, in order. */
  lemma NormalExit(t: Tables, p: Params, debug: bool, solve: (LpProblem, SolverConfig) -> SolveOutcome, subs: seq<SubProblem>)
    requires p.rate >= 0.0 && Plan(t, p) == Some(subs)
    requires forall i :: 0 <= i < |subs| ==> StepOf(t, p, subs[i], debug, solve).Done?
    ensures var out := Model(t, p, debug, solve);
      && out.status.Some?
      && |out.status.value| == |out.problems| == |subs|
      && (forall i :: 0 <= i < |subs| ==>
            && out.problems[i].lp == Built(t, p, subs[i])
            && out.status.value[i] == StepOf(t, p, subs[i], debug, solve).text)
      && out.variables == AllSolutions(out.problems)
  {
    var steps := Steps(t, p, subs, debug, solve);
    CollectAllDone(steps);
    var out := Collect(steps, 0, [], [], []);
    CollectVariables(steps, 0, [], [], []);
    assert Model(t, p, debug, solve) == out;
    forall i | 0 <= i < |subs|
      ensures out.problems[i].lp == Built(t, p, subs[i])
    {
      StepBuilt(t, p, subs[i], debug, solve);
    }
  }

  /** A status is never the solve-error text, so an early return is recognisable from its last status. */
  lemma ReportIsNotSolveError(code: int, box: bool, mandatory: bool)
    ensures Report(code, box, mandatory) != SOLVE_ERROR_TEXT
  {
    var r := Report(code, box, mandatory);
    var st := StatusText(code);
    assert r[..|st|] == st;
  }
}
