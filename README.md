# cash_transportation in Dafny

This project models the planning core of `cash_transportation`. The system plans armoured-truck
routes that collect cash from bank branches. Each day, for each route, it decides whether
the truck goes out, and how much it withdraws from each branch it visits. The goal is to keep
every branch's deposit box under its capacity at the lowest dispatch cost. Optionally the plan
also pays a daily interest charge on the cash left in the branches. The model covers four
pieces of the system.

- `model_problem` (the PuLP modeller) is modelled in modules `CashData`, `Lp`, `Constraints`,
  `Feasibility`, `Solving` and `ModelProblem`. The model covers:
  - the negative-rate guard;
  - the separability test on the route table as `np.loadtxt` shapes it;
  - the split into one sub-problem per branch;
  - the `x_d_r`, `e_b_d` and `t_b_d_r` variables and their names;
  - the objective, with and without interest;
  - the seven constraint families;
  - the solver choice;
  - the status words and the two diagnostics appended to them;
  - the three early returns.

  The solver is a parameter: a function from the built problem to an outcome.
- `helpers.py` (both the packaged copy and the legacy copy) is modelled in module `Helpers`
  for:
  - `calculo_recaudaciones`;
  - `calculo_ganancia`, including the gain, the two objective sums and the financial sum
    over the `e` variables;
  - the gate and the sums of `agregar_resultado`;
  - the mandatory-day extraction of `generate_csvs`.

  `generar_escenarios` is modelled in module `Scenarios`.
- `scripts/run_cuopt_mps.py` is modelled in module `CuoptRunner`. It covers executable
  resolution, the command line and the exit codes.
- `Text` and `Seqs` hold the decimal and string helpers (`str`, `int`, `split`, `join`) and
  the sequence helpers the proofs need. `WorkedExample` is a three-day instance on which
  the constraints force two dispatches.

Money is modelled as `real`, and an assignment of values to variables is a function `Var -> real`. A
plan is feasible when it satisfies every row the model builds and every variable is in its
bounds (binary `x`, non-negative `e` and `t`). The lemmas in `Feasibility` state what each
constraint family means for a feasible plan. For example:

- a branch's cash is its prefix sum of collections minus withdrawals;
- a withdrawal forces the route out that day;
- a closed day forbids a dispatch;
- every branch is served on some mandatory day.

The lemmas also state the value of the objective under a plan. `Helpers` connects that value
to the financial sum that `calculo_ganancia` and `agregar_resultado` compute.

model.py:35-41 tests separability on the array that `np.loadtxt` returns. A route table with
one row or one column loads as a 1-D array, and every 1-D array passes the test, square or
not (`CashData.OneDimensionalSeparable`). The model follows the code here; "## Findings"
says what this does to such tables.

## Model

| member | source | states |
|---|---|---|
| CashData.SeparableMatrixIff | src/cash_transportation/solvers/solverpulp/model.py:35-36 | A route table of at least 2x2 loads as a matrix, and it is separable exactly when it is square and diagonal. |
| CashData.RectangularNotSeparable | src/cash_transportation/solvers/solverpulp/model.py:36 | A matrix of at least 2x2 that is not square is never separable. |
| CashData.OneDimensionalSeparable | src/cash_transportation/solvers/solverpulp/model.py:35-36 | A table with one row or one column loads, and it is always separable. |
| CashData.SeparableIntendedIsFaithful | src/cash_transportation/solvers/solverpulp/model.py:35-44 | With one parameter per row and column of the route table, the per-branch split keeps every route, names only existing routes and keeps each route's branches together exactly when the table is square and diagonal. The global split always does, so choosing by the intended test never loses a route. |
| CashData.SeparableAsWrittenLosesRoutes | src/cash_transportation/solvers/solverpulp/model.py:35-41 | As written, the 1×2 table [[1, 1]] and the 2×1 table [[1], [1]] both load as 1-D arrays and pass the test, and the per-branch split of either loses a route. |
| CashData.DecompositionCoversEachBranchOnce | src/cash_transportation/solvers/solverpulp/model.py:41-44 | Every branch lies in exactly one sub-problem. There are n_branches sub-problems when separable and one otherwise. Sub-problem k has route k when separable, and all routes otherwise. |
| Constraints.BuildObjective | src/cash_transportation/solvers/solverpulp/model.py:159-168 | The loop builds the objective specification: route cost times dispatches, plus the interest terms when the rate is positive. |
| Constraints.AddBalanceRows | src/cash_transportation/solvers/solverpulp/model.py:174-181 | The loop appends exactly the cash-balance rows, branch by branch and day by day. |
| Constraints.AddBigMRows | src/cash_transportation/solvers/solverpulp/model.py:185-187 | The loop appends exactly the big-M rows, day by day and route by route. |
| Constraints.AddNonIncidenceRows | src/cash_transportation/solvers/solverpulp/model.py:191-193 | The loop appends exactly the rows that forbid withdrawing from branches off the route. |
| Constraints.AddBoxRows | src/cash_transportation/solvers/solverpulp/model.py:197-199 | The loop appends exactly the box-capacity rows. |
| Constraints.AddWithdrawalRows | src/cash_transportation/solvers/solverpulp/model.py:203-206 | The loop appends exactly the rows that bound each withdrawal by the previous day's cash. |
| Constraints.AddCalendarRows | src/cash_transportation/solvers/solverpulp/model.py:210-212 | The loop appends exactly the business-day rows. |
| Constraints.AddMandatoryRows | src/cash_transportation/solvers/solverpulp/model.py:215-220 | The loop appends one mandatory-day row per branch, and none when no days are mandatory. |
| Constraints.BuildRows | src/cash_transportation/solvers/solverpulp/model.py:172-220 | The seven loops together build the rows in the source's order. |
| Feasibility.DeclaredExactly | src/cash_transportation/solvers/solverpulp/model.py:119-155 | A variable is declared exactly when it is an x, e or t variable whose indices lie in the sub-problem and the horizon. |
| Feasibility.DeclaredNoDuplicates | src/cash_transportation/solvers/solverpulp/model.py:119-155 | With distinct branches and routes, no variable is declared twice and no two declared variables share a name. |
| Feasibility.DeclaredCount | src/cash_transportation/solvers/solverpulp/model.py:119-155 | The number of variables is days·routes + branches·days + branches·days·routes. |
| Feasibility.BalanceRowMeaning | src/cash_transportation/solvers/solverpulp/model.py:174-181 | A balance row holds exactly when e_b_d equals the opening cash (day 0) or e_b_(d-1), plus the collection, minus the day's withdrawals. |
| Feasibility.BalanceIsPrefixSum | src/cash_transportation/solvers/solverpulp/model.py:172-181 | Under all rows, each e_b_d equals the opening cash plus the collections minus the withdrawals up to day d. |
| Feasibility.PrefixSumSatisfiesBalance | src/cash_transportation/solvers/solverpulp/model.py:172-181 | The converse: prefix-sum cash satisfies every balance row. |
| Feasibility.BigMRowBound | src/cash_transportation/solvers/solverpulp/model.py:185-187 | Under a big-M row, each incident withdrawal is at most BIG_M times the dispatch. |
| Feasibility.NonIncidenceRowZero | src/cash_transportation/solvers/solverpulp/model.py:191-193 | Under a non-incidence row, each withdrawal off the route is zero. |
| Feasibility.WithdrawalForcesDispatch | src/cash_transportation/solvers/solverpulp/model.py:183-187 | In a feasible plan, a positive withdrawal on a route forces x_d_r = 1. |
| Feasibility.NoWithdrawalOffRoute | src/cash_transportation/solvers/solverpulp/model.py:189-193 | In a feasible plan, nothing is withdrawn from a branch the route does not visit. |
| Feasibility.NoDispatchOnClosedDay | src/cash_transportation/solvers/solverpulp/model.py:208-212 | In a feasible plan, a route is never dispatched on a day that is not a business day. |
| Feasibility.BoxCapacityRespected | src/cash_transportation/solvers/solverpulp/model.py:195-199 | Under all rows, each day's cash is at most the box times (1 + extra_box_percent). |
| Feasibility.BoxRowMeaning | src/cash_transportation/solvers/solverpulp/model.py:199 | A box row holds exactly when the cash is within the enlarged box. |
| Feasibility.WithdrawalRowMeaning | src/cash_transportation/solvers/solverpulp/model.py:203-206 | A withdrawal row holds exactly when the day's withdrawals are at most the previous cash (the opening cash on day 0). |
| Feasibility.WithdrawalCoveredByPreviousBalance | src/cash_transportation/solvers/solverpulp/model.py:201-206 | Under all rows, no branch gives out more than it held the day before. |
| Feasibility.MandatoryRowMeaning | src/cash_transportation/solvers/solverpulp/model.py:217-220 | A satisfied mandatory row has some route and some mandatory day with incidence times dispatch positive. |
| Feasibility.MandatoryDayServed | src/cash_transportation/solvers/solverpulp/model.py:214-220 | Under all rows, when some days are mandatory, every branch is visited on one of them. |
| Feasibility.RowCount | src/cash_transportation/solvers/solverpulp/model.py:172-220 | The number of rows is 3·branches·days + 3·days·routes, plus branches when some days are mandatory. |
| Feasibility.EvalCost | src/cash_transportation/solvers/solverpulp/model.py:160-162 | The cost terms evaluate to the sum of each route's cost times its dispatches. |
| Feasibility.EvalInterest | src/cash_transportation/solvers/solverpulp/model.py:166 | The interest terms evaluate to the rate times the cash held on every day but the last. |
| Feasibility.OpeningInterestValue | src/cash_transportation/solvers/solverpulp/model.py:165 | The constant interest term is the rate times the total opening cash. |
| Feasibility.InterestObjectiveValue | src/cash_transportation/solvers/solverpulp/model.py:164-166 | With a positive rate, the objective is the dispatch cost plus rate·opening cash plus rate·held cash. |
| Feasibility.CashChargeMonotone | src/cash_transportation/solvers/solverpulp/model.py:164-166 | Holding more cash before the last day is never charged less, and nothing is charged without a positive rate. |
| Feasibility.ObjectiveValue | src/cash_transportation/solvers/solverpulp/model.py:159-168 | The objective's value under any plan is the dispatch cost plus the cash charge, which is zero when the rate is not positive. |
| Lp.NameRoundTrip | src/cash_transportation/solvers/solverpulp/model.py:119-155 | Parsing a variable's name gives back the variable. |
| Lp.NameInjective | src/cash_transportation/solvers/solverpulp/model.py:119-155 | Distinct variables have distinct names. |
| Lp.NameParts | src/cash_transportation/helpers.py:77-79 | Splitting a name at `_` gives the kind letter and the decimal indices. |
| Text.IntRoundTrip | src/cash_transportation/helpers.py:205-206 | `int(str(i)) == i` for every integer. |
| Solving.SelectSolver | src/cash_transportation/solvers/solverpulp/model.py:222-238 | A known name selects its backend, and any other name selects CBC. Threads are passed only to CBC, Gurobi and HiGHS. The CBC tuning (strong, presolve) is set only for CBC. |
| Solving.SelectSolverByName | src/cash_transportation/solvers/solverpulp/model.py:224-238 | Each backend's own name selects it. An unknown name behaves exactly like "cbc". |
| Solving.StatusText | src/cash_transportation/solvers/solverpulp/model.py:244-255 | The optimal text is written exactly for the optimal code. An unknown code gets the "Estado desconocido" prefix. |
| Solving.StatusRoundTrip | src/cash_transportation/solvers/solverpulp/model.py:244-255 | The status code can be read back from its text. |
| Solving.StatusTextInjective | src/cash_transportation/solvers/solverpulp/model.py:244-255 | Different codes give different texts. |
| Solving.ReportRoundTrip | src/cash_transportation/solvers/solverpulp/model.py:244-266 | The code and both diagnostic flags can be read back from the status text with its suffixes. |
| Solving.ReportIsOptimal | src/cash_transportation/solvers/solverpulp/model.py:244-266 | The bare optimal text is reported exactly for an optimal code with neither diagnostic. |
| Solving.MaxOf | src/cash_transportation/solvers/solverpulp/model.py:259 | `max` of a non-empty list is an element of it that no element exceeds. |
| Solving.CheckBoxes | src/cash_transportation/solvers/solverpulp/model.py:258-261 | The loop flags a box exactly when some branch's largest collection exceeds its enlarged box. |
| Solving.CheckMandatoryDays | src/cash_transportation/solvers/solverpulp/model.py:263-266 | The check raises (None) exactly where indexing fails. Otherwise it returns whether no mandatory day is a business day of the route. |
| Solving.Diagnose | src/cash_transportation/solvers/solverpulp/model.py:243-266 | The status text with both diagnostics appended, or None where the check raises. |
| Solving.BoxFlagIndependentOfOutcome | src/cash_transportation/solvers/solverpulp/model.py:258-261 | An exceeded box is reported whatever the solver returned, and the code is kept. |
| Solving.DiagnosisRaisesOnlyWithoutBranches | src/cash_transportation/solvers/solverpulp/model.py:263-264 | When the problem built and has branches, the mandatory-day check does not raise. |
| ModelProblem.Solutions | src/cash_transportation/solvers/solverpulp/model.py:270 | `problem.variables()` pairs each declared variable with its value, when the solver gave one. |
| ModelProblem.BuildProblem | src/cash_transportation/solvers/solverpulp/model.py:111-220 | The built problem is the objective and the rows of the specification. |
| ModelProblem.RunStep | src/cash_transportation/solvers/solverpulp/model.py:110-277 | One pass of the loop: a build failure, a solve error, or the diagnosed status. |
| ModelProblem.ModelProblem | src/cash_transportation/solvers/solverpulp/model.py:9-286 | The whole function, with its early returns, equals the specification `Model`. |
| ModelProblem.NegativeRateRejected | src/cash_transportation/solvers/solverpulp/model.py:29-31 | A negative rate returns `(None, [], [])`. |
| ModelProblem.ModelUnsolved | src/cash_transportation/solvers/solverpulp/model.py:29-281 | The status is None exactly when some sub-problem fails to build after all earlier ones ran normally. It is then the sentinel `(None, [], [])`. |
| ModelProblem.UnsolvedByBuildFailure | src/cash_transportation/solvers/solverpulp/model.py:279-281 | A None status comes from a first build failure and is the sentinel. |
| ModelProblem.BuildFailureUnsolves | src/cash_transportation/solvers/solverpulp/model.py:279-281 | The converse: a build failure after normal passes yields the sentinel. |
| ModelProblem.ModelSolved | src/cash_transportation/solvers/solverpulp/model.py:268-277 | With a status list, it has one word per problem. Each problem is the built one for its sub-problem and its word is that pass's text. A short list ends in the solve-error word. The variables are those of the recorded problems, in order. |
| ModelProblem.NormalExit | src/cash_transportation/solvers/solverpulp/model.py:268-286 | When every pass runs normally, every sub-problem yields its built problem and its diagnosed status, and the variables are those of all the problems, in order. |
| ModelProblem.CollectVariables | src/cash_transportation/solvers/solverpulp/model.py:270-276 | Whenever the loop ends with a status list, its variables are the concatenation of the recorded problems' variables. |
| ModelProblem.OneRouteSplit | src/cash_transportation/solvers/solverpulp/model.py:35-162 | Over the one-route, two-branch table, the plan gives branch 1 route 1, which does not exist: the first sub-problem's pass is done and the second one's build raises. |
| ModelProblem.OneRouteTableUnsolved | src/cash_transportation/solvers/solverpulp/model.py:159-162 | Over that table the run returns `(None, [], [])` even though every solve succeeds. |
| ModelProblem.OneRouteTableIntended | src/cash_transportation/solvers/solverpulp/model.py:41-44 | The intended test rejects that table, and the single global sub-problem it then keeps builds. |
| ModelProblem.CollectEndsInFailure | src/cash_transportation/solvers/solverpulp/model.py:272-277 | The loop stops early only right after a solve error. |
| ModelProblem.ReportIsNotSolveError | src/cash_transportation/solvers/solverpulp/model.py:272-274 | No diagnosed status equals the solve-error word, so the two exits can be told apart. |
| ModelProblem.StepBuilt | src/cash_transportation/solvers/solverpulp/model.py:110-220 | A pass builds exactly when the tables are well formed for the sub-problem. It then holds the specified problem. |
| Helpers.Collections | src/cash_transportation/helpers.py:13-15 | `calculo_recaudaciones` returns its three tables unchanged. |
| Helpers.ObjectiveOfBuiltProblem | src/cash_transportation/helpers.py:58 | A solved built problem's objective value is the dispatch cost plus the cash charge of its values. |
| Helpers.SumObjectives | src/cash_transportation/helpers.py:57-60 | The sum exists exactly when every problem's objective has a value. An objective lacks a value only when one of its variables with a non-zero coefficient does: a route that costs 0 contributes no variable PuLP reads. |
| Helpers.FreeRoutesValueZero | src/cash_transportation/solvers/solverpulp/model.py:160-168 | Without interest and with every route costing 0, the objective's value is 0 even when the solve left no values, as PuLP's product with a zero constant is the empty expression. |
| Helpers.AddObjectives | src/cash_transportation/helpers.py:58 | The loop computes that sum. |
| Helpers.CountedMeaning | cash_transportation/helpers.py:73-78 | Comparing the day as a string counts every `e` variable. Parsing it first counts those before the last day. |
| Helpers.AccumulateHeld | cash_transportation/helpers.py:72-78 | The loop computes the financial sum: e_zero plus the counted values, or None where a value is missing. |
| Helpers.FinancialSumOfSubProblem | src/cash_transportation/helpers.py:201-207 | Over a sub-problem's variables, the string comparison sums the cash of all days. The parsed comparison sums all days but the last. |
| Helpers.SolutionsOfValuedProblem | src/cash_transportation/solvers/solverpulp/model.py:270 | A problem whose solve valued every declared variable hands back each declared variable with its value. |
| Helpers.ModelHeldSum | src/cash_transportation/helpers.py:201-207 | Over the variables `model_problem` returns, once every recorded problem has all its values, the counted cash is the cash each sub-problem's solution holds: over every day with the string comparison, over the days before the last with the parsed one. |
| Helpers.CorrectedFinancialSum | src/cash_transportation/helpers.py:201-207 | With the parsed comparison, the financial sum is e_zero plus the cash held on the days the objective charges. |
| Helpers.LogisticTotalIsInterestObjective | src/cash_transportation/helpers.py:74-84 | With e_zero the opening cash, the logistic total (sum times rate plus the cost without interest) equals the interest objective of the same plan. |
| Helpers.LastDayCountedAsWritten | src/cash_transportation/helpers.py:80 | A last-day `e` variable is counted by the string comparison and not by the parsed one. |
| Helpers.GainMeaning | src/cash_transportation/helpers.py:57-88 | The result is -1 exactly when an objective sum fails, and raises exactly when the financial sum does. It is non-finite exactly when L = 0. Otherwise g·L = L − F. |
| Helpers.CalculateGain | src/cash_transportation/helpers.py:18-88 | Runs the model with and without interest and returns the gain of the two runs. |
| Helpers.GainOfRuns | cash_transportation/helpers.py:54-83 | The straight-line code computes the gain of two given runs. |
| Helpers.NoGainWithoutInterest | cash_transportation/helpers.py:48-83 | With rate 0 and the same run twice, any ratio is 0. |
| Helpers.ReportNotAcute | src/cash_transportation/helpers.py:183 | No status `model_problem` writes equals the acute-accent literal the gate tests. |
| Helpers.GateAsWrittenNeverRecords | src/cash_transportation/helpers.py:183-185 | With the literal as written, every run is recorded as unsolved. |
| Helpers.StepIsOptimal | src/cash_transportation/solvers/solverpulp/model.py:243-266 | A built sub-problem's pass writes the bare optimal text exactly when its solve returned optimal and neither diagnostic applies. |
| Helpers.GateRecordsOptimal | src/cash_transportation/helpers.py:183-208 | Over the output of `model_problem`, with the optimal text the gate records a run exactly when the first sub-problem's solve returned optimal with neither diagnostic. A run with no sub-problem raises at `status[0]`. A recorded run holds the objective sum and the parsed financial sum. |
| Helpers.MandatoryDays | src/cash_transportation/helpers.py:334-336 | The result is the increasing list of exactly the positions whose flag is 1. |
| Helpers.MandatoryDaysKeepBuild | src/cash_transportation/helpers.py:334-336 | Mandatory days read from a horizon-long row never stop a sub-problem from building, and never make the mandatory-day diagnostic raise on one that builds. |
| Scenarios.CandidateMasks | cash_transportation/helpers.py:88-94 | The loop yields the increasing masks below 2^n_s other than 0 and the powers of two. There are 2^n_s − n_s − 1 of them. |
| Scenarios.Remove | src/cash_transportation/helpers.py:96 | `list.remove` drops one occurrence: the length falls by one and the multiset loses x. |
| Scenarios.Combinations | src/cash_transportation/helpers.py:100 | `itertools.combinations` gives C(n, k) increasing k-tuples in range, in lexicographic order. |
| Scenarios.PickAsWritten | src/cash_transportation/helpers.py:106 | After i iterations of the filter, one combination has been taken per draw below i, and the picks are the first combinations of the stream. |
| Scenarios.PickCombinations | cash_transportation/helpers.py:96-102 | The filter loop computes the as-written pick. It keeps as many combinations as were drawn, taken from the front of the stream. |
| Scenarios.DrawIgnoredAsWritten | src/cash_transportation/helpers.py:103-106 | As written, any two draws of the same size pick the same combinations, the first ones. |
| Scenarios.SecondDrawTakesFirstAsWritten | src/cash_transportation/helpers.py:103-106 | Drawing only index 1 of two combinations takes the first one as written, and the second one as meant. |
| Scenarios.DrawnInOrderSorted | src/cash_transportation/helpers.py:103-106 | The ordered draws are ascending and are exactly the draws below the number of combinations. |
| Scenarios.DrawnInOrderCount | src/cash_transportation/helpers.py:103-106 | There is one ordered draw per draw below the number of combinations. |
| Scenarios.PickDrawnTakesDrawn | src/cash_transportation/helpers.py:101-106 | The intended pick has one combination per draw: every pick is the combination at some draw, and every draw's combination is picked. |
| Scenarios.FirstDrawsInOrder | src/cash_transportation/helpers.py:103-106 | When the draws are exactly 0..n−1, the ordered draws are 0, 1, …, n−1. |
| Scenarios.DrawnScenariosMeaning | src/cash_transportation/helpers.py:91-117 | The intended scenarios hold one table per drawn combination and nothing else. Drawing 0..n−1 gives the first n tables. |
| Scenarios.BitsRoundTrip | src/cash_transportation/helpers.py:109-113 | The zero-padded binary digits of a mask read back as the mask. |
| Scenarios.CandidateHasTwoOnes | src/cash_transportation/helpers.py:92-98 | Every candidate route visits at least two branches. |
| Scenarios.StackWithoutExtraRoutes | src/cash_transportation/helpers.py:114 | Stacking the identity on an empty list fails as written. The corrected stack is the identity. |
| Scenarios.GenerateScenarios | src/cash_transportation/helpers.py:91-117 | The loop computes the scenarios as written, or the error they raise. |
| Scenarios.AsWrittenAgreesWithExtraRoutes | src/cash_transportation/helpers.py:93-114 | With n_p > n_s, the code as written and the corrected one agree. |
| Scenarios.AsWrittenFailsWithoutExtraRoutes | src/cash_transportation/helpers.py:114 | With n_p = n_s, the code as written fails, and the corrected one returns the identity. |
| Scenarios.ScenarioShape | src/cash_transportation/helpers.py:91-117 | Each scenario is an n_p × n_s table: the identity on top, then one bit row per chosen candidate mask. |
| Scenarios.BitRowsDistinct | src/cash_transportation/helpers.py:109-113 | Distinct masks give distinct route rows. |
| Scenarios.ScenarioNotSeparable | src/cash_transportation/helpers.py:114 | A scenario with extra routes and at least two branches is never separable for `model_problem`. |
| CuoptRunner.Candidates | scripts/run_cuopt_mps.py:11-14 | The preferred name, when truthy, is tried first, then `cuopt_cli` and `cuopt`. |
| CuoptRunner.FirstFound | scripts/run_cuopt_mps.py:15-18 | The first candidate whose lookup is truthy is found, and every earlier one is not. None means no candidate is found. |
| CuoptRunner.ResolveExecutable | scripts/run_cuopt_mps.py:10-22 | The loop returns the resolved path or the not-found error. |
| CuoptRunner.ResolvedMeaning | scripts/run_cuopt_mps.py:10-22 | A found preferred name wins, a success is the lookup of some candidate, and a failure means every candidate failed. |
| CuoptRunner.NotFoundNamesAll | scripts/run_cuopt_mps.py:19-22 | The error message names every candidate tried. |
| CuoptRunner.BuildCommand | scripts/run_cuopt_mps.py:25-34 | The method builds the command line. |
| CuoptRunner.CommandLayout | scripts/run_cuopt_mps.py:25-34 | The command is exe and the model path, then each optional flag with its value, then the extra flags, and nothing more. |
| CuoptRunner.ThreadsReadBack | scripts/run_cuopt_mps.py:30-31 | The thread count can be read back from its place in the command. |
| CuoptRunner.StripSeparator | scripts/run_cuopt_mps.py:59-62 | A leading `--` is dropped from the extra flags. Any other list is kept. |
| CuoptRunner.SecondSeparatorKept | scripts/run_cuopt_mps.py:59-62 | Only one `--` is dropped. |
| CuoptRunner.RunScript | scripts/run_cuopt_mps.py:37-103 | The script ends as specified: with an exit code, or with an exception that escapes `main`. |
| CuoptRunner.ExitCodeOrder | scripts/run_cuopt_mps.py:48-71 | The exit code is 2 when the model file is missing, else 3 when no executable is found, else 4 when starting raises `FileNotFoundError`, else the child's code. Any other `OSError` when starting escapes `main`, which happens exactly when the file exists, an executable is found and the start fails that way. |
| WorkedExample.InstancePlan | src/cash_transportation/solvers/solverpulp/model.py:34-41 | A 1x1 route table makes one sub-problem per branch. |
| WorkedExample.DispatchesForced | src/cash_transportation/solvers/solverpulp/model.py:172-212 | In the three-day instance, every feasible plan dispatches on days 1 and 2. |
| WorkedExample.CostAtLeastTwoDispatches | src/cash_transportation/solvers/solverpulp/model.py:159-212 | There, every feasible plan costs at least two route costs. |

## Left out

- Reading and writing CSV files, and creating the data directory, are left out. The tables are passed in as values, already parsed. Non-numeric cells and `pandas` parsing errors are not modelled. The load fails only on tables shorter than the rows the code reads. The build fails only where the code would raise: no route, no day, a short row, or a mandatory day at or past the last day of the horizon. Mandatory days are natural numbers in the model, so a negative day cannot be given. In the source such a day makes the build raise a `KeyError` on `days_routes[route][day]` (model.py:218) whenever there is a branch.
- `print`, the debug output, the timers and `seed_runtime` are left out.
- PuLP's internals and the solvers themselves are left out. A solve is an oracle parameter, a function from the built problem and the solver configuration to an outcome.
- ModelProblem.Solutions: PuLP's `problem.variables()` sorts the variables by name, but the model keeps the order in which they were declared. The sums built from them do not depend on the order.
- Floating point is left out: amounts are exact reals. A division by zero in the gain is the `NonFinite` outcome, standing for numpy's nan or inf.
- The Gurobi branch of `agregar_resultado` (src/cash_transportation/helpers.py:188-197) is left out. It re-picks a solution by number and reads `solverVar.Xn`. The `handles` flag stands for whether a value is available. The rest of `agregar_resultado` (its loops over seeds, rates and boxes, and the table set-up) and the rest of `generate_csvs` are left out.
- The legacy `helpers.py` imports an older `model` module, which is not part of this model. Its calls are modelled by `ModelProblem.Model`.
- `prop_suc` is accepted and ignored, as in the source.
- `np.random.choice` is the `drawn` parameter: n distinct indices below the number of combinations. `shutil.which`, `os.path.exists` and `subprocess.run` are parameters.
- In `run_cuopt_mps.py`, the echo of the child's output and the log file (lines 73-97) are left out. So are `argparse` and `os.path.abspath`. The time limit arrives as its `str(float)` text.
- Scenarios.Choices: the number of combinations is an exact integer. The source computes it with `scipy.special.comb`, a float, so the model matches only while that count stays below 2^53.
- CuoptRunner.RunScript: an exception that escapes `main` is the `Uncaught` outcome. Python then prints a traceback and exits with status 1. The traceback and that status are not modelled.
- Helpers.CalculateGain runs both models before checking the first objective sum, while the source checks it between the runs. The runs are pure, so the result is the same.
- Feasibility.WithdrawalForcesDispatch and the other lemmas that name `IncidenceIsBinary` assume the route table holds only 0 and 1. The source never checks this.

## Findings

| source | as written | input that shows it | evidently intended | confidence | as-written member | corrected member |
|---|---|---|---|---|---|---|
| src/cash_transportation/helpers.py:183 | The gate compares `status[0]` with "Resuelto (Óptimo)", with an acute accent. `model_problem` writes "Resuelto (Òptimo)", with a grave accent (model.py:245). | Any run whose first sub-problem solves to optimality. | Record optimal runs and skip the rest. | not executed | Helpers.GateAsWrittenNeverRecords | Helpers.GateRecordsOptimal |
| src/cash_transportation/helpers.py:80 (and cash_transportation/helpers.py:77) | The day piece of the name is a `str` and is compared with the int `n_d-1`, so the test is always true and the last day is counted. | A variable `e_0_{n_d-1}` worth x adds x to the financial sum. | Leave out the last day, as the objective does (model.py:166) and as agregar_resultado does with `int(dia)`. | not executed | Helpers.LastDayCountedAsWritten | Helpers.ModelHeldSum |
| src/cash_transportation/helpers.py:114 (and cash_transportation/helpers.py:110) | `np.vstack([np.eye(n_s), []])` raises when no extra route is chosen (n_p = n_s). | `generar_escenarios(2, 2, 1)` | Return the identity table. | not executed | Scenarios.AsWrittenFailsWithoutExtraRoutes | Scenarios.ScenarioShape |
| src/cash_transportation/helpers.py:106 (and cash_transportation/helpers.py:102) | The filter calls `next(escenarios_posibles)` only when the index is drawn. So the k-th hit takes the k-th combination, and the first n combinations are always picked, whatever `np.random.choice` drew. | Two combinations with only index 1 drawn: the first combination is picked. | Pick the combination at each drawn index ("Elegir n de esas listas"). | not executed | Scenarios.DrawIgnoredAsWritten | Scenarios.PickDrawnTakesDrawn |
| src/cash_transportation/solvers/solverpulp/model.py:35-41 | A table that loads as a 1-D array always passes the separability test, whatever its shape. With one route and n ≥ 2 branches, branch k is given route k. For k ≥ 1 that route does not exist, `cost_routes[k]` raises at line 162, and the run returns `(None, [], [])`. With n routes and one branch, routes 1..n−1 are silently dropped. | Route table [[1, 1]] with one day, one route and two branches, with every solve succeeding. | Split by branch only when the table is square and diagonal. | not executed | ModelProblem.OneRouteTableUnsolved | CashData.SeparableIntendedIsFaithful |
