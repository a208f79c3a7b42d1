/** How `model_problem` picks a solver backend, words the outcome of each solve, and flags two
  * conditions in the tables that explain an infeasible or costly result (model.py:222-266). */
module Solving {
  import opened Wrappers
  import opened Text
  import opened CashData

  // ---------------------------------------------------------------- solver backends (model.py:222-238)

  datatype Backend = Scip | Fscip | Cbc | Cuopt | Gurobi | Highs

  /** The options a backend is built with: the verbosity flag always, the thread count only for
    * CBC, Gurobi and HiGHS, and CBC's strong branching and presolve. */
  datatype SolverConfig = SolverConfig(backend: Backend, msg: bool, threads: Option<int>, cbcTuning: bool)

  /** The selector string that picks each backend. */
  function BackendName(b: Backend): string
  {
    match b
    case Scip => "scip"
    case Fscip => "fscip"
    case Cbc => "cbc"
    case Cuopt => "cuopt"
    case Gurobi => "gurobi"
    case Highs => "HiGHS"
  }

  predicate KnownSolver(name: string)
  {
    name in {"scip", "fscip", "cbc", "cuopt", "gurobi", "HiGHS"}
  }

  /** The solver chain: an unknown name (the source warns) falls back to CBC built as for "cbc". */
  function SelectSolver(name: string, msg: bool, nThr: int): (c: SolverConfig)
    ensures c.msg == msg
    ensures c.threads.Some? <==> c.backend in {Cbc, Gurobi, Highs}
    ensures c.threads.Some? ==> c.threads.value == nThr
    ensures c.cbcTuning <==> c.backend == Cbc
    ensures KnownSolver(name) ==> BackendName(c.backend) == name
    ensures !KnownSolver(name) ==> c.backend == Cbc
  {
    if name == "scip" then SolverConfig(Scip, msg, None, false)
    else if name == "fscip" then SolverConfig(Fscip, msg, None, false)
    else if name == "cbc" then SolverConfig(Cbc, msg, Some(nThr), true)
    else if name == "cuopt" then SolverConfig(Cuopt, msg, None, false)
    else if name == "gurobi" then SolverConfig(Gurobi, msg, Some(nThr), false)
    else if name == "HiGHS" then SolverConfig(Highs, msg, Some(nThr), false)
    else SolverConfig(Cbc, msg, Some(nThr), true)
  }

  /** Each backend is reached by exactly its own name, and an unknown name behaves as "cbc". */
  lemma SelectSolverByName(b: Backend, name: string, msg: bool, nThr: int)
    ensures SelectSolver(BackendName(b), msg, nThr).backend == b
    ensures !KnownSolver(name) ==> SelectSolver(name, msg, nThr) == SelectSolver("cbc", msg, nThr)
  {
  }

  // ---------------------------------------------------------------- status words (model.py:244-255)

  /** PuLP's status codes. */
  const OPTIMAL: int := 1
  const NOT_SOLVED: int := 0
  const INFEASIBLE: int := -1
  const UNBOUNDED: int := -2
  const UNDEFINED: int := -3

  const OPTIMAL_TEXT: string := "Resuelto (Òptimo)"
  const INFEASIBLE_TEXT: string := "No factible"
  const UNBOUNDED_TEXT: string := "No acotado"
  const UNDEFINED_TEXT: string := "Error no definido (Undefined)"
  const NOT_SOLVED_TEXT: string := "No resuelto"
  const UNKNOWN_PREFIX: string := "Estado desconocido ("

  /** Added to a status when some branch collects more in one day than its box holds. */
  const BOX_SUFFIX: string := ", capacidad de buzón superada"
  /** Added when a single route can serve none of the mandatory days. */
  const MANDATORY_SUFFIX: string := ", día/s obligatorio/s infactible/s"
  /** The status of a solve that raised (model.py:274). */
  const SOLVE_ERROR_TEXT: string := "Error de resolución"

  predicate IsKnownCode(code: int)
  {
    UNDEFINED <= code <= OPTIMAL
  }

  function StatusText(code: int): (s: string)
    ensures code == OPTIMAL <==> s == OPTIMAL_TEXT
    ensures !IsKnownCode(code) <==> UNKNOWN_PREFIX <= s
    ensures |s| > 0 && s[|s| - 1] != 'a' && s[|s| - 1] != 's'
  {
    if code == OPTIMAL then OPTIMAL_TEXT
    else if code == INFEASIBLE then INFEASIBLE_TEXT
    else if code == UNBOUNDED then UNBOUNDED_TEXT
    else if code == UNDEFINED then assert UNDEFINED_TEXT[1] != UNKNOWN_PREFIX[1]; UNDEFINED_TEXT
    else if code == NOT_SOLVED then NOT_SOLVED_TEXT
    else UNKNOWN_PREFIX + IntToString(code) + ")"
  }

  /** Reads a status back to its code. */
  function ParseStatus(s: string): Option<int>
  {
    if s == OPTIMAL_TEXT then Some(OPTIMAL)
    else if s == INFEASIBLE_TEXT then Some(INFEASIBLE)
    else if s == UNBOUNDED_TEXT then Some(UNBOUNDED)
    else if s == UNDEFINED_TEXT then Some(UNDEFINED)
    else if s == NOT_SOLVED_TEXT then Some(NOT_SOLVED)
    else if |s| > |UNKNOWN_PREFIX| && UNKNOWN_PREFIX <= s && s[|s| - 1] == ')' then
      match ParseInt(s[|UNKNOWN_PREFIX|..|s| - 1])
      case Some(c) => if IsKnownCode(c) then None else Some(c)
      case None => None
    else None
  }

  /** Distinct codes get distinct words: the code can be read back from the status. */
  lemma StatusRoundTrip(code: int)
    ensures ParseStatus(StatusText(code)) == Some(code)
  {
    if !IsKnownCode(code) {
      var digits := IntToString(code);
      var s := UNKNOWN_PREFIX + digits + ")";
      assert s[0] == 'E' && s[1] == 's';
      assert s[|UNKNOWN_PREFIX|..|s| - 1] == digits;
      IntRoundTrip(code);
    }
  }

  lemma StatusTextInjective(c1: int, c2: int)
    ensures StatusText(c1) == StatusText(c2) ==> c1 == c2
  {
    StatusRoundTrip(c1);
    StatusRoundTrip(c2);
  }

  // ---------------------------------------------------------------- diagnostics (model.py:257-266)

  /** The status with the two diagnostic suffixes, in the order the source appends them. */
  function Report(code: int, boxExceeded: bool, mandatoryInfeasible: bool): string
  {
    StatusText(code) + (if boxExceeded then BOX_SUFFIX else "") + (if mandatoryInfeasible then MANDATORY_SUFFIX else "")
  }

  datatype Diagnostic = Diagnostic(code: int, boxExceeded: bool, mandatoryInfeasible: bool)

  predicate EndsWith(s: string, suffix: string)
  {
    |suffix| <= |s| && s[|s| - |suffix|..] == suffix
  }

  /** Reads a reported status back into its code and its two flags. */
  function ParseReport(s: string): Option<Diagnostic>
  {
    var mandatory := EndsWith(s, MANDATORY_SUFFIX);
    var s1 := if mandatory then s[..|s| - |MANDATORY_SUFFIX|] else s;
    var box := EndsWith(s1, BOX_SUFFIX);
    var s2 := if box then s1[..|s1| - |BOX_SUFFIX|] else s1;
    match ParseStatus(s2)
    case Some(c) => Some(Diagnostic(c, box, mandatory))
    case None => None
  }

  /** Neither flag is lost nor invented: both flags and the code can be read back from a report. */
  lemma ReportRoundTrip(code: int, boxExceeded: bool, mandatoryInfeasible: bool)
    ensures ParseReport(Report(code, boxExceeded, mandatoryInfeasible)) == Some(Diagnostic(code, boxExceeded, mandatoryInfeasible))
  {
    var st := StatusText(code);
    var s1 := st + (if boxExceeded then BOX_SUFFIX else "");
    var s := s1 + (if mandatoryInfeasible then MANDATORY_SUFFIX else "");
    assert |s1| > 0 && s1[|s1| - 1] != 's' by {
      if boxExceeded {
        assert s1[|s1| - 1] == BOX_SUFFIX[|BOX_SUFFIX| - 1];
      }
    }
    if mandatoryInfeasible {
      assert s[|s| - |MANDATORY_SUFFIX|..] == MANDATORY_SUFFIX;
      assert s[..|s| - |MANDATORY_SUFFIX|] == s1;
    } else {
      assert s == s1;
    }
    if boxExceeded {
      assert s1[|s1| - |BOX_SUFFIX|..] == BOX_SUFFIX;
      assert s1[..|s1| - |BOX_SUFFIX|] == st;
    } else {
      assert s1 == st;
    }
    StatusRoundTrip(code);
  }

  /** The bare optimal status is reported for an optimal solve with neither warning, and only
    * for it. */
  lemma ReportIsOptimal(code: int, boxExceeded: bool, mandatoryInfeasible: bool)
    ensures Report(code, boxExceeded, mandatoryInfeasible) == OPTIMAL_TEXT
            <==> code == OPTIMAL && !boxExceeded && !mandatoryInfeasible
  {
    assert Report(OPTIMAL, false, false) == OPTIMAL_TEXT;
    ReportRoundTrip(code, boxExceeded, mandatoryInfeasible);
    ReportRoundTrip(OPTIMAL, false, false);
  }

  function MaxOf(s: seq<real>): (m: real)
    requires |s| > 0
    ensures m in s && forall i :: 0 <= i < |s| ==> s[i] <= m
  {
    if |s| == 1 then s[0]
    else
      var m := MaxOf(s[..|s| - 1]);
      if s[|s| - 1] > m then s[|s| - 1] else m
  }

  function CollectionRow(t: Tables, b: nat): seq<real>
  {
    if b < |t.collection| then t.collection[b] else []
  }

  /** The branch's largest daily collection is more than its box holds, extra included. */
  predicate ExceedsBox(t: Tables, p: Params, b: nat)
  {
    |CollectionRow(t, b)| > 0 && MaxOf(CollectionRow(t, b)) > Entry(t.boxAmounts, b) * (1.0 + p.extraBox)
  }

  predicate BoxExceeded(t: Tables, p: Params, B: seq<nat>)
  {
    exists i :: 0 <= i < |B| && ExceedsBox(t, p, B[i])
  }

  /** A single route whose calendar has none of the mandatory days. */
  predicate MandatoryInfeasible(t: Tables, p: Params, R: seq<nat>)
  {
    |R| == 1 && |p.lastDays| > 0 && forall k :: 0 <= k < |p.lastDays| ==> Cell(t.businessDays, R[0], p.lastDays[k]) != 1.0
  }

  /** Reading `business_days[r][d]` for a mandatory day beyond the route's calendar raises. */
  predicate DiagnosisRaises(t: Tables, p: Params, R: seq<nat>)
  {
    |R| == 1 && exists k :: 0 <= k < |p.lastDays| && p.lastDays[k] >= RowLength(t.businessDays, R[0])
  }

  /** The status of a solve with status code `code`; None where the diagnostics raise. */
  function Diagnosis(t: Tables, p: Params, sp: SubProblem, code: int): Option<string>
  {
    if DiagnosisRaises(t, p, sp.routes) then None
    else Some(Report(code, BoxExceeded(t, p, sp.branches), MandatoryInfeasible(t, p, sp.routes)))
  }

  /** The capacity loop of model.py:258-261, which stops at the first branch that overflows. */
  method CheckBoxes(t: Tables, p: Params, B: seq<nat>) returns (exceeded: bool)
    requires forall b :: b in B ==> RowLength(t.collection, b) > 0
    ensures exceeded == BoxExceeded(t, p, B)
  {
    exceeded := false;
    var i := 0;
    while i < |B|
      invariant 0 <= i <= |B|
      invariant forall k :: 0 <= k < i ==> !ExceedsBox(t, p, B[k])
    {
      assert B[i] in B;
      var row := t.collection[B[i]];
      assert CollectionRow(t, B[i]) == row;
      if MaxOf(row) > Entry(t.boxAmounts, B[i]) * (1.0 + p.extraBox) {
        exceeded := true;
        break;
      }
      i := i + 1;
    }
  }

  /** The filter of model.py:264 over the mandatory days for route r: None where it raises,
    * otherwise whether it kept no day. */
  method CheckMandatoryDays(t: Tables, p: Params, r: nat) returns (noneOpen: Option<bool>)
    ensures noneOpen.None? <==> DiagnosisRaises(t, p, [r])
    ensures noneOpen.Some? ==> (noneOpen.value <==> forall k :: 0 <= k < |p.lastDays| ==> Cell(t.businessDays, r, p.lastDays[k]) != 1.0)
  {
    var L := p.lastDays;
    var business: seq<nat> := [];
    for k := 0 to |L|
      invariant forall j :: 0 <= j < k ==> L[j] < RowLength(t.businessDays, r)
      invariant |business| == 0 <==> forall j :: 0 <= j < k ==> Cell(t.businessDays, r, L[j]) != 1.0
    {
      if L[k] >= RowLength(t.businessDays, r) {
        return None;
      }
      if t.businessDays[r][L[k]] == 1.0 {
        business := business + [L[k]];
      }
    }
    return Some(|business| == 0);
  }

  /** The status words and the two diagnostics of model.py:244-266. */
  method Diagnose(t: Tables, p: Params, sp: SubProblem, code: int) returns (status: Option<string>)
    requires BuildOk(t, p, sp)
    ensures status == Diagnosis(t, p, sp, code)
  {
    var B, R := sp.branches, sp.routes;
    var s := StatusText(code);
    var exceeded := CheckBoxes(t, p, B);
    if exceeded {
      s := s + BOX_SUFFIX;
    }
    var infeasible := false;
    if |R| == 1 {
      var noneOpen := CheckMandatoryDays(t, p, R[0]);
      assert [R[0]] == R;
      if noneOpen.None? {
        return None;
      }
      infeasible := |p.lastDays| > 0 && noneOpen.value;
    }
    assert !DiagnosisRaises(t, p, R) && infeasible == MandatoryInfeasible(t, p, R);
    if infeasible {
      s := s + MANDATORY_SUFFIX;
    }
    status := Some(s);
    assert s == Report(code, exceeded, infeasible);
  }

  /** Whatever the solver answered, a branch whose collections cannot fit its box is flagged. */
  lemma BoxFlagIndependentOfOutcome(t: Tables, p: Params, sp: SubProblem, code: int)
    requires BoxExceeded(t, p, sp.branches) && !DiagnosisRaises(t, p, sp.routes)
    ensures Diagnosis(t, p, sp, code).Some?
    ensures ParseReport(Diagnosis(t, p, sp, code).value) == Some(Diagnostic(code, true, MandatoryInfeasible(t, p, sp.routes)))
  {
    ReportRoundTrip(code, true, MandatoryInfeasible(t, p, sp.routes));
  }

  /** Once built, a sub-problem with a branch raises in the diagnostics never: every mandatory day
    * is then a day of the horizon, which every route calendar covers. */
  lemma DiagnosisRaisesOnlyWithoutBranches(t: Tables, p: Params, sp: SubProblem)
    requires BuildOk(t, p, sp) && |sp.branches| > 0
    ensures !DiagnosisRaises(t, p, sp.routes)
  {
    if |sp.routes| == 1 {
      assert sp.routes[0] in sp.routes;
      forall k | 0 <= k < |p.lastDays|
        ensures p.lastDays[k] < RowLength(t.businessDays, sp.routes[0])
      {
        assert p.lastDays[k] in p.lastDays;
      }
    }
  }
}
