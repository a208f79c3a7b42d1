/** The linear program as symbolic data: the three variable families of the cash-routing model,
  * linear expressions, constraint rows and what it means for an assignment to satisfy them. */
module Lp {
  import opened Wrappers
  import opened Text

  /** `x_d_r`: route r dispatched on day d; `e_b_d`: cash at branch b at the end of day d;
    * `t_b_d_r`: cash withdrawn from branch b on day d by route r. */
  datatype Var = X(day: nat, route: nat) | E(branch: nat, day: nat) | T(branch: nat, day: nat, route: nat)

  /** PuLP's `cat=LpBinary`, or `cat=LpContinuous` with `lowBound=0`. */
  datatype Category = Binary | NonNegative

  function CategoryOf(v: Var): Category
  {
    if v.X? then Binary else NonNegative
  }

  datatype Term = Term(coeff: real, v: Var)

  /** An affine expression: constant plus a list of coefficient-variable terms. */
  datatype LinExpr = LinExpr(terms: seq<Term>, constant: real)

  datatype Rel = Le | Eq | Ge

  /** A constraint `lhs rel rhs`, in the shape the source writes it with `problem += ...`. */
  datatype Row = Row(lhs: LinExpr, rel: Rel, rhs: LinExpr)

  /** A value for every variable (what a solver reports). */
  type Assignment = Var -> real

  function Eval(terms: seq<Term>, a: Assignment): real
    decreases |terms|
  {
    if |terms| == 0 then 0.0
    else Eval(terms[..|terms| - 1], a) + terms[|terms| - 1].coeff * a(terms[|terms| - 1].v)
  }

  function Value(e: LinExpr, a: Assignment): real
  {
    e.constant + Eval(e.terms, a)
  }

  predicate Satisfies(a: Assignment, row: Row)
  {
    match row.rel
    case Le => Value(row.lhs, a) <= Value(row.rhs, a)
    case Eq => Value(row.lhs, a) == Value(row.rhs, a)
    case Ge => Value(row.lhs, a) >= Value(row.rhs, a)
  }

  predicate SatisfiesAll(a: Assignment, rows: seq<Row>)
  {
    forall i :: 0 <= i < |rows| ==> Satisfies(a, rows[i])
  }

  predicate InBounds(a: Assignment, v: Var)
  {
    match CategoryOf(v)
    case Binary => a(v) == 0.0 || a(v) == 1.0
    case NonNegative => a(v) >= 0.0
  }

  lemma {:induction false} EvalAppend(s: seq<Term>, t: seq<Term>, a: Assignment)
    ensures Eval(s + t, a) == Eval(s, a) + Eval(t, a)
    decreases |t|
  {
    if |t| == 0 {
      assert s + t == s;
    } else {
      assert (s + t)[..|s + t| - 1] == s + t[..|t| - 1];
      EvalAppend(s, t[..|t| - 1], a);
    }
  }

  /** Every term with a non-negative coefficient and value contributes at least itself. */
  lemma {:induction false} EvalAtLeastTerm(s: seq<Term>, a: Assignment, k: nat)
    requires k < |s|
    requires forall i :: 0 <= i < |s| ==> s[i].coeff * a(s[i].v) >= 0.0
    ensures Eval(s, a) >= s[k].coeff * a(s[k].v)
    decreases |s|
  {
    EvalNonNegative(s[..|s| - 1], a);
    if k < |s| - 1 {
      EvalAtLeastTerm(s[..|s| - 1], a, k);
    }
  }

  lemma {:induction false} EvalNonNegative(s: seq<Term>, a: Assignment)
    requires forall i :: 0 <= i < |s| ==> s[i].coeff * a(s[i].v) >= 0.0
    ensures Eval(s, a) >= 0.0
    decreases |s|
  {
    if |s| > 0 {
      EvalNonNegative(s[..|s| - 1], a);
    }
  }

  /** The PuLP variable name: `x_{d}_{r}`, `e_{b}_{d}`, `t_{b}_{d}_{r}`. */
  function Name(v: Var): string
  {
    match v
    case X(d, r) => "x_" + NatToString(d) + "_" + NatToString(r)
    case E(b, d) => "e_" + NatToString(b) + "_" + NatToString(d)
    case T(b, d, r) => "t_" + NatToString(b) + "_" + NatToString(d) + "_" + NatToString(r)
  }

  /** Reads a variable back from its name, by splitting on `_`. */
  function ParseName(s: string): Option<Var>
  {
    var parts := Split(s, '_');
    if |parts| == 3 && parts[0] == "x" then
      match (ParseNat(parts[1]), ParseNat(parts[2]))
      case (Some(d), Some(r)) => Some(X(d, r))
      case _ => None
    else if |parts| == 3 && parts[0] == "e" then
      match (ParseNat(parts[1]), ParseNat(parts[2]))
      case (Some(b), Some(d)) => Some(E(b, d))
      case _ => None
    else if |parts| == 4 && parts[0] == "t" then
      match (ParseNat(parts[1]), ParseNat(parts[2]), ParseNat(parts[3]))
      case (Some(b), Some(d), Some(r)) => Some(T(b, d, r))
      case _ => None
    else None
  }

  lemma DigitsHaveNoUnderscore(s: string)
    requires AllDigits(s)
    ensures '_' !in s
  {
  }

  /** The pieces of a variable's name when split on `_`. */
  function NamePieces(v: Var): seq<string>
  {
    match v
    case X(d, r) => ["x", NatToString(d), NatToString(r)]
    case E(b, d) => ["e", NatToString(b), NatToString(d)]
    case T(b, d, r) => ["t", NatToString(b), NatToString(d), NatToString(r)]
  }

  lemma NameParts(v: Var)
    ensures Split(Name(v), '_') == NamePieces(v)
  {
    match v
    case X(d, r) =>
      Pieces3("x", NatToString(d), NatToString(r));
      assert Name(v) == "x" + "_" + NatToString(d) + "_" + NatToString(r);
    case E(b, d) =>
      Pieces3("e", NatToString(b), NatToString(d));
      assert Name(v) == "e" + "_" + NatToString(b) + "_" + NatToString(d);
    case T(b, d, r) =>
      Pieces4(NatToString(b), NatToString(d), NatToString(r));
  }

  lemma Pieces3(k: string, s1: string, s2: string)
    requires '_' !in k && AllDigits(s1) && AllDigits(s2)
    ensures Split(k + "_" + s1 + "_" + s2, '_') == [k, s1, s2]
  {
    DigitsHaveNoUnderscore(s1);
    DigitsHaveNoUnderscore(s2);
    SplitNoSep(s2, '_');
    SplitAfterPiece(s1, '_', s2);
    SplitAfterPiece(k, '_', s1 + "_" + s2);
    assert k + "_" + s1 + "_" + s2 == k + "_" + (s1 + "_" + s2);
  }

  lemma Pieces4(sb: string, sd: string, sr: string)
    requires AllDigits(sb) && AllDigits(sd) && AllDigits(sr)
    ensures Split("t_" + sb + "_" + sd + "_" + sr, '_') == ["t", sb, sd, sr]
  {
    var tail := sb + "_" + sd + "_" + sr;
    TName(sb, sd, sr);
    DigitsHaveNoUnderscore(sb);
    Pieces3(sb, sd, sr);
    SplitAfterPiece("t", '_', tail);
  }

  lemma TName(sb: string, sd: string, sr: string)
    ensures "t_" + sb + "_" + sd + "_" + sr == "t" + "_" + (sb + "_" + sd + "_" + sr)
  {
  }

  /** Reading a name back gives the variable it names. */
  lemma NameRoundTrip(v: Var)
    ensures ParseName(Name(v)) == Some(v)
  {
    NameParts(v);
    match v
    case X(d, r) => NatRoundTrip(d); NatRoundTrip(r);
    case E(b, d) => NatRoundTrip(b); NatRoundTrip(d);
    case T(b, d, r) => NatRoundTrip(b); NatRoundTrip(d); NatRoundTrip(r);
  }

  /** Distinct variables get distinct names, so PuLP never reports duplicated names. */
  lemma NameInjective(v: Var, w: Var)
    requires Name(v) == Name(w)
    ensures v == w
  {
    NameRoundTrip(v);
    NameRoundTrip(w);
  }
}
