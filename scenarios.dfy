/** `generar_escenarios` (helpers.py:91-117, and its copy in the older package): random route
  * tables made of one single-branch route per branch followed by routes serving two or more
  * branches, each such route written as the binary digits of a branch mask. */
module Scenarios {
  import opened Wrappers
  import opened CashData

  function Pow2(n: nat): (r: nat)
    ensures r >= n + 1
  {
    if n == 0 then 1 else 2 * Pow2(n - 1)
  }

  lemma {:induction false} Pow2Increasing(i: nat, j: nat)
    requires i < j
    ensures Pow2(i) < Pow2(j)
    decreases j
  {
    if i < j - 1 {
      Pow2Increasing(i, j - 1);
    }
  }

  predicate IsPowerOfTwoBelow(m: int, n: nat)
  {
    exists j :: 0 <= j < n && Pow2(j) == m
  }

  /** A route serving at least two of n branches: neither 0 nor a single bit. */
  predicate IsCandidate(m: int, n: nat)
  {
    0 < m < Pow2(n) && !IsPowerOfTwoBelow(m, n)
  }

  predicate Increasing(s: seq<int>)
  {
    forall i, j :: 0 <= i < j < |s| ==> s[i] < s[j]
  }

  /** The candidates from lo on, ascending. */
  function MasksFrom(lo: nat, n: nat): (s: seq<nat>)
    ensures Increasing(s)
    ensures forall m :: m in s <==> lo <= m && IsCandidate(m, n)
    decreases Pow2(n) - lo
  {
    if lo >= Pow2(n) then []
    else
      var rest := MasksFrom(lo + 1, n);
      assert forall j :: 0 <= j < |rest| ==> lo < rest[j] by {
        forall j | 0 <= j < |rest| ensures lo < rest[j] {
          assert rest[j] in rest;
        }
      }
      (if IsCandidate(lo, n) then [lo] else []) + rest
  }

  function Masks(n: nat): seq<nat>
  {
    MasksFrom(0, n)
  }

  lemma EmptyIffNoMember(s: seq<nat>)
    ensures s == [] <==> forall m :: m !in s
  {
    if s != [] {
      assert s[0] in s;
    }
  }

  /** An ascending sequence is fixed by its elements. */
  lemma {:induction false} IncreasingUnique(a: seq<nat>, b: seq<nat>)
    requires Increasing(a) && Increasing(b)
    requires forall m :: m in a <==> m in b
    ensures a == b
    decreases |a|
  {
    if |a| > 0 && |b| > 0 {
      assert a[0] == b[0] by {
        assert a[0] in b && b[0] in a;
      }
      forall m ensures m in a[1..] <==> m in b[1..] {
        if m in a[1..] { assert m > a[0]; assert m in b; }
        if m in b[1..] { assert m > b[0]; assert m in a; }
      }
      IncreasingUnique(a[1..], b[1..]);
    } else {
      EmptyIffNoMember(a);
      EmptyIffNoMember(b);
    }
  }

  /** `list.remove(x)`: drops the first occurrence of x. */
  function Remove(s: seq<nat>, x: nat): (r: seq<nat>)
    requires x in s
    ensures |r| == |s| - 1
    ensures multiset(r) == multiset(s) - multiset{x}
  {
    assert s == [s[0]] + s[1..];
    if s[0] == x then s[1..] else [s[0]] + Remove(s[1..], x)
  }

  lemma {:induction false} RemoveIncreasing(s: seq<nat>, x: nat)
    requires x in s && Increasing(s)
    ensures Increasing(Remove(s, x))
    ensures forall m :: m in Remove(s, x) <==> m in s && m != x
  {
    var r := Remove(s, x);
    assert s == [s[0]] + s[1..];
    if s[0] == x {
      assert s[0] !in s[1..];
    } else {
      var t := Remove(s[1..], x);
      RemoveIncreasing(s[1..], x);
      forall j | 0 <= j < |t| ensures s[0] < t[j] {
        assert t[j] in t;
      }
    }
  }

  /** The candidate masks of helpers.py:92-98: every number below 2^n but 0 and the single bits. */
  method CandidateMasks(n: nat) returns (masks: seq<nat>)
    ensures masks == Masks(n)
    ensures |masks| == Pow2(n) - n - 1
  {
    masks := Range(Pow2(n));
    assert masks[0] == 0;
    assert Increasing(masks);
    assert forall m :: m in masks <==> 0 <= m < Pow2(n) by {
      forall m | 0 <= m < Pow2(n) ensures m in masks {
        assert masks[m] == m;
      }
    }
    RemoveIncreasing(masks, 0);
    masks := Remove(masks, 0);
    for i := 0 to n
      invariant Increasing(masks)
      invariant forall m :: m in masks <==> 0 < m < Pow2(n) && !IsPowerOfTwoBelow(m, i)
      invariant |masks| == Pow2(n) - 1 - i
    {
      Pow2Increasing(i, n);
      assert !IsPowerOfTwoBelow(Pow2(i), i) by {
        forall j | 0 <= j < i ensures Pow2(j) != Pow2(i) {
          Pow2Increasing(j, i);
        }
      }
      RemoveIncreasing(masks, Pow2(i));
      masks := Remove(masks, Pow2(i));
    }
    IncreasingUnique(masks, Masks(n));
  }

  // ---------------------------------------------------------------- combinations

  function Binom(n: nat, k: nat): nat
  {
    if k == 0 then 1 else if n == 0 then 0 else Binom(n - 1, k - 1) + Binom(n - 1, k)
  }

  /** a comes before b in lexicographic order. */
  predicate LexLess(a: seq<nat>, b: seq<nat>)
  {
    exists i :: 0 <= i < |a| && i < |b| && a[..i] == b[..i] && a[i] < b[i]
  }

  function Prepend(x: nat, cs: seq<seq<nat>>): (r: seq<seq<nat>>)
    ensures |r| == |cs| && forall i :: 0 <= i < |cs| ==> r[i] == [x] + cs[i]
  {
    seq(|cs|, i requires 0 <= i < |cs| => [x] + cs[i])
  }

  /** `itertools.combinations(range(lo, hi), k)`: the k-element subsets, each ascending, in
    * lexicographic order. */
  function Combinations(lo: nat, hi: nat, k: nat): (cs: seq<seq<nat>>)
    ensures |cs| == Binom(if lo <= hi then hi - lo else 0, k)
    ensures forall i :: 0 <= i < |cs| ==>
              && |cs[i]| == k && Increasing(cs[i])
              && forall j :: 0 <= j < k ==> lo <= cs[i][j] < hi
    ensures forall i, j :: 0 <= i < j < |cs| ==> LexLess(cs[i], cs[j])
    decreases hi - lo, k
  {
    if k == 0 then [[]]
    else if lo >= hi then []
    else
      var first := Prepend(lo, Combinations(lo + 1, hi, k - 1));
      var rest := Combinations(lo + 1, hi, k);
      LexPrepend(lo, Combinations(lo + 1, hi, k - 1));
      LexAcross(first, rest, lo);
      first + rest
  }

  lemma LexPrepend(x: nat, cs: seq<seq<nat>>)
    requires forall i, j :: 0 <= i < j < |cs| ==> LexLess(cs[i], cs[j])
    ensures forall i, j :: 0 <= i < j < |cs| ==> LexLess(Prepend(x, cs)[i], Prepend(x, cs)[j])
  {
    var r := Prepend(x, cs);
    forall i, j | 0 <= i < j < |cs|
      ensures LexLess(r[i], r[j])
    {
      var w :| 0 <= w < |cs[i]| && w < |cs[j]| && cs[i][..w] == cs[j][..w] && cs[i][w] < cs[j][w];
      assert r[i][..w + 1] == [x] + cs[i][..w];
      assert r[j][..w + 1] == [x] + cs[j][..w];
    }
  }

  lemma LexAcross(first: seq<seq<nat>>, rest: seq<seq<nat>>, lo: nat)
    requires forall i :: 0 <= i < |first| ==> |first[i]| > 0 && first[i][0] == lo
    requires forall i :: 0 <= i < |rest| ==> |rest[i]| > 0 && rest[i][0] > lo
    requires forall i, j :: 0 <= i < j < |first| ==> LexLess(first[i], first[j])
    requires forall i, j :: 0 <= i < j < |rest| ==> LexLess(rest[i], rest[j])
    ensures forall i, j :: 0 <= i < j < |first + rest| ==> LexLess((first + rest)[i], (first + rest)[j])
  {
    var all := first + rest;
    forall i, j | 0 <= i < j < |all|
      ensures LexLess(all[i], all[j])
    {
      if i < |first| && j >= |first| {
        assert all[i][..0] == all[j][..0];
      } else if i >= |first| {
        assert all[i] == rest[i - |first|] && all[j] == rest[j - |first|];
      }
    }
  }

  /** The draws below i: the iterations of the filter that hit before iteration i. */
  function HitsBelow(drawn: set<nat>, i: nat): set<nat>
  {
    set j | j in drawn && j < i
  }

  /** `[next(combinations) for _ in range(N) if next(r) in drawn]` after its first i iterations:
    * the combinations iterator advances only on a hit, so the k-th hit takes the k-th
    * combination and the picks are always a prefix of the combinations. */
  function PickAsWritten(combs: seq<seq<nat>>, drawn: set<nat>, i: nat): (picked: seq<seq<nat>>)
    requires i <= |combs|
    ensures |picked| == |HitsBelow(drawn, i)| <= i
    ensures picked == combs[..|picked|]
  {
    if i == 0 then
      assert HitsBelow(drawn, 0) == {};
      []
    else
      var prev := PickAsWritten(combs, drawn, i - 1);
      if i - 1 in drawn then
        assert HitsBelow(drawn, i) == HitsBelow(drawn, i - 1) + {i - 1};
        prev + [combs[|prev|]]
      else
        assert HitsBelow(drawn, i) == HitsBelow(drawn, i - 1);
        prev
  }

  /** The filter of helpers.py:106, run over every index below the number of combinations. */
  method PickCombinations(combs: seq<seq<nat>>, drawn: set<nat>) returns (picked: seq<seq<nat>>)
    requires forall j :: j in drawn ==> j < |combs|
    ensures picked == PickAsWritten(combs, drawn, |combs|)
    ensures |picked| == |drawn| <= |combs| && picked == combs[..|picked|]
  {
    picked := [];
    for i := 0 to |combs|
      invariant picked == PickAsWritten(combs, drawn, i)
    {
      if i in drawn {
        picked := picked + [combs[|picked|]];
      }
    }
    assert HitsBelow(drawn, |combs|) == drawn;
  }

  /** As written the draw does not matter: any two draws of the same size pick the same
    * combinations, the first ones. */
  lemma DrawIgnoredAsWritten(combs: seq<seq<nat>>, d1: set<nat>, d2: set<nat>)
    requires forall j :: j in d1 ==> j < |combs|
    requires forall j :: j in d2 ==> j < |combs|
    requires |d1| == |d2|
    ensures |d1| <= |combs| && PickAsWritten(combs, d1, |combs|) == PickAsWritten(combs, d2, |combs|) == combs[..|d1|]
  {
    assert HitsBelow(d1, |combs|) == d1;
    assert HitsBelow(d2, |combs|) == d2;
    assert |PickAsWritten(combs, d1, |combs|)| == |d1|;
  }

  /** The draws below n, in ascending order. */
  function DrawnInOrder(drawn: set<nat>, n: nat): (ord: seq<nat>)
    ensures forall k :: 0 <= k < |ord| ==> ord[k] < n
  {
    if n == 0 then []
    else
      var prev := DrawnInOrder(drawn, n - 1);
      if n - 1 in drawn then prev + [n - 1] else prev
  }

  /** The ordered draws are ascending and are exactly the draws below n. */
  lemma {:induction false} DrawnInOrderSorted(drawn: set<nat>, n: nat)
    ensures Increasing(DrawnInOrder(drawn, n))
    ensures forall j :: j in DrawnInOrder(drawn, n) <==> j in drawn && j < n
  {
    if n > 0 {
      DrawnInOrderSorted(drawn, n - 1);
    }
  }

  /** One entry per draw below n. */
  lemma {:induction false} DrawnInOrderCount(drawn: set<nat>, n: nat)
    ensures |DrawnInOrder(drawn, n)| == |HitsBelow(drawn, n)|
  {
    if n == 0 {
      assert HitsBelow(drawn, 0) == {};
    } else {
      DrawnInOrderCount(drawn, n - 1);
      if n - 1 in drawn {
        assert HitsBelow(drawn, n) == HitsBelow(drawn, n - 1) + {n - 1};
      } else {
        assert HitsBelow(drawn, n) == HitsBelow(drawn, n - 1);
      }
    }
  }

  /** The pick the comment at helpers.py:101 describes: the combinations at the drawn indices,
    * in ascending order of index. */
  function PickDrawn(combs: seq<seq<nat>>, drawn: set<nat>): seq<seq<nat>>
  {
    var ord := DrawnInOrder(drawn, |combs|);
    seq(|ord|, k requires 0 <= k < |ord| => combs[ord[k]])
  }

  /** Each intended pick is the combination at some draw. */
  lemma PickDrawnFromDraws(combs: seq<seq<nat>>, drawn: set<nat>, k: nat)
    requires k < |PickDrawn(combs, drawn)|
    ensures DrawnInOrder(drawn, |combs|)[k] in drawn
    ensures PickDrawn(combs, drawn)[k] == combs[DrawnInOrder(drawn, |combs|)[k]]
  {
    var ord := DrawnInOrder(drawn, |combs|);
    DrawnInOrderSorted(drawn, |combs|);
    assert ord[k] in ord;
  }

  /** Each draw is picked, at its place among the ordered draws. */
  lemma PickDrawnCoversDraws(combs: seq<seq<nat>>, drawn: set<nat>, j: nat)
    requires j in drawn && j < |combs|
    ensures exists k :: 0 <= k < |PickDrawn(combs, drawn)| && PickDrawn(combs, drawn)[k] == combs[j]
  {
    var ord := DrawnInOrder(drawn, |combs|);
    DrawnInOrderSorted(drawn, |combs|);
    var k :| 0 <= k < |ord| && ord[k] == j;
    assert PickDrawn(combs, drawn)[k] == combs[j];
  }

  /** The intended pick takes exactly the drawn combinations, one per draw. */
  lemma PickDrawnTakesDrawn(combs: seq<seq<nat>>, drawn: set<nat>)
    requires forall j :: j in drawn ==> j < |combs|
    ensures |PickDrawn(combs, drawn)| == |drawn|
    ensures forall k :: 0 <= k < |PickDrawn(combs, drawn)| ==>
              exists j :: j in drawn && PickDrawn(combs, drawn)[k] == combs[j]
    ensures forall j :: j in drawn ==>
              exists k :: 0 <= k < |PickDrawn(combs, drawn)| && PickDrawn(combs, drawn)[k] == combs[j]
  {
    var picked := PickDrawn(combs, drawn);
    assert |picked| == |drawn| by {
      DrawnInOrderCount(drawn, |combs|);
      assert HitsBelow(drawn, |combs|) == drawn;
    }
    forall k | 0 <= k < |picked|
      ensures exists j :: j in drawn && picked[k] == combs[j]
    {
      PickDrawnFromDraws(combs, drawn, k);
    }
    forall j | j in drawn
      ensures exists k :: 0 <= k < |picked| && picked[k] == combs[j]
    {
      PickDrawnCoversDraws(combs, drawn, j);
    }
  }

  /** Drawing only the second of two combinations: as written the first one is taken, as meant
    * the second. */
  lemma SecondDrawTakesFirstAsWritten(c0: seq<nat>, c1: seq<nat>)
    ensures PickAsWritten([c0, c1], {1}, 2) == [c0]
    ensures PickDrawn([c0, c1], {1}) == [c1]
  {
    assert HitsBelow({1}, 2) == {1};
    assert DrawnInOrder({1}, 1) == [] by {
      assert DrawnInOrder({1}, 0) == [];
    }
  }

  /** When the draws are exactly the first n indices, the ordered draws are 0, 1, ..., n - 1. */
  lemma {:induction false} FirstDrawsInOrder(drawn: set<nat>, n: nat, m: nat)
    requires forall j :: j in drawn <==> j < n
    ensures |DrawnInOrder(drawn, m)| == if m <= n then m else n
    ensures forall k :: 0 <= k < |DrawnInOrder(drawn, m)| ==> DrawnInOrder(drawn, m)[k] == k
    decreases m
  {
    if m > 0 {
      FirstDrawsInOrder(drawn, n, m - 1);
      var prev := DrawnInOrder(drawn, m - 1);
      if m - 1 < n {
        assert m - 1 in drawn;
        assert DrawnInOrder(drawn, m) == prev + [m - 1];
      } else {
        assert m - 1 !in drawn;
        assert DrawnInOrder(drawn, m) == prev;
      }
    }
  }

  // ---------------------------------------------------------------- bit rows

  /** `"{:0nb}".format(m)` read back digit by digit, most significant first. */
  function Bits(m: nat, n: nat): (bs: seq<nat>)
    ensures |bs| == n && forall i :: 0 <= i < n ==> bs[i] <= 1
  {
    if n == 0 then [] else Bits(m / 2, n - 1) + [m % 2]
  }

  function FromBits(bs: seq<nat>): nat
  {
    if |bs| == 0 then 0 else 2 * FromBits(bs[..|bs| - 1]) + bs[|bs| - 1]
  }

  lemma {:induction false} BitsRoundTrip(m: nat, n: nat)
    requires m < Pow2(n)
    ensures FromBits(Bits(m, n)) == m
  {
    if n > 0 {
      BitsRoundTrip(m / 2, n - 1);
      assert Bits(m, n)[..n - 1] == Bits(m / 2, n - 1);
    }
  }

  function Ones(bs: seq<nat>): nat
  {
    if |bs| == 0 then 0 else Ones(bs[..|bs| - 1]) + (if bs[|bs| - 1] == 1 then 1 else 0)
  }

  lemma {:induction false} FewOnes(m: nat, n: nat)
    requires m < Pow2(n)
    ensures Ones(Bits(m, n)) == 0 ==> m == 0
    ensures Ones(Bits(m, n)) == 1 ==> IsPowerOfTwoBelow(m, n)
  {
    if n > 0 {
      var bs := Bits(m, n);
      assert bs[..n - 1] == Bits(m / 2, n - 1);
      FewOnes(m / 2, n - 1);
      if Ones(bs) == 1 {
        if m % 2 == 1 {
          assert m == 1 && Pow2(0) == 1;
        } else {
          var j :| 0 <= j < n - 1 && Pow2(j) == m / 2;
          assert Pow2(j + 1) == m;
        }
      }
    }
  }

  /** Every added route serves at least two branches. */
  lemma CandidateHasTwoOnes(m: nat, n: nat)
    requires IsCandidate(m, n)
    ensures Ones(Bits(m, n)) >= 2
  {
    FewOnes(m, n);
  }

  // ---------------------------------------------------------------- tables

  function Identity(n: nat): seq<seq<real>>
  {
    seq(n, i requires 0 <= i < n => seq(n, j requires 0 <= j < n => if i == j then 1.0 else 0.0))
  }

  function BitRow(m: nat, n: nat): (row: seq<real>)
    ensures |row| == n
  {
    seq(n, i requires 0 <= i < n => Bits(m, n)[i] as real)
  }

  predicate IndicesIn(idx: seq<nat>, masks: seq<nat>)
  {
    forall j :: 0 <= j < |idx| ==> idx[j] < |masks|
  }

  /** The rows of the routes a combination of indices picks. */
  function AddedRows(n: nat, masks: seq<nat>, idx: seq<nat>): seq<seq<real>>
    requires IndicesIn(idx, masks)
  {
    seq(|idx|, j requires 0 <= j < |idx| => BitRow(masks[idx[j]], n))
  }

  /** The identity stacked over the added rows. */
  function Scenario(n: nat, masks: seq<nat>, idx: seq<nat>): seq<seq<real>>
    requires IndicesIn(idx, masks)
  {
    Identity(n) + AddedRows(n, masks, idx)
  }

  /** `np.vstack([np.eye(n), rows])` as written: with no added row the empty list becomes a
    * 1x0 array, which stacks only under a 0x0 identity. */
  function StackAsWritten(n: nat, masks: seq<nat>, idx: seq<nat>): Option<seq<seq<real>>>
    requires IndicesIn(idx, masks)
  {
    if |idx| == 0 then (if n == 0 then Some([[]]) else None)
    else Some(Scenario(n, masks, idx))
  }

  /** With no extra route asked for, the source fails where a table of single-branch routes was meant. */
  lemma StackWithoutExtraRoutes(n: nat, masks: seq<nat>)
    requires n > 0
    ensures StackAsWritten(n, masks, []) == None
    ensures Scenario(n, masks, []) == Identity(n)
  {
  }

  datatype ScenarioError = NegativeChoice | SampleTooLarge | ShapeMismatch

  /** The combinations `generar_escenarios` draws from. */
  function Choices(nS: nat, nP: nat): (cs: seq<seq<nat>>)
    requires nP >= nS
    ensures forall i :: 0 <= i < |cs| ==> IndicesIn(cs[i], Masks(nS))
  {
    Combinations(0, |Masks(nS)|, nP - nS)
  }

  lemma ChoicesInRange(nS: nat, nP: nat)
    requires nP >= nS
    ensures forall i :: 0 <= i < |Choices(nS, nP)| ==> IndicesIn(Choices(nS, nP)[i], Masks(nS))
  {
  }

  /** The randomness: n distinct draws below the number of combinations, when there are enough. */
  predicate DrawOk(nS: nat, nP: nat, n: nat, drawn: set<nat>)
  {
    nP >= nS && n <= |Choices(nS, nP)| ==> |drawn| == n && forall j :: j in drawn ==> j < |Choices(nS, nP)|
  }

  /** What `generar_escenarios(nS, nP, n)` returns as written: it does not depend on the draw. */
  function ScenariosAsWritten(nS: nat, nP: nat, n: nat): Result<seq<seq<seq<real>>>, ScenarioError>
  {
    if nP < nS then Failure(NegativeChoice)
    else
      var cs := Choices(nS, nP);
      ChoicesInRange(nS, nP);
      if n > |cs| then Failure(SampleTooLarge)
      else if exists i :: 0 <= i < n && StackAsWritten(nS, Masks(nS), cs[i]).None? then Failure(ShapeMismatch)
      else Success(seq(n, i requires 0 <= i < n => StackAsWritten(nS, Masks(nS), cs[i]).value))
  }

  /** The tables as written, the first n, with the stack corrected for zero extra routes. */
  function Scenarios(nS: nat, nP: nat, n: nat): Result<seq<seq<seq<real>>>, ScenarioError>
  {
    if nP < nS then Failure(NegativeChoice)
    else
      var cs := Choices(nS, nP);
      ChoicesInRange(nS, nP);
      if n > |cs| then Failure(SampleTooLarge)
      else Success(seq(n, i requires 0 <= i < n => Scenario(nS, Masks(nS), cs[i])))
  }

  /** The scenarios as evidently meant: one table per drawn combination, in ascending order of
    * index, with no failure for zero extra routes. */
  function DrawnScenarios(nS: nat, nP: nat, n: nat, drawn: set<nat>): Result<seq<seq<seq<real>>>, ScenarioError>
    requires DrawOk(nS, nP, n, drawn)
  {
    if nP < nS then Failure(NegativeChoice)
    else
      var cs := Choices(nS, nP);
      if n > |cs| then Failure(SampleTooLarge)
      else
        var ord := DrawnInOrder(drawn, |cs|);
        Success(seq(|ord|, k requires 0 <= k < |ord| => Scenario(nS, Masks(nS), cs[ord[k]])))
  }

  /** The intended result holds one table for each drawn combination and nothing else; drawing
    * the first n indices gives the first n tables. */
  lemma DrawnScenariosMeaning(nS: nat, nP: nat, n: nat, drawn: set<nat>)
    requires DrawOk(nS, nP, n, drawn) && nP >= nS && n <= |Choices(nS, nP)|
    ensures var r, cs := DrawnScenarios(nS, nP, n, drawn), Choices(nS, nP);
      && r.Success? && |r.value| == n
      && (forall k :: 0 <= k < n ==> exists j :: j in drawn && r.value[k] == Scenario(nS, Masks(nS), cs[j]))
      && (forall j :: j in drawn ==> exists k :: 0 <= k < n && r.value[k] == Scenario(nS, Masks(nS), cs[j]))
    ensures (forall j :: j in drawn <==> j < n) ==> DrawnScenarios(nS, nP, n, drawn) == Scenarios(nS, nP, n)
  {
    var cs := Choices(nS, nP);
    var ord, r := DrawnInOrder(drawn, |cs|), DrawnScenarios(nS, nP, n, drawn);
    assert |ord| == n by {
      DrawnInOrderCount(drawn, |cs|);
      assert HitsBelow(drawn, |cs|) == drawn;
    }
    forall k | 0 <= k < n
      ensures exists j :: j in drawn && r.value[k] == Scenario(nS, Masks(nS), cs[j])
    {
      PickDrawnFromDraws(cs, drawn, k);
    }
    forall j | j in drawn
      ensures exists k :: 0 <= k < n && r.value[k] == Scenario(nS, Masks(nS), cs[j])
    {
      DrawnScenarioOfDraw(nS, nP, n, drawn, j);
    }
    if forall j :: j in drawn <==> j < n {
      FirstDrawnScenarios(nS, nP, n, drawn);
    }
  }

  /** A draw's table is in the intended result, at the draw's place among the ordered draws. */
  lemma DrawnScenarioOfDraw(nS: nat, nP: nat, n: nat, drawn: set<nat>, j: nat)
    requires DrawOk(nS, nP, n, drawn) && nP >= nS && n <= |Choices(nS, nP)|
    requires j in drawn
    ensures var r, cs := DrawnScenarios(nS, nP, n, drawn), Choices(nS, nP);
      r.Success? && exists k :: 0 <= k < |r.value| && r.value[k] == Scenario(nS, Masks(nS), cs[j])
  {
    var cs := Choices(nS, nP);
    var ord := DrawnInOrder(drawn, |cs|);
    DrawnInOrderSorted(drawn, |cs|);
    var k :| 0 <= k < |ord| && ord[k] == j;
    assert DrawnScenarios(nS, nP, n, drawn).value[k] == Scenario(nS, Masks(nS), cs[j]);
  }

  /** Drawing the first n indices gives the first n tables. */
  lemma FirstDrawnScenarios(nS: nat, nP: nat, n: nat, drawn: set<nat>)
    requires DrawOk(nS, nP, n, drawn) && nP >= nS && n <= |Choices(nS, nP)|
    requires forall j :: j in drawn <==> j < n
    ensures DrawnScenarios(nS, nP, n, drawn) == Scenarios(nS, nP, n)
  {
    var cs := Choices(nS, nP);
    var ord, r := DrawnInOrder(drawn, |cs|), DrawnScenarios(nS, nP, n, drawn).value;
    FirstDrawsInOrder(drawn, n, |cs|);
    var first := Scenarios(nS, nP, n).value;
    forall k | 0 <= k < n
      ensures r[k] == first[k]
    {
      assert ord[k] == k;
    }
    assert r == first;
  }

  /** helpers.py:91-117. */
  method GenerateScenarios(nS: nat, nP: nat, n: nat, drawn: set<nat>)
      returns (r: Result<seq<seq<seq<real>>>, ScenarioError>)
    requires DrawOk(nS, nP, n, drawn)
    ensures r == ScenariosAsWritten(nS, nP, n)
  {
    var masks := CandidateMasks(nS);
    if nP < nS {
      return Failure(NegativeChoice);
    }
    var combs := Combinations(0, |masks|, nP - nS);
    ChoicesInRange(nS, nP);
    if n > |combs| {
      return Failure(SampleTooLarge);
    }
    var picked := PickCombinations(combs, drawn);
    assert picked == combs[..n];
    var scenarios: seq<seq<seq<real>>> := [];
    for i := 0 to n
      invariant |scenarios| == i
      invariant forall j :: 0 <= j < i ==>
        StackAsWritten(nS, masks, combs[j]).Some? && scenarios[j] == StackAsWritten(nS, masks, combs[j]).value
    {
      var table := StackAsWritten(nS, masks, picked[i]);
      if table.None? {
        assert StackAsWritten(nS, masks, combs[i]).None?;
        return Failure(ShapeMismatch);
      }
      scenarios := scenarios + [table.value];
    }
    assert scenarios == seq(n, i requires 0 <= i < n => StackAsWritten(nS, masks, combs[i]).value);
    r := Success(scenarios);
  }

  // ---------------------------------------------------------------- properties

  /** With at least one extra route the source returns the intended tables. */
  lemma AsWrittenAgreesWithExtraRoutes(nS: nat, nP: nat, n: nat)
    requires nP > nS
    ensures ScenariosAsWritten(nS, nP, n) == Scenarios(nS, nP, n)
  {
    var cs, masks := Choices(nS, nP), Masks(nS);
    ChoicesInRange(nS, nP);
    if n <= |cs| {
      forall i | 0 <= i < n
        ensures StackAsWritten(nS, masks, cs[i]) == Some(Scenario(nS, masks, cs[i]))
      {
        assert |cs[i]| == nP - nS;
      }
      assert ScenariosAsWritten(nS, nP, n).value == Scenarios(nS, nP, n).value;
    }
  }

  /** With no extra route and at least one table asked for, the source fails and the intended
    * result is one identity table. */
  lemma AsWrittenFailsWithoutExtraRoutes(nS: nat)
    requires nS > 0
    ensures ScenariosAsWritten(nS, nS, 1) == Failure(ShapeMismatch)
    ensures Scenarios(nS, nS, 1) == Success([Identity(nS)])
  {
    assert Choices(nS, nS) == [[]];
    assert StackAsWritten(nS, Masks(nS), Choices(nS, nS)[0]).None?;
    assert AddedRows(nS, Masks(nS), []) == [];
    assert Scenario(nS, Masks(nS), []) == Identity(nS);
    assert Scenarios(nS, nS, 1).value == [Scenario(nS, Masks(nS), [])];
  }

  /** Each table: one row per route, one column per branch, the identity on top, and below it
    * the 0/1 rows of ascending candidate masks, each serving at least two branches. */
  lemma ScenarioShape(nS: nat, nP: nat, n: nat, i: nat)
    requires Scenarios(nS, nP, n).Success? && i < n
    ensures var table, masks, idx := Scenarios(nS, nP, n).value[i], Masks(nS), Choices(nS, nP)[i];
      && |table| == nP && |idx| == nP - nS
      && (forall r :: 0 <= r < nP ==> |table[r]| == nS)
      && table[..nS] == Identity(nS)
      && (forall k :: 0 <= k < |idx| ==>
            && idx[k] < |masks|
            && IsCandidate(masks[idx[k]], nS)
            && table[nS + k] == BitRow(masks[idx[k]], nS)
            && Ones(Bits(masks[idx[k]], nS)) >= 2)
      && (forall k, k' :: 0 <= k < k' < |idx| ==> masks[idx[k]] < masks[idx[k']])
  {
    var masks, idx := Masks(nS), Choices(nS, nP)[i];
    ChoicesInRange(nS, nP);
    forall k | 0 <= k < |idx|
      ensures IsCandidate(masks[idx[k]], nS) && Ones(Bits(masks[idx[k]], nS)) >= 2
    {
      assert masks[idx[k]] in masks;
      CandidateHasTwoOnes(masks[idx[k]], nS);
    }
  }

  /** The bit rows of distinct candidates differ, so no route is listed twice. */
  lemma BitRowsDistinct(m1: nat, m2: nat, n: nat)
    requires IsCandidate(m1, n) && IsCandidate(m2, n) && m1 != m2
    ensures BitRow(m1, n) != BitRow(m2, n)
  {
    BitsRoundTrip(m1, n);
    BitsRoundTrip(m2, n);
    assert Bits(m1, n) != Bits(m2, n);
    var i :| 0 <= i < n && Bits(m1, n)[i] != Bits(m2, n)[i];
    assert BitRow(m1, n)[i] != BitRow(m2, n)[i];
  }

  /** A table with extra routes over two or more branches has more routes than branches, so
    * `model_problem` solves it as one global problem. */
  lemma ScenarioNotSeparable(nS: nat, nP: nat, n: nat, i: nat)
    requires Scenarios(nS, nP, n).Success? && i < n
    requires nS >= 2 && nP > nS
    ensures var table := Scenarios(nS, nP, n).value[i];
      Loadtxt(table).Some? && !Separable(Loadtxt(table).value)
  {
    ScenarioShape(nS, nP, n, i);
    var table := Scenarios(nS, nP, n).value[i];
    assert |table[0]| == nS;
    RectangularNotSeparable(table);
  }
}
