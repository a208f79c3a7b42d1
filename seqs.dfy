/** Generic facts about sequences: flattening a grid of rows, duplicates, sums. */
module Seqs {

  /** Concatenation of the inner sequences, in order (what nested `for` loops produce). */
  function Flatten<T>(ss: seq<seq<T>>): seq<T>
    decreases |ss|
  {
    if |ss| == 0 then [] else Flatten(ss[..|ss| - 1]) + ss[|ss| - 1]
  }

  lemma FlattenSnoc<T>(ss: seq<seq<T>>, k: nat)
    requires k < |ss|
    ensures Flatten(ss[..k + 1]) == Flatten(ss[..k]) + ss[k]
  {
    assert ss[..k + 1][..k] == ss[..k];
  }

  lemma FlattenWhole<T>(ss: seq<seq<T>>)
    ensures Flatten(ss[..|ss|]) == Flatten(ss)
  {
    assert ss[..|ss|] == ss;
  }

  /** Every cell of the grid occurs in the flattened sequence. */
  lemma {:induction false} FlattenMember<T>(ss: seq<seq<T>>, i: nat, j: nat)
    requires i < |ss| && j < |ss[i]|
    ensures ss[i][j] in Flatten(ss)
    decreases |ss|
  {
    if i < |ss| - 1 {
      FlattenMember(ss[..|ss| - 1], i, j);
    }
  }

  /** Nothing but the cells of the grid occurs in the flattened sequence. */
  lemma {:induction false} FlattenMemberInv<T>(ss: seq<seq<T>>, x: T)
    requires x in Flatten(ss)
    ensures exists i, j :: 0 <= i < |ss| && 0 <= j < |ss[i]| && ss[i][j] == x
    decreases |ss|
  {
    var last := ss[|ss| - 1];
    if x in last {
      var j :| 0 <= j < |last| && last[j] == x;
      assert ss[|ss| - 1][j] == x;
    } else {
      FlattenMemberInv(ss[..|ss| - 1], x);
      var i, j :| 0 <= i < |ss| - 1 && 0 <= j < |ss[..|ss| - 1][i]| && ss[..|ss| - 1][i][j] == x;
      assert ss[i][j] == x;
    }
  }

  /** A grid whose rows all have length m flattens to |ss| * m cells. */
  lemma {:induction false} FlattenUniformLength<T>(ss: seq<seq<T>>, m: nat)
    requires forall i :: 0 <= i < |ss| ==> |ss[i]| == m
    ensures |Flatten(ss)| == |ss| * m
    decreases |ss|
  {
    if |ss| > 0 {
      FlattenUniformLength(ss[..|ss| - 1], m);
      assert |Flatten(ss)| == (|ss| - 1) * m + m;
    }
  }

  ghost predicate NoDup<T>(s: seq<T>)
  {
    forall i, j :: 0 <= i < j < |s| ==> s[i] != s[j]
  }

  lemma NoDupAppend<T>(s: seq<T>, t: seq<T>)
    requires NoDup(s) && NoDup(t)
    requires forall x :: x in s ==> x !in t
    ensures NoDup(s + t)
  {
    forall i, j | 0 <= i < j < |s + t|
      ensures (s + t)[i] != (s + t)[j]
    {
      if j >= |s| && i < |s| {
        assert s[i] in s;
        assert (s + t)[j] == t[j - |s|];
      }
    }
  }

  /** A grid of duplicate-free rows that share no element flattens without duplicates. */
  lemma {:induction false} FlattenNoDup<T>(ss: seq<seq<T>>)
    requires forall i :: 0 <= i < |ss| ==> NoDup(ss[i])
    requires forall i, k, x :: 0 <= i < k < |ss| && x in ss[i] ==> x !in ss[k]
    ensures NoDup(Flatten(ss))
    decreases |ss|
  {
    if |ss| > 0 {
      var init := ss[..|ss| - 1];
      FlattenNoDup(init);
      forall x | x in Flatten(init)
        ensures x !in ss[|ss| - 1]
      {
        FlattenMemberInv(init, x);
        var i, j :| 0 <= i < |init| && 0 <= j < |init[i]| && init[i][j] == x;
        assert x in ss[i];
      }
      NoDupAppend(Flatten(init), ss[|ss| - 1]);
    }
  }

  /** Sum of a sequence of reals (Python's `sum`). */
  function Sum(s: seq<real>): real
    decreases |s|
  {
    if |s| == 0 then 0.0 else Sum(s[..|s| - 1]) + s[|s| - 1]
  }

  lemma {:induction false} SumAppend(s: seq<real>, t: seq<real>)
    ensures Sum(s + t) == Sum(s) + Sum(t)
    decreases |t|
  {
    if |t| > 0 {
      assert (s + t)[..|s + t| - 1] == s + t[..|t| - 1];
      SumAppend(s, t[..|t| - 1]);
    } else {
      assert s + t == s;
    }
  }
}
