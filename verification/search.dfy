/** `ConstrainedParameterGrid` (skutil/model_selection/search.py): the points
    of a parameter grid, minus every point that contains one of the given bad
    combinations. */
module ConstrainedGrid {
  import opened Wrappers
  import opened ParameterGrid

  /** `bad.items() <= params.items()`: every key of `bad` is bound in
      `params` to an equal value. */
  predicate ContainsCombination<V(==)>(params: Assignment<V>, bad: Assignment<V>) {
    forall k :: k in bad ==> k in params && params[k] == bad[k]
  }

  /** Some combination of `badComb` is contained in `params`. */
  predicate IsBad<V(==)>(params: Assignment<V>, badComb: seq<Assignment<V>>) {
    exists j :: 0 <= j < |badComb| && ContainsCombination(params, badComb[j])
  }

  /** Reference definition: the assignments of `all` that are not bad, in their order. */
  function Admissible<V(==)>(all: seq<Assignment<V>>, badComb: seq<Assignment<V>>): seq<Assignment<V>> {
    if |all| == 0 then []
    else
      var last := all[|all| - 1];
      Admissible(all[..|all| - 1], badComb) + (if IsBad(last, badComb) then [] else [last])
  }

  /** `ConstrainedParameterGrid(paramGrid, badComb).__iter__()`, collected into
      a sequence. `None` is Python's `bad_comb=None`. */
  method Iterate<V(==)>(paramGrid: seq<SubGrid<V>>, badComb: Option<seq<Assignment<V>>>)
    returns (out: seq<Assignment<V>>)
    requires AllDistinctKeys(paramGrid)
    ensures badComb.None? ==> out == Grid(paramGrid)
    ensures badComb.Some? ==> out == Admissible(Grid(paramGrid), badComb.value)
    ensures badComb.Some? ==>
      forall i, j :: 0 <= i < |out| && 0 <= j < |badComb.value| ==>
        !ContainsCombination(out[i], badComb.value[j])
    ensures forall i :: 0 <= i < |out| ==> out[i] in Grid(paramGrid)
  {
    var all := Grid(paramGrid);
    if badComb.None? {
      return all;
    }
    var bad := badComb.value;
    out := [];
    for i := 0 to |all|
      invariant out == Admissible(all[..i], bad)
      invariant forall n :: 0 <= n < |out| ==> out[n] in all && !IsBad(out[n], bad)
    {
      var params := all[i];
      var badFound := FindBad(params, bad);
      assert all[..i + 1][..i] == all[..i];
      if !badFound {
        out := out + [params];
      }
    }
    assert all[..|all|] == all;
  }

  /** The inner loop of `__iter__`: scan the bad combinations in order and
      stop at the first one `params` contains. */
  method FindBad<V(==)>(params: Assignment<V>, bad: seq<Assignment<V>>) returns (badFound: bool)
    ensures badFound <==> IsBad(params, bad)
  {
    badFound := false;
    for j := 0 to |bad|
      invariant !badFound
      invariant forall jj :: 0 <= jj < j ==> !ContainsCombination(params, bad[jj])
    {
      if forall k | k in bad[j] :: k in params && params[k] == bad[j][k] {
        badFound := true;
        break;
      }
    }
  }

  /** An assignment survives exactly when it is in the grid and contains no bad combination. */
  lemma {:induction false} AdmissibleMembership<V>(all: seq<Assignment<V>>, badComb: seq<Assignment<V>>, a: Assignment<V>)
    ensures a in Admissible(all, badComb) <==> a in all && !IsBad(a, badComb)
  {
    if |all| > 0 {
      var init := all[..|all| - 1];
      AdmissibleMembership(init, badComb, a);
      assert all == init + [all[|all| - 1]];
    }
  }

  /** Filtering distributes over concatenation. */
  lemma {:induction false} AdmissibleAppend<V>(xs: seq<Assignment<V>>, ys: seq<Assignment<V>>, badComb: seq<Assignment<V>>)
    ensures Admissible(xs + ys, badComb) == Admissible(xs, badComb) + Admissible(ys, badComb)
    decreases |ys|
  {
    if |ys| == 0 {
      assert xs + ys == xs;
    } else {
      var n := |ys| - 1;
      AdmissibleAppend(xs, ys[..n], badComb);
      assert (xs + ys)[..|xs + ys| - 1] == xs + ys[..n];
    }
  }

  /** Positions of `all` whose assignment is not bad, ascending. */
  function KeptPositions<V(==)>(all: seq<Assignment<V>>, badComb: seq<Assignment<V>>): seq<nat> {
    if |all| == 0 then []
    else
      KeptPositions(all[..|all| - 1], badComb) + (if IsBad(all[|all| - 1], badComb) then [] else [|all| - 1])
  }

  /** The output is `all` read at the kept positions, which ascend. */
  lemma {:induction false} KeptPositionsIndexOutput<V>(all: seq<Assignment<V>>, badComb: seq<Assignment<V>>)
    ensures |KeptPositions(all, badComb)| == |Admissible(all, badComb)|
    ensures forall n :: 0 <= n < |KeptPositions(all, badComb)| ==>
      KeptPositions(all, badComb)[n] < |all| &&
      Admissible(all, badComb)[n] == all[KeptPositions(all, badComb)[n]]
    ensures forall n, m :: 0 <= n < m < |KeptPositions(all, badComb)| ==>
      KeptPositions(all, badComb)[n] < KeptPositions(all, badComb)[m]
  {
    if |all| > 0 {
      var init := all[..|all| - 1];
      KeptPositionsIndexOutput(init, badComb);
    }
  }

  /** A position is kept exactly when its assignment is not bad. */
  lemma {:induction false} KeptPositionsExact<V>(all: seq<Assignment<V>>, badComb: seq<Assignment<V>>)
    ensures forall i :: 0 <= i < |all| ==> (i in KeptPositions(all, badComb) <==> !IsBad(all[i], badComb))
  {
    if |all| > 0 {
      var init := all[..|all| - 1];
      KeptPositionsExact(init, badComb);
      KeptPositionsIndexOutput(init, badComb);
      forall i | 0 <= i < |all| ensures (i in KeptPositions(all, badComb) <==> !IsBad(all[i], badComb)) {
        if i < |all| - 1 {
          assert init[i] == all[i];
        }
      }
    }
  }

  /** Filtering preserves order: the output is `all` read at an ascending
      sequence of positions, and a position is read exactly when its
      assignment is not bad. */
  lemma AdmissibleIsOrderedSubsequence<V>(all: seq<Assignment<V>>, badComb: seq<Assignment<V>>)
    ensures |KeptPositions(all, badComb)| == |Admissible(all, badComb)|
    ensures forall n :: 0 <= n < |KeptPositions(all, badComb)| ==>
      KeptPositions(all, badComb)[n] < |all| &&
      Admissible(all, badComb)[n] == all[KeptPositions(all, badComb)[n]]
    ensures forall n, m :: 0 <= n < m < |KeptPositions(all, badComb)| ==>
      KeptPositions(all, badComb)[n] < KeptPositions(all, badComb)[m]
    ensures forall i :: 0 <= i < |all| ==> (i in KeptPositions(all, badComb) <==> !IsBad(all[i], badComb))
  {
    KeptPositionsIndexOutput(all, badComb);
    KeptPositionsExact(all, badComb);
  }

  /** Positions of `all` whose assignment contains some bad combination. */
  function BadPositions<V(==)>(all: seq<Assignment<V>>, badComb: seq<Assignment<V>>): set<nat> {
    set i: nat | i < |all| && IsBad(all[i], badComb)
  }

  /** The output count is the grid size minus the number of bad assignments. */
  lemma {:induction false} AdmissibleCount<V>(all: seq<Assignment<V>>, badComb: seq<Assignment<V>>)
    ensures |Admissible(all, badComb)| == |all| - |BadPositions(all, badComb)|
  {
    if |all| == 0 {
      assert BadPositions(all, badComb) == {};
    } else {
      var n := |all| - 1;
      var init := all[..n];
      AdmissibleCount(init, badComb);
      var before := BadPositions(init, badComb);
      BadPositionsSnoc(all, badComb);
      assert n !in before;
    }
  }

  /** The bad positions of a list are those of its prefix, plus the last
      position when the last assignment is bad. */
  lemma BadPositionsSnoc<V>(all: seq<Assignment<V>>, badComb: seq<Assignment<V>>)
    requires |all| > 0
    ensures BadPositions(all, badComb) ==
      BadPositions(all[..|all| - 1], badComb) + (if IsBad(all[|all| - 1], badComb) then {|all| - 1} else {})
  {
    var n := |all| - 1;
    var init := all[..n];
    forall i: nat | i < n ensures init[i] == all[i] { }
  }

  /** An empty list of bad combinations filters nothing, exactly as `None` does. */
  lemma {:induction false} NoCombinationsKeepsAll<V>(all: seq<Assignment<V>>)
    ensures Admissible(all, []) == all
  {
    if |all| > 0 {
      NoCombinationsKeepsAll(all[..|all| - 1]);
      assert all == all[..|all| - 1] + [all[|all| - 1]];
    }
  }

  /** The empty dict `{}` is contained in every assignment, so it excludes everything. */
  lemma {:induction false} EmptyCombinationExcludesAll<V>(all: seq<Assignment<V>>, badComb: seq<Assignment<V>>)
    requires map[] in badComb
    ensures Admissible(all, badComb) == []
  {
    if |all| > 0 {
      EmptyCombinationExcludesAll(all[..|all| - 1], badComb);
      var j :| 0 <= j < |badComb| && badComb[j] == map[];
      assert ContainsCombination(all[|all| - 1], badComb[j]);
    }
  }

  /** A bad combination naming a parameter that no dict of the grid has never
      matches, so a list of such combinations leaves the grid unchanged. */
  lemma {:induction false} UnknownKeyNeverExcludes<V>(paramGrid: seq<SubGrid<V>>, badComb: seq<Assignment<V>>)
    requires AllDistinctKeys(paramGrid)
    requires forall j :: 0 <= j < |badComb| ==>
      exists k :: k in badComb[j] && forall g :: 0 <= g < |paramGrid| ==> k !in KeySet(paramGrid[g])
    ensures Admissible(Grid(paramGrid), badComb) == Grid(paramGrid)
  {
    var all := Grid(paramGrid);
    forall n | 0 <= n < |all| ensures !IsBad(all[n], badComb) {
      var a := all[n];
      GridMembership(paramGrid, a);
      var g :| 0 <= g < |paramGrid| && IsPointOf(a, paramGrid[g]);
      forall j | 0 <= j < |badComb| ensures !ContainsCombination(a, badComb[j]) {
        var k :| k in badComb[j] && forall g :: 0 <= g < |paramGrid| ==> k !in KeySet(paramGrid[g]);
        assert k !in a;
      }
    }
    KeepsAllWhenNoneBad(all, badComb);
  }

  /** A bad combination asking for a value that the grid never offers for
      that parameter never matches either: values are compared with `==`, so
      a list `[8]` does not stand for the value `8`. */
  lemma {:induction false} UnofferedValueNeverExcludes<V>(paramGrid: seq<SubGrid<V>>, badComb: seq<Assignment<V>>)
    requires AllDistinctKeys(paramGrid)
    requires forall j :: 0 <= j < |badComb| ==>
      exists k :: k in badComb[j] && forall g, i :: 0 <= g < |paramGrid| && 0 <= i < |paramGrid[g]| && paramGrid[g][i].0 == k ==>
        badComb[j][k] !in paramGrid[g][i].1
    ensures Admissible(Grid(paramGrid), badComb) == Grid(paramGrid)
  {
    var all := Grid(paramGrid);
    forall n | 0 <= n < |all| ensures !IsBad(all[n], badComb) {
      var a := all[n];
      GridMembership(paramGrid, a);
      var g :| 0 <= g < |paramGrid| && IsPointOf(a, paramGrid[g]);
      forall j | 0 <= j < |badComb| ensures !ContainsCombination(a, badComb[j]) {
        var k :| k in badComb[j] && forall g, i :: 0 <= g < |paramGrid| && 0 <= i < |paramGrid[g]| && paramGrid[g][i].0 == k ==>
          badComb[j][k] !in paramGrid[g][i].1;
        if k in a {
          assert k in KeySet(paramGrid[g]);
          var i :| 0 <= i < |paramGrid[g]| && paramGrid[g][i].0 == k;
          assert a[k] in paramGrid[g][i].1;
        }
      }
    }
    KeepsAllWhenNoneBad(all, badComb);
  }

  /** Filtering keeps everything when no assignment is bad. */
  lemma {:induction false} KeepsAllWhenNoneBad<V>(all: seq<Assignment<V>>, badComb: seq<Assignment<V>>)
    requires forall i :: 0 <= i < |all| ==> !IsBad(all[i], badComb)
    ensures Admissible(all, badComb) == all
  {
    if |all| > 0 {
      var n := |all| - 1;
      var init := all[..n];
      assert forall i :: 0 <= i < |init| ==> init[i] == all[i];
      KeepsAllWhenNoneBad(init, badComb);
      assert !IsBad(all[n], badComb);
      assert all == init + [all[n]];
    }
  }
}
