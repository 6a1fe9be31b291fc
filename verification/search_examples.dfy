/** The concrete grids of the constrained grid's docstring and tests. */
module ConstrainedGridExamples {
  import opened ParameterGrid
  import opened ConstrainedGrid

  /** `{'a': [1, 2], 'b': [3, 4, 5]}` */
  const DocGrid: SubGrid<int> := [("a", [1, 2]), ("b", [3, 4, 5])]

  // Unfolding steps stated over variables, so that the concrete grids below
  // are evaluated one step at a time.

  lemma GridOfOneSorted<V>(g: SubGrid<V>)
    requires DistinctKeys(g) && SortItems(g) == g
    ensures Grid([g]) == Product(g)
  {
    var grids := [g];
    assert grids[1..] == [];
  }

  lemma ProductStep<V>(g: SubGrid<V>)
    requires |g| > 0
    ensures Product(g) == Extend(g[0].0, g[0].1, Product(g[1..]))
  {
  }

  lemma ProductOfOne<V>(k: string, vs: seq<V>)
    ensures Product([(k, vs)]) == Extend(k, vs, [map[]])
  {
    var g := [(k, vs)];
    assert g[1..] == [];
  }

  lemma ExtendTwo<V>(k: string, v1: V, v2: V, rest: seq<Assignment<V>>)
    ensures Extend(k, [v1, v2], rest) == Bind(k, v1, rest) + Bind(k, v2, rest)
  {
    assert [v1, v2][1..] == [v2];
    assert [v2][1..] == [];
  }

  lemma ExtendThree<V>(k: string, v1: V, v2: V, v3: V, rest: seq<Assignment<V>>)
    ensures Extend(k, [v1, v2, v3], rest) == Bind(k, v1, rest) + Bind(k, v2, rest) + Bind(k, v3, rest)
  {
    assert [v1, v2, v3][1..] == [v2, v3];
    ExtendTwo(k, v2, v3, rest);
  }

  lemma BindOne<V>(k: string, v: V, m: Assignment<V>)
    ensures Bind(k, v, [m]) == [m[k := v]]
  {
  }

  lemma BindTwo<V>(k: string, v: V, m1: Assignment<V>, m2: Assignment<V>)
    ensures Bind(k, v, [m1, m2]) == [m1[k := v], m2[k := v]]
  {
  }

  lemma BindThree<V>(k: string, v: V, m1: Assignment<V>, m2: Assignment<V>, m3: Assignment<V>)
    ensures Bind(k, v, [m1, m2, m3]) == [m1[k := v], m2[k := v], m3[k := v]]
  {
  }

  lemma DocGridSorted()
    ensures DistinctKeys(DocGrid) && SortItems(DocGrid) == DocGrid
  {
    assert PyStr.Less("a", "b");
  }

  /** A point of the docstring grid. */
  function DocPoint(a: int, b: int): Assignment<int> {
    map["a" := a, "b" := b]
  }

  /** The product of any dict shaped like the docstring grid, over variables
      so that it is evaluated step by step. */
  lemma DocShapedProduct(x1: int, x2: int, y1: int, y2: int, y3: int)
    ensures Product([("a", [x1, x2]), ("b", [y1, y2, y3])]) ==
      [DocPoint(x1, y1), DocPoint(x1, y2), DocPoint(x1, y3), DocPoint(x2, y1), DocPoint(x2, y2), DocPoint(x2, y3)]
  {
    var g := [("a", [x1, x2]), ("b", [y1, y2, y3])];
    ProductStep(g);
    assert g[1..] == [("b", [y1, y2, y3])];
    ProductOfOne("b", [y1, y2, y3]);
    var e: Assignment<int> := map[];
    ExtendThree("b", y1, y2, y3, [e]);
    BindOne("b", y1, e); BindOne("b", y2, e); BindOne("b", y3, e);
    var pb := [map["b" := y1], map["b" := y2], map["b" := y3]];
    assert Product(g[1..]) == pb;
    ExtendTwo("a", x1, x2, pb);
    BindThree("a", x1, pb[0], pb[1], pb[2]);
    BindThree("a", x2, pb[0], pb[1], pb[2]);
    forall x, y | (x == x1 || x == x2) && (y == y1 || y == y2 || y == y3)
      ensures map["b" := y]["a" := x] == DocPoint(x, y)
    {
    }
  }

  /** The unconstrained points of the docstring grid, `b` varying fastest. */
  lemma DocGridPoints()
    ensures Grid([DocGrid]) ==
      [ map["a" := 1, "b" := 3], map["a" := 1, "b" := 4], map["a" := 1, "b" := 5],
        map["a" := 2, "b" := 3], map["a" := 2, "b" := 4], map["a" := 2, "b" := 5] ]
  {
    DocGridSorted();
    GridOfOneSorted(DocGrid);
    DocShapedProduct(1, 2, 3, 4, 5);
  }

  /** One point screened against one two-key combination. */
  lemma ScreenOne(a: int, b: int, ba: int, bb: int)
    ensures Admissible([DocPoint(a, b)], [DocPoint(ba, bb)]) ==
      if a == ba && b == bb then [] else [DocPoint(a, b)]
  {
    var p := DocPoint(a, b);
    var bad := DocPoint(ba, bb);
    var none: seq<Assignment<int>> := [];
    assert [p][..0] == none;
    if a != ba { assert "a" in bad && p["a"] != bad["a"]; }
    if b != bb { assert "b" in bad && p["b"] != bad["b"]; }
    assert IsBad(p, [bad]) <==> ContainsCombination(p, bad);
  }

  /** Screening three points in turn. */
  lemma ScreenThree(p: Assignment<int>, q: Assignment<int>, r: Assignment<int>, bad: seq<Assignment<int>>)
    ensures Admissible([p, q, r], bad) == Admissible([p], bad) + Admissible([q], bad) + Admissible([r], bad)
  {
    AdmissibleAppend([p, q], [r], bad);
    AdmissibleAppend([p], [q], bad);
    assert [p] + [q] == [p, q];
    assert [p, q] + [r] == [p, q, r];
  }

  /** A row of the docstring grid that holds the bad point loses just it. */
  lemma ScreenRowHit(x: int, y1: int, y2: int, y3: int)
    requires y1 != y2 && y2 != y3
    ensures Admissible([DocPoint(x, y1), DocPoint(x, y2), DocPoint(x, y3)], [DocPoint(x, y2)]) ==
      [DocPoint(x, y1), DocPoint(x, y3)]
  {
    var bad := [DocPoint(x, y2)];
    ScreenThree(DocPoint(x, y1), DocPoint(x, y2), DocPoint(x, y3), bad);
    ScreenOne(x, y1, x, y2); ScreenOne(x, y2, x, y2); ScreenOne(x, y3, x, y2);
  }

  /** A row of the docstring grid with another `a` value keeps every point. */
  lemma ScreenRowMiss(x: int, bx: int, y1: int, y2: int, y3: int, bb: int)
    requires x != bx
    ensures Admissible([DocPoint(x, y1), DocPoint(x, y2), DocPoint(x, y3)], [DocPoint(bx, bb)]) ==
      [DocPoint(x, y1), DocPoint(x, y2), DocPoint(x, y3)]
  {
    var bad := [DocPoint(bx, bb)];
    ScreenThree(DocPoint(x, y1), DocPoint(x, y2), DocPoint(x, y3), bad);
    ScreenOne(x, y1, bx, bb); ScreenOne(x, y2, bx, bb); ScreenOne(x, y3, bx, bb);
  }

  /** The docstring's screening over variables: the combination binds the
      first `a` value and the middle `b` value. */
  lemma DocShapedScreen(x1: int, x2: int, y1: int, y2: int, y3: int)
    requires x1 != x2 && y1 != y2 && y2 != y3
    ensures Admissible([DocPoint(x1, y1), DocPoint(x1, y2), DocPoint(x1, y3),
                        DocPoint(x2, y1), DocPoint(x2, y2), DocPoint(x2, y3)], [DocPoint(x1, y2)]) ==
      [DocPoint(x1, y1), DocPoint(x1, y3), DocPoint(x2, y1), DocPoint(x2, y2), DocPoint(x2, y3)]
  {
    var bad := [DocPoint(x1, y2)];
    var row1 := [DocPoint(x1, y1), DocPoint(x1, y2), DocPoint(x1, y3)];
    var row2 := [DocPoint(x2, y1), DocPoint(x2, y2), DocPoint(x2, y3)];
    assert row1 + row2 == [DocPoint(x1, y1), DocPoint(x1, y2), DocPoint(x1, y3),
                           DocPoint(x2, y1), DocPoint(x2, y2), DocPoint(x2, y3)];
    AdmissibleAppend(row1, row2, bad);
    ScreenRowHit(x1, y1, y2, y3);
    ScreenRowMiss(x2, x1, y1, y2, y3, y2);
  }

  /** The docstring example: with bad combination `{'a': 1, 'b': 4}` the grid
      yields exactly these five points, in this order. */
  lemma DocstringExample()
    ensures Admissible(Grid([DocGrid]), [map["a" := 1, "b" := 4]]) ==
      [ map["a" := 1, "b" := 3], map["a" := 1, "b" := 5],
        map["a" := 2, "b" := 3], map["a" := 2, "b" := 4], map["a" := 2, "b" := 5] ]
  {
    DocGridPoints();
    DocShapedScreen(1, 2, 3, 4, 5);
  }

  /** The grid of the test module: `{'a': [8, 9], 'b': [1, 2, 3], 'c': [5, 6]}`. */
  const TestGrid: SubGrid<int> := [("a", [8, 9]), ("b", [1, 2, 3]), ("c", [5, 6])]

  /** The test module's bad combination `{'a': 8, 'b': 3}`. */
  const TestBad: Assignment<int> := map["a" := 8, "b" := 3]

  function Point(a: int, b: int, c: int): Assignment<int> {
    map["a" := a, "b" := b, "c" := c]
  }

  /** The two points that share `a` and `b`, `c` varying fastest. */
  function PointPair(a: int, b: int): seq<Assignment<int>> {
    PairOf(a, b, 5, 6)
  }

  lemma TestGridSorted()
    ensures DistinctKeys(TestGrid) && SortItems(TestGrid) == TestGrid
  {
    assert PyStr.Less("a", "b") && PyStr.Less("b", "c") && PyStr.Less("a", "c");
  }

  /** Two points sharing `a` and `b`, with `c` taking two values in turn. */
  function PairOf(a: int, b: int, c1: int, c2: int): seq<Assignment<int>> {
    [map["a" := a, "b" := b, "c" := c1], map["a" := a, "b" := b, "c" := c2]]
  }

  lemma BindConcat<V>(k: string, v: V, xs: seq<Assignment<V>>, ys: seq<Assignment<V>>)
    ensures Bind(k, v, xs + ys) == Bind(k, v, xs) + Bind(k, v, ys)
  {
  }

  lemma BindPairB(b: int, c1: int, c2: int)
    ensures Bind("b", b, [map["c" := c1], map["c" := c2]]) == [map["b" := b, "c" := c1], map["b" := b, "c" := c2]]
  {
    BindTwo("b", b, map["c" := c1], map["c" := c2]);
    assert map["c" := c1]["b" := b] == map["b" := b, "c" := c1];
    assert map["c" := c2]["b" := b] == map["b" := b, "c" := c2];
  }

  lemma BindPairA(a: int, b: int, c1: int, c2: int)
    ensures Bind("a", a, [map["b" := b, "c" := c1], map["b" := b, "c" := c2]]) == PairOf(a, b, c1, c2)
  {
    BindTwo("a", a, map["b" := b, "c" := c1], map["b" := b, "c" := c2]);
    assert map["b" := b, "c" := c1]["a" := a] == map["a" := a, "b" := b, "c" := c1];
    assert map["b" := b, "c" := c2]["a" := a] == map["a" := a, "b" := b, "c" := c2];
  }

  /** The product of any dict shaped like the test grid, over variables so
      that it is evaluated step by step. */
  lemma ShapedProduct(x1: int, x2: int, y1: int, y2: int, y3: int, z1: int, z2: int)
    ensures Product([("a", [x1, x2]), ("b", [y1, y2, y3]), ("c", [z1, z2])]) ==
      PairOf(x1, y1, z1, z2) + PairOf(x1, y2, z1, z2) + PairOf(x1, y3, z1, z2) +
      PairOf(x2, y1, z1, z2) + PairOf(x2, y2, z1, z2) + PairOf(x2, y3, z1, z2)
  {
    var g := [("a", [x1, x2]), ("b", [y1, y2, y3]), ("c", [z1, z2])];
    var bc := g[1..];
    assert bc == [("b", [y1, y2, y3]), ("c", [z1, z2])];
    assert bc[1..] == [("c", [z1, z2])];
    ProductOfOne("c", [z1, z2]);
    var e: Assignment<int> := map[];
    ExtendTwo("c", z1, z2, [e]);
    BindOne("c", z1, e); BindOne("c", z2, e);
    var pc := [map["c" := z1], map["c" := z2]];
    assert Product(bc[1..]) == pc;
    ExtendThree("b", y1, y2, y3, pc);
    BindPairB(y1, z1, z2); BindPairB(y2, z1, z2); BindPairB(y3, z1, z2);
    var r1, r2, r3 := [map["b" := y1, "c" := z1], map["b" := y1, "c" := z2]],
                      [map["b" := y2, "c" := z1], map["b" := y2, "c" := z2]],
                      [map["b" := y3, "c" := z1], map["b" := y3, "c" := z2]];
    var pbc := r1 + r2 + r3;
    assert Product(bc) == pbc;
    ExtendTwo("a", x1, x2, pbc);
    forall x | x == x1 || x == x2
      ensures Bind("a", x, pbc) == PairOf(x, y1, z1, z2) + PairOf(x, y2, z1, z2) + PairOf(x, y3, z1, z2)
    {
      BindConcat("a", x, r1 + r2, r3);
      BindConcat("a", x, r1, r2);
      BindPairA(x, y1, z1, z2); BindPairA(x, y2, z1, z2); BindPairA(x, y3, z1, z2);
    }
  }

  lemma TestGridPoints()
    ensures Grid([TestGrid]) ==
      PointPair(8, 1) + PointPair(8, 2) + PointPair(8, 3) +
      PointPair(9, 1) + PointPair(9, 2) + PointPair(9, 3)
  {
    TestGridSorted();
    GridOfOneSorted(TestGrid);
    ShapedProduct(8, 9, 1, 2, 3, 5, 6);
  }

  lemma ScreenPair(a: int, b: int)
    ensures Admissible(PointPair(a, b), [TestBad]) == if a == 8 && b == 3 then [] else PointPair(a, b)
  {
    var p5, p6 := Point(a, b, 5), Point(a, b, 6);
    var none: seq<Assignment<int>> := [];
    assert [p5, p6][..1] == [p5] && [p5][..0] == none;
    if a != 8 { assert p5["a"] != TestBad["a"] && p6["a"] != TestBad["a"]; }
    if b != 3 { assert p5["b"] != TestBad["b"] && p6["b"] != TestBad["b"]; }
    var bad := [TestBad];
    assert bad[0] == TestBad;
    assert TestBad.Keys == {"a", "b"};
    if a == 8 && b == 3 {
      assert ContainsCombination(p5, TestBad) && ContainsCombination(p6, TestBad);
    }
    assert IsBad(p5, bad) <==> ContainsCombination(p5, TestBad);
    assert IsBad(p6, bad) <==> ContainsCombination(p6, TestBad);
    assert Admissible([p5], bad) == (if IsBad(p5, bad) then [] else [p5]);
    assert Admissible([p5, p6], bad) == Admissible([p5], bad) + (if IsBad(p6, bad) then [] else [p6]);
    assert PointPair(a, b) == [p5, p6];
  }

  /** The twelve test points screened against `{'a': 8, 'b': 3}`: the two with
      `a == 8` and `b == 3` go. */
  lemma TestPointsScreened()
    ensures |Admissible(PointPair(8, 1) + PointPair(8, 2) + PointPair(8, 3) +
                        PointPair(9, 1) + PointPair(9, 2) + PointPair(9, 3), [TestBad])| == 10
  {
    ScreenPair(8, 1); ScreenPair(8, 2); ScreenPair(8, 3);
    ScreenPair(9, 1); ScreenPair(9, 2); ScreenPair(9, 3);
    var x1 := PointPair(8, 1) + PointPair(8, 2);
    var x2 := x1 + PointPair(8, 3);
    var x3 := x2 + PointPair(9, 1);
    var x4 := x3 + PointPair(9, 2);
    AdmissibleAppend(PointPair(8, 1), PointPair(8, 2), [TestBad]);
    AdmissibleAppend(x1, PointPair(8, 3), [TestBad]);
    AdmissibleAppend(x2, PointPair(9, 1), [TestBad]);
    AdmissibleAppend(x3, PointPair(9, 2), [TestBad]);
    AdmissibleAppend(x4, PointPair(9, 3), [TestBad]);
  }

  /** Without constraints the test grid has 12 points. */
  lemma TestGridSize()
    ensures |Grid([TestGrid])| == 12
  {
    TestGridPoints();
  }

  /** Without constraints the test grid has a point with `a == 8` and `b == 3`
      (namely the one with `c == 5`). */
  lemma TestGridHasBadPoint()
    ensures Point(8, 3, 5) in Grid([TestGrid])
  {
    var p := Point(8, 3, 5);
    assert KeySet(TestGrid) == {"a", "b", "c"} by {
      assert TestGrid[0].0 == "a" && TestGrid[1].0 == "b" && TestGrid[2].0 == "c";
    }
    assert IsPointOf(p, TestGrid);
    GridMembership([TestGrid], p);
  }

  /** With the bad combination `{'a': 8, 'b': 3}`, 10 of the 12 points remain. */
  lemma TestGridConstrainedSize()
    ensures |Admissible(Grid([TestGrid]), [TestBad])| == 10
  {
    TestGridPoints();
    TestPointsScreened();
  }

  lemma SurvivorOfOneDict<V>(g: SubGrid<V>, badComb: seq<Assignment<V>>, a: Assignment<V>)
    requires DistinctKeys(g)
    requires a in Admissible(Grid([g]), badComb)
    ensures a.Keys == KeySet(g) && !IsBad(a, badComb)
  {
    var grids := [g];
    AdmissibleMembership(Grid(grids), badComb, a);
    GridMembership(grids, a);
    assert IsPointOf(a, grids[0]);
  }

  lemma NotTestBad(a: Assignment<int>)
    requires "a" in a && "b" in a
    requires !IsBad(a, [TestBad])
    ensures !(a["a"] == 8 && a["b"] == 3)
  {
    var bad := [TestBad];
    assert bad[0] == TestBad;
  }

  /** In any one-dict grid over `a` and `b` (the test grid among them), every
      point that survives the bad combination `{'a': 8, 'b': 3}` binds `a` and
      `b`, and not to 8 and 3 together. */
  lemma TestGridExcludesBad(g: SubGrid<int>, a: Assignment<int>)
    requires DistinctKeys(g) && "a" in KeySet(g) && "b" in KeySet(g)
    requires a in Admissible(Grid([g]), [TestBad])
    ensures "a" in a && "b" in a && !(a["a"] == 8 && a["b"] == 3)
  {
    SurvivorOfOneDict(g, [TestBad], a);
    NotTestBad(a);
  }

  /** Python values of the kinds the grids of the tests hold: integers, and
      lists of values. */
  datatype PyValue = PyInt(i: int) | PyList(items: seq<PyValue>)

  /** The test grid over Python values. */
  const ValueGrid: SubGrid<PyValue> :=
    [("a", [PyInt(8), PyInt(9)]), ("b", [PyInt(1), PyInt(2), PyInt(3)]), ("c", [PyInt(5), PyInt(6)])]

  /** `{'a': [8], 'b': [3]}`: the bad combination written with list values. */
  const ListValuedBad: Assignment<PyValue> := map["a" := PyList([PyInt(8)]), "b" := PyList([PyInt(3)])]

  /** Written with one-element lists, the test's bad combination excludes
      nothing: the list `[8]` is compared with `==` to the integer values of
      `a` and never equals one. */
  lemma ListValuedCombinationExcludesNothing()
    ensures Admissible(Grid([ValueGrid]), [ListValuedBad]) == Grid([ValueGrid])
  {
    var grids: seq<SubGrid<PyValue>> := [ValueGrid];
    var bad: seq<Assignment<PyValue>> := [ListValuedBad];
    assert DistinctKeys(ValueGrid) by {
      assert ValueGrid[0].0 == "a" && ValueGrid[1].0 == "b" && ValueGrid[2].0 == "c";
    }
    forall g, i | 0 <= g < |grids| && 0 <= i < |grids[g]| && grids[g][i].0 == "a"
      ensures bad[0]["a"] !in grids[g][i].1
    {
      assert grids[g] == ValueGrid;
      assert i == 0;
    }
    assert "a" in bad[0];
    UnofferedValueNeverExcludes(grids, bad);
  }
}
