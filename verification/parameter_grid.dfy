/** The unconstrained enumeration a constrained grid filters: a stand-in for
    scikit-learn's `ParameterGrid.__iter__`, which is not part of this model's
    source. Its observable order is the one the constrained grid's docstring
    shows: sub-grids in the order given, the keys of one sub-grid in sorted
    order, the last key varying fastest, and an empty dict giving one empty
    assignment. */
module ParameterGrid {
  import PyStr

  /** One dict of the grid, as its items in insertion order. */
  type SubGrid<V> = seq<(string, seq<V>)>

  /** One point of the grid: every parameter of a sub-grid bound to one value. */
  type Assignment<V> = map<string, V>

  /** The invariant every Python dict has: no key appears twice. */
  predicate DistinctKeys<V>(g: SubGrid<V>) {
    forall i, j :: 0 <= i < j < |g| ==> g[i].0 != g[j].0
  }

  predicate AllDistinctKeys<V>(grids: seq<SubGrid<V>>) {
    forall i :: 0 <= i < |grids| ==> DistinctKeys(grids[i])
  }

  predicate SortedByKey<V>(g: SubGrid<V>) {
    forall i, j :: 0 <= i < j < |g| ==> PyStr.Less(g[i].0, g[j].0)
  }

  function KeySet<V>(g: SubGrid<V>): set<string> {
    set i | 0 <= i < |g| :: g[i].0
  }

  /** Number of points of one sub-grid: the product of its value-list lengths. */
  function Cardinality<V>(g: SubGrid<V>): nat {
    if |g| == 0 then 1 else |g[0].1| * Cardinality(g[1..])
  }

  /** `a` is a point of sub-grid `g`: exactly its keys, each bound to one of its values. */
  predicate IsPointOf<V(==)>(a: Assignment<V>, g: SubGrid<V>) {
    && a.Keys == KeySet(g)
    && forall i :: 0 <= i < |g| ==> a[g[i].0] in g[i].1
  }

  // ---------------------------------------------------------------------------
  // sorted(p.items()): insertion sort on keys

  lemma KeySetCons<V>(x: (string, seq<V>), s: SubGrid<V>)
    ensures KeySet([x] + s) == {x.0} + KeySet(s)
  {
    var xs := [x] + s;
    assert xs[0].0 == x.0;
    forall k | k in KeySet(xs) ensures k in {x.0} + KeySet(s) {
      var i :| 0 <= i < |xs| && xs[i].0 == k;
      if i > 0 { assert s[i - 1].0 == k; }
    }
    forall k | k in KeySet(s) ensures k in KeySet(xs) {
      var i :| 0 <= i < |s| && s[i].0 == k;
      assert xs[i + 1].0 == k;
    }
  }

  /** An item whose key is below every key of a sorted list can go in front. */
  lemma SortedCons<V>(x: (string, seq<V>), s: SubGrid<V>)
    requires SortedByKey(s)
    requires forall n :: n in KeySet(s) ==> PyStr.Less(x.0, n)
    ensures SortedByKey([x] + s)
  {
    var r := [x] + s;
    forall i, j | 0 <= i < j < |r| ensures PyStr.Less(r[i].0, r[j].0) {
      assert r[j] == s[j - 1];
      if i == 0 {
        assert r[j].0 in KeySet(s);
      } else {
        assert r[i] == s[i - 1];
      }
    }
  }

  /** A key below the first key of a sorted list is below all of them. */
  lemma BelowHead<V>(k: string, s: SubGrid<V>)
    requires SortedByKey(s) && |s| > 0
    requires PyStr.Less(k, s[0].0)
    ensures forall n :: n in KeySet(s) ==> PyStr.Less(k, n)
  {
    forall n | n in KeySet(s) ensures PyStr.Less(k, n) {
      var i :| 0 <= i < |s| && s[i].0 == n;
      if i > 0 {
        PyStr.LessTransitive(k, s[0].0, n);
      }
    }
  }

  /** The first key of a sorted list is below the keys after it. */
  lemma HeadBelowTail<V>(s: SubGrid<V>)
    requires SortedByKey(s) && |s| > 0
    ensures SortedByKey(s[1..])
    ensures forall n :: n in KeySet(s[1..]) ==> PyStr.Less(s[0].0, n)
  {
    forall n | n in KeySet(s[1..]) ensures PyStr.Less(s[0].0, n) {
      var i :| 0 <= i < |s[1..]| && s[1..][i].0 == n;
      assert s[i + 1].0 == n;
    }
  }

  /** One step of the insertion sort: `x` placed before the first larger key. */
  function Insert<V>(x: (string, seq<V>), s: SubGrid<V>): (r: SubGrid<V>)
    requires SortedByKey(s)
    requires x.0 !in KeySet(s)
    ensures SortedByKey(r)
    ensures |r| == |s| + 1
    ensures x in r
    ensures forall i :: 0 <= i < |s| ==> s[i] in r
    ensures forall i :: 0 <= i < |r| ==> r[i] == x || r[i] in s
    ensures KeySet(r) == KeySet(s) + {x.0}
  {
    if |s| == 0 then
      KeySetCons(x, s);
      SortedCons(x, s);
      [x]
    else
      assert s == [s[0]] + s[1..];
      KeySetCons(s[0], s[1..]);
      if PyStr.Less(x.0, s[0].0) then
        BelowHead(x.0, s);
        KeySetCons(x, s);
        SortedCons(x, s);
        [x] + s
      else
        PyStr.LessTotal(x.0, s[0].0);
        HeadBelowTail(s);
        var t := Insert(x, s[1..]);
        KeySetCons(s[0], t);
        SortedCons(s[0], t);
        [s[0]] + t
  }

  /** `sorted(p.items())` for a dict whose keys are distinct. */
  function SortItems<V>(g: SubGrid<V>): (r: SubGrid<V>)
    requires DistinctKeys(g)
    ensures SortedByKey(r)
    ensures |r| == |g|
    ensures forall i :: 0 <= i < |g| ==> g[i] in r
    ensures forall i :: 0 <= i < |r| ==> r[i] in g
    ensures KeySet(r) == KeySet(g)
  {
    if |g| == 0 then []
    else
      assert g == [g[0]] + g[1..];
      KeySetCons(g[0], g[1..]);
      assert DistinctKeys(g[1..]);
      var t := SortItems(g[1..]);
      assert g[0].0 !in KeySet(g[1..]);
      var r := Insert(g[0], t);
      SameItemsCons(g, t, r);
      r
  }

  /** Placing the head of `g` among the sorted items of its tail keeps the
      items of `g`, and only those. */
  lemma SameItemsCons<V>(g: SubGrid<V>, t: SubGrid<V>, r: SubGrid<V>)
    requires |g| > 0
    requires forall i :: 1 <= i < |g| ==> g[i] in t
    requires forall i :: 0 <= i < |t| ==> t[i] in g[1..]
    requires g[0] in r && forall i :: 0 <= i < |t| ==> t[i] in r
    requires forall i :: 0 <= i < |r| ==> r[i] == g[0] || r[i] in t
    ensures forall i :: 0 <= i < |g| ==> g[i] in r
    ensures forall i :: 0 <= i < |r| ==> r[i] in g
  {
    forall i | 0 <= i < |g| ensures g[i] in r {
      if i > 0 {
        var k :| 0 <= k < |t| && t[k] == g[i];
      }
    }
    forall i | 0 <= i < |r| ensures r[i] in g {
      if r[i] != g[0] {
        var k :| 0 <= k < |t| && t[k] == r[i];
        assert r[i] in g[1..];
        var m :| 0 <= m < |g[1..]| && g[1..][m] == r[i];
        assert g[m + 1] == r[i];
      }
    }
  }

  lemma {:induction false} SortedDistinct<V>(g: SubGrid<V>)
    requires SortedByKey(g)
    ensures DistinctKeys(g)
  {
    forall i, j | 0 <= i < j < |g| ensures g[i].0 != g[j].0 {
      if g[i].0 == g[j].0 { PyStr.LessIrreflexive(g[i].0); }
    }
  }

  lemma MulSwap(a: int, b: int, c: int)
    ensures a * (b * c) == b * (a * c)
  {
  }

  lemma MulBound(q: nat, n: nat, m: nat, j: nat)
    requires q < n && j < m
    ensures q * m + j < n * m
  {
    assert q * m + j < (q + 1) * m;
    assert (q + 1) * m <= n * m;
  }

  lemma {:induction false} CardinalityInsert<V>(x: (string, seq<V>), s: SubGrid<V>)
    requires SortedByKey(s)
    requires x.0 !in KeySet(s)
    ensures Cardinality(Insert(x, s)) == |x.1| * Cardinality(s)
    decreases |s|
  {
    if |s| > 0 && !PyStr.Less(x.0, s[0].0) {
      KeySetCons(s[0], s[1..]);
      assert s == [s[0]] + s[1..];
      CardinalityInsert(x, s[1..]);
      var t := Insert(x, s[1..]);
      assert ([s[0]] + t)[1..] == t;
      assert Cardinality(Insert(x, s)) == |s[0].1| * Cardinality(t);
      MulSwap(|s[0].1|, |x.1|, Cardinality(s[1..]));
    }
  }

  /** Sorting the items does not change the number of points. */
  lemma {:induction false} CardinalitySortItems<V>(g: SubGrid<V>)
    requires DistinctKeys(g)
    ensures Cardinality(SortItems(g)) == Cardinality(g)
  {
    if |g| > 0 {
      assert g == [g[0]] + g[1..];
      KeySetCons(g[0], g[1..]);
      assert DistinctKeys(g[1..]);
      CardinalitySortItems(g[1..]);
      CardinalityInsert(g[0], SortItems(g[1..]));
    }
  }

  /** Points carry over between two item lists with the same keys when every
      item of the second is an item of the first. */
  lemma PointOfSameItems<V>(a: Assignment<V>, g: SubGrid<V>, r: SubGrid<V>)
    requires KeySet(r) == KeySet(g)
    requires forall i :: 0 <= i < |r| ==> r[i] in g
    requires IsPointOf(a, g)
    ensures IsPointOf(a, r)
  {
    forall i | 0 <= i < |r| ensures a[r[i].0] in r[i].1 {
      var j :| 0 <= j < |g| && g[j] == r[i];
    }
  }

  /** Sorting the items does not change which assignments are points of the dict. */
  lemma PointOfSortItems<V>(a: Assignment<V>, g: SubGrid<V>)
    requires DistinctKeys(g)
    ensures IsPointOf(a, SortItems(g)) <==> IsPointOf(a, g)
  {
    var r := SortItems(g);
    if IsPointOf(a, g) {
      PointOfSameItems(a, g, r);
    }
    if IsPointOf(a, r) {
      PointOfSameItems(a, r, g);
    }
  }

  // ---------------------------------------------------------------------------
  // itertools.product over the sorted items

  /** Every assignment of `rest` with `k` bound to `v`. */
  function Bind<V>(k: string, v: V, rest: seq<Assignment<V>>): seq<Assignment<V>> {
    seq(|rest|, i requires 0 <= i < |rest| => rest[i][k := v])
  }

  /** One odometer wheel: the values of `k` in order, each followed by all of `rest`. */
  function Extend<V>(k: string, vs: seq<V>, rest: seq<Assignment<V>>): (r: seq<Assignment<V>>)
    ensures |r| == |vs| * |rest|
  {
    if |vs| == 0 then []
    else
      var t := Extend(k, vs[1..], rest);
      assert |vs| * |rest| == |rest| + (|vs| - 1) * |rest|;
      Bind(k, vs[0], rest) + t
  }

  lemma {:induction false} ExtendAt<V>(k: string, vs: seq<V>, rest: seq<Assignment<V>>, q: nat, j: nat)
    requires q < |vs| && j < |rest|
    ensures q * |rest| + j < |Extend(k, vs, rest)|
    ensures Extend(k, vs, rest)[q * |rest| + j] == rest[j][k := vs[q]]
  {
    MulBound(q, |vs|, |rest|, j);
    if q > 0 {
      ExtendAt(k, vs[1..], rest, q - 1, j);
      assert q * |rest| + j == |rest| + ((q - 1) * |rest| + j) by {
        assert q * |rest| == |rest| + (q - 1) * |rest|;
      }
    }
  }

  lemma {:induction false} ExtendMember<V>(k: string, vs: seq<V>, rest: seq<Assignment<V>>, a: Assignment<V>)
    ensures a in Extend(k, vs, rest) <==>
      exists q, j :: 0 <= q < |vs| && 0 <= j < |rest| && a == rest[j][k := vs[q]]
  {
    if |vs| > 0 {
      ExtendMember(k, vs[1..], rest, a);
      if a in Extend(k, vs, rest) {
        if a in Bind(k, vs[0], rest) {
          var j :| 0 <= j < |rest| && Bind(k, vs[0], rest)[j] == a;
          assert a == rest[j][k := vs[0]];
        } else {
          var q, j :| 0 <= q < |vs[1..]| && 0 <= j < |rest| && a == rest[j][k := vs[1..][q]];
          assert a == rest[j][k := vs[q + 1]];
        }
      }
      if exists q, j :: 0 <= q < |vs| && 0 <= j < |rest| && a == rest[j][k := vs[q]] {
        var q, j :| 0 <= q < |vs| && 0 <= j < |rest| && a == rest[j][k := vs[q]];
        if q == 0 {
          assert a == Bind(k, vs[0], rest)[j];
        } else {
          assert a == rest[j][k := vs[1..][q - 1]];
        }
      }
    }
  }

  /** `itertools.product` over already-sorted items, as dicts; no items gives one empty dict. */
  function Product<V>(g: SubGrid<V>): (r: seq<Assignment<V>>)
    ensures |r| == Cardinality(g)
  {
    if |g| == 0 then [map[]] else Extend(g[0].0, g[0].1, Product(g[1..]))
  }

  /** Odometer order: the first key is the slowest wheel, so the key sorted last varies fastest. */
  lemma ProductOdometer<V>(g: SubGrid<V>, q: nat, j: nat)
    requires |g| > 0 && q < |g[0].1| && j < |Product(g[1..])|
    ensures q * |Product(g[1..])| + j < |Product(g)|
    ensures Product(g)[q * |Product(g[1..])| + j] == Product(g[1..])[j][g[0].0 := g[0].1[q]]
  {
    ExtendAt(g[0].0, g[0].1, Product(g[1..]), q, j);
  }

  /** Every assignment the product yields is a point of the dict. */
  lemma {:induction false} ProductSound<V>(g: SubGrid<V>, a: Assignment<V>)
    requires DistinctKeys(g)
    requires a in Product(g)
    ensures IsPointOf(a, g)
  {
    if |g| == 0 {
      assert KeySet(g) == {};
    } else {
      var k, vs, t := g[0].0, g[0].1, g[1..];
      assert g == [g[0]] + t;
      KeySetCons(g[0], t);
      assert DistinctKeys(t);
      var p := Product(t);
      ExtendMember(k, vs, p, a);
      var q, j :| 0 <= q < |vs| && 0 <= j < |p| && a == p[j][k := vs[q]];
      ProductSound(t, p[j]);
      forall i | 0 <= i < |g| ensures a[g[i].0] in g[i].1 {
        if i > 0 { assert g[i] == t[i - 1]; }
      }
    }
  }

  /** Removing the first key of a point of `g` gives a point of the rest of `g`. */
  lemma PointOfTail<V>(g: SubGrid<V>, a: Assignment<V>)
    requires |g| > 0 && DistinctKeys(g)
    requires IsPointOf(a, g)
    ensures DistinctKeys(g[1..])
    ensures IsPointOf(a - {g[0].0}, g[1..])
  {
    var t := g[1..];
    assert g == [g[0]] + t;
    KeySetCons(g[0], t);
    assert g[0].0 !in KeySet(t);
    var b := a - {g[0].0};
    forall i | 0 <= i < |t| ensures b[t[i].0] in t[i].1 {
      assert t[i] == g[i + 1];
    }
  }

  /** Every point of the dict is yielded by the product. */
  lemma {:induction false} ProductComplete<V>(g: SubGrid<V>, a: Assignment<V>)
    requires DistinctKeys(g)
    requires IsPointOf(a, g)
    ensures a in Product(g)
  {
    if |g| == 0 {
      assert KeySet(g) == {};
      assert a == map[];
    } else {
      var k, vs, t := g[0].0, g[0].1, g[1..];
      var b := a - {k};
      PointOfTail(g, a);
      ProductComplete(t, b);
      var p := Product(t);
      var j :| 0 <= j < |p| && p[j] == b;
      assert a[k] in vs;
      var q :| 0 <= q < |vs| && vs[q] == a[k];
      assert a == p[j][k := vs[q]];
      ExtendMember(k, vs, p, a);
    }
  }

  /** The product yields exactly the points of the dict. */
  lemma ProductMembership<V>(g: SubGrid<V>, a: Assignment<V>)
    requires DistinctKeys(g)
    ensures a in Product(g) <==> IsPointOf(a, g)
  {
    if a in Product(g) { ProductSound(g, a); }
    if IsPointOf(a, g) { ProductComplete(g, a); }
  }

  // ---------------------------------------------------------------------------
  // ParameterGrid.__iter__ over a list of dicts

  function TotalCardinality<V>(grids: seq<SubGrid<V>>): nat {
    if |grids| == 0 then 0 else Cardinality(grids[0]) + TotalCardinality(grids[1..])
  }

  /** The unconstrained grid: each dict's points in turn, in the order the dicts are given. */
  function Grid<V>(grids: seq<SubGrid<V>>): (r: seq<Assignment<V>>)
    requires AllDistinctKeys(grids)
    ensures |r| == TotalCardinality(grids)
  {
    if |grids| == 0 then []
    else
      CardinalitySortItems(grids[0]);
      Product(SortItems(grids[0])) + Grid(grids[1..])
  }

  /** The grid yields exactly the assignments that are points of one of its dicts. */
  lemma {:induction false} GridMembership<V>(grids: seq<SubGrid<V>>, a: Assignment<V>)
    requires AllDistinctKeys(grids)
    ensures a in Grid(grids) <==> exists i :: 0 <= i < |grids| && IsPointOf(a, grids[i])
  {
    if |grids| > 0 {
      var g := grids[0];
      SortedDistinct(SortItems(g));
      ProductMembership(SortItems(g), a);
      PointOfSortItems(a, g);
      GridMembership(grids[1..], a);
      if exists i :: 0 <= i < |grids| && IsPointOf(a, grids[i]) {
        var i :| 0 <= i < |grids| && IsPointOf(a, grids[i]);
        if i > 0 { assert grids[1..][i - 1] == grids[i]; }
      }
      if a in Grid(grids[1..]) {
        var i :| 0 <= i < |grids[1..]| && IsPointOf(a, grids[1..][i]);
        assert grids[1..][i] == grids[i + 1];
      }
    }
  }

  /** An empty dict signifies default parameters: one empty assignment. */
  lemma EmptyDictYieldsDefaults<V>()
    ensures Grid<V>([[]]) == [map[]]
  {
    var grids: seq<SubGrid<V>> := [[]];
    assert grids[1..] == [];
  }

  /** A parameter with no values empties its dict's product. */
  lemma EmptyValuesYieldNothing<V>(g: SubGrid<V>, i: nat)
    requires i < |g| && |g[i].1| == 0
    ensures Cardinality(g) == 0
    ensures Product(g) == []
  {
    if i > 0 { EmptyValuesYieldNothing(g[1..], i - 1); }
  }
}
