/** The column-dropping step of the two classifier wrappers of
    skutil/estimators/col_ignore_clf.py. The wrapped estimator itself
    (`fit`, `predict`, `predict_proba`) is outside the model. */
module ColIgnoreClf {
  import opened Wrappers

  // ---------------------------------------------------------------------------
  // ColumnIgnoringClassifier: drop columns by index

  /** All rows have the length of the first. */
  predicate Rectangular<T>(X: seq<seq<T>>) {
    forall i :: 0 <= i < |X| ==> |X[i]| == |X[0]|
  }

  /** The in-range entries of `colIgnore`: the columns it actually removes. */
  function IgnoredInRange(ncols: nat, colIgnore: seq<int>): set<nat> {
    set i: nat | i < ncols && i in colIgnore
  }

  /** `[i for i in range(ncols) if i not in col_ignore]` */
  function KeptColumns(ncols: nat, colIgnore: seq<int>): (keep: seq<nat>)
    ensures forall j :: 0 <= j < |keep| ==> keep[j] < ncols
    ensures forall j, k :: 0 <= j < k < |keep| ==> keep[j] < keep[k]
    ensures forall i :: i in keep <==> 0 <= i < ncols && i !in colIgnore
  {
    if ncols == 0 then []
    else KeptColumns(ncols - 1, colIgnore) + (if ncols - 1 in colIgnore then [] else [ncols - 1])
  }

  /** The number of kept columns is `ncols` minus the in-range ignored indices. */
  lemma {:induction false} KeptColumnsCount(ncols: nat, colIgnore: seq<int>)
    ensures |KeptColumns(ncols, colIgnore)| == ncols - |IgnoredInRange(ncols, colIgnore)|
  {
    if ncols == 0 {
      assert IgnoredInRange(ncols, colIgnore) == {};
    } else {
      var n := ncols - 1;
      KeptColumnsCount(n, colIgnore);
      IgnoredInRangeStep(ncols, colIgnore);
      assert |KeptColumns(ncols, colIgnore)| == |KeptColumns(n, colIgnore)| + (if n in colIgnore then 0 else 1);
    }
  }

  /** Widening the range by one column adds that column to the ignored set
      exactly when it is listed. */
  lemma IgnoredInRangeStep(ncols: nat, colIgnore: seq<int>)
    requires ncols > 0
    ensures ncols - 1 !in IgnoredInRange(ncols - 1, colIgnore)
    ensures IgnoredInRange(ncols, colIgnore)
      == IgnoredInRange(ncols - 1, colIgnore) + (if ncols - 1 in colIgnore then {ncols - 1} else {})
  {
  }

  /** Only the in-range entries of `colIgnore` matter: negative or too-large
      indices are never produced by `range(ncols)`. */
  lemma {:induction false} KeptColumnsIgnoresOutOfRange(ncols: nat, colIgnore: seq<int>, other: seq<int>)
    requires forall i :: 0 <= i < ncols ==> (i in colIgnore <==> i in other)
    ensures KeptColumns(ncols, colIgnore) == KeptColumns(ncols, other)
  {
    if ncols > 0 {
      KeptColumnsIgnoresOutOfRange(ncols - 1, colIgnore, other);
    }
  }

  /** `row[keep]` */
  function SelectColumns<T>(row: seq<T>, keep: seq<nat>): seq<T>
    requires forall j :: 0 <= j < |keep| ==> keep[j] < |row|
  {
    seq(|keep|, j requires 0 <= j < |keep| => row[keep[j]])
  }

  /** Reference definition: `row` with every position listed in `colIgnore`
      removed and the rest kept in order. */
  function Without<T>(row: seq<T>, colIgnore: seq<int>): seq<T> {
    if |row| == 0 then []
    else
      var n := |row| - 1;
      Without(row[..n], colIgnore) + (if n in colIgnore then [] else [row[n]])
  }

  /** Selecting the kept columns is removing the ignored positions. */
  lemma {:induction false} SelectKeptIsWithout<T>(row: seq<T>, colIgnore: seq<int>)
    ensures SelectColumns(row, KeptColumns(|row|, colIgnore)) == Without(row, colIgnore)
  {
    if |row| > 0 {
      var n := |row| - 1;
      SelectKeptIsWithout(row[..n], colIgnore);
      var keep := KeptColumns(n, colIgnore);
      assert SelectColumns(row, keep) == SelectColumns(row[..n], keep);
    }
  }

  /** `ColumnIgnoringClassifier._transform_X`: `np.array(X)[:, col_keep]`.
      `X.shape[1]` fails on an empty input, and `np.array` refuses rows of
      different lengths. */
  function TransformX<T>(X: seq<seq<T>>, colIgnore: seq<int>): (r: Result<seq<seq<T>>>)
    ensures r.Ok? <==> |X| > 0 && Rectangular(X)
    ensures |X| == 0 ==> r == Err(IndexError)
    ensures |X| > 0 && !Rectangular(X) ==> r == Err(ValueError)
    ensures r.Ok? ==> |r.value| == |X|
    ensures r.Ok? ==> forall i :: 0 <= i < |X| ==> r.value[i] == Without(X[i], colIgnore)
  {
    if |X| == 0 then Err(IndexError)
    else if !Rectangular(X) then Err(ValueError)
    else
      var keep := KeptColumns(|X[0]|, colIgnore);
      assert forall i :: 0 <= i < |X| ==> SelectColumns(X[i], keep) == Without(X[i], colIgnore) by {
        forall i | 0 <= i < |X| ensures SelectColumns(X[i], keep) == Without(X[i], colIgnore) {
          SelectKeptIsWithout(X[i], colIgnore);
        }
      }
      Ok(seq(|X|, i requires 0 <= i < |X| => SelectColumns(X[i], keep)))
  }

  /** The output keeps the row count and has `ncols` minus the in-range
      ignored indices columns, each row being the input row read at the kept
      indices in ascending order. */
  lemma TransformXShape<T>(X: seq<seq<T>>, colIgnore: seq<int>)
    requires |X| > 0 && Rectangular(X)
    ensures TransformX(X, colIgnore).Ok?
    ensures var out := TransformX(X, colIgnore).value;
      var keep := KeptColumns(|X[0]|, colIgnore);
      && |out| == |X|
      && (forall i :: 0 <= i < |out| ==> |out[i]| == |X[0]| - |IgnoredInRange(|X[0]|, colIgnore)|)
      && (forall i, j :: 0 <= i < |out| && 0 <= j < |keep| ==> out[i][j] == X[i][keep[j]])
  {
    var keep := KeptColumns(|X[0]|, colIgnore);
    KeptColumnsCount(|X[0]|, colIgnore);
    forall i | 0 <= i < |X| ensures Without(X[i], colIgnore) == SelectColumns(X[i], keep) {
      SelectKeptIsWithout(X[i], colIgnore);
    }
  }

  /** With nothing to ignore, the transform gives the input back. */
  lemma {:induction false} WithoutNothing<T>(row: seq<T>)
    ensures Without(row, []) == row
  {
    if |row| > 0 {
      WithoutNothing(row[..|row| - 1]);
      assert row == row[..|row| - 1] + [row[|row| - 1]];
    }
  }

  lemma EmptyIgnoreIsIdentity<T>(X: seq<seq<T>>)
    requires |X| > 0 && Rectangular(X)
    ensures TransformX(X, []) == Ok(X)
  {
    forall i | 0 <= i < |X| ensures Without(X[i], []) == X[i] {
      WithoutNothing(X[i]);
    }
    assert TransformX(X, []).value == X;
  }

  /** The wrapper of the source: `fit` returns the wrapper itself once the
      transformed input has been handed on. */
  class ColumnIgnoringClassifier<T> {
    const colIgnore: seq<int>

    constructor (colIgnore: seq<int>)
      ensures this.colIgnore == colIgnore
    {
      this.colIgnore := colIgnore;
    }

    /** `fit`: transform `X` (raising as the transform does) and return `self`. */
    method Fit(X: seq<seq<T>>) returns (r: Result<ColumnIgnoringClassifier<T>>)
      ensures r.Ok? <==> TransformX(X, colIgnore).Ok?
      ensures r.Ok? ==> r.value == this
    {
      var inner := TransformX(X, colIgnore);
      if inner.Err? {
        return Err(inner.error);
      }
      return Ok(this);
    }
  }

  // ---------------------------------------------------------------------------
  // ObjColIgnoringClassifier: drop object-typed DataFrame columns, chosen once

  /** The pandas dtypes the model distinguishes; only `object` matters. */
  datatype DType = Object | Int64 | Float64 | Bool | OtherDType(name: string)

  datatype Column<T> = Column(name: string, dtype: DType, values: seq<T>)

  /** A DataFrame, as its columns in order. */
  type Frame<T> = seq<Column<T>>

  function ColumnNames<T>(X: Frame<T>): set<string> {
    set i | 0 <= i < |X| :: X[i].name
  }

  /** `[col_name for col_name, dtype in X.dtypes.items() if dtype == object]` */
  function ObjectColumns<T>(X: Frame<T>): (names: seq<string>)
    ensures forall n :: n in names ==> exists i :: 0 <= i < |X| && X[i].dtype == Object && X[i].name == n
    ensures forall i :: 0 <= i < |X| && X[i].dtype == Object ==> X[i].name in names
  {
    if |X| == 0 then []
    else
      var n := |X| - 1;
      var init := ObjectColumns(X[..n]);
      assert forall i :: 0 <= i < n ==> X[..n][i] == X[i];
      init + (if X[n].dtype == Object then [X[n].name] else [])
  }

  /** `X.drop(labels, axis=1)`: every column whose name is listed goes; a
      listed name that is not a column raises `KeyError`. */
  function Drop<T>(X: Frame<T>, labels: seq<string>): (r: Result<Frame<T>>)
    ensures r.Ok? <==> forall l :: l in labels ==> l in ColumnNames(X)
    ensures r.Err? ==> r.error.KeyError? && r.error.key in labels && r.error.key !in ColumnNames(X)
    ensures r.Ok? ==> forall i :: 0 <= i < |r.value| ==> r.value[i] in X && r.value[i].name !in labels
    ensures r.Ok? ==> forall i :: 0 <= i < |X| && X[i].name !in labels ==> X[i] in r.value
  {
    var missing := Missing(labels, ColumnNames(X));
    if |missing| > 0 then
      assert missing[0] in missing;
      Err(KeyError(missing[0]))
    else Ok(Keep(X, labels))
  }

  /** The entries of `labels` that are not in `names`, in order. */
  function Missing(labels: seq<string>, names: set<string>): (r: seq<string>)
    ensures forall l :: l in r <==> l in labels && l !in names
  {
    if |labels| == 0 then []
    else (if labels[0] in names then [] else [labels[0]]) + Missing(labels[1..], names)
  }

  /** The columns of `X` not named in `labels`, in order. */
  function Keep<T>(X: Frame<T>, labels: seq<string>): (r: Frame<T>)
    ensures forall i :: 0 <= i < |r| ==> r[i] in X && r[i].name !in labels
    ensures forall i :: 0 <= i < |X| && X[i].name !in labels ==> X[i] in r
  {
    if |X| == 0 then []
    else
      var n := |X| - 1;
      assert X == X[..n] + [X[n]];
      Keep(X[..n], labels) + (if X[n].name in labels then [] else [X[n]])
  }

  /** Dropping by label is dropping by position: given any list `named` of
      exactly the positions whose labels are listed, the kept columns are the
      frame without those positions, in their original order. */
  lemma {:induction false} KeepIsWithout<T>(X: Frame<T>, labels: seq<string>, named: seq<int>)
    requires forall i :: 0 <= i < |X| ==> (i in named <==> X[i].name in labels)
    ensures Keep(X, labels) == Without(X, named)
  {
    if |X| > 0 {
      var n := |X| - 1;
      var init := X[..n];
      assert forall i :: 0 <= i < n ==> init[i] == X[i];
      KeepIsWithout(init, labels, named);
      assert n in named <==> X[n].name in labels;
      assert Keep(X, labels) == Keep(init, labels) + (if X[n].name in labels then [] else [X[n]]);
      assert Without(X, named) == Without(init, named) + (if n in named then [] else [X[n]]);
    }
  }

  /** A successful drop keeps the surviving columns in their original order:
      it reads the frame at the ascending positions whose labels are not
      listed, as the index-based wrapper reads a row. */
  lemma DropKeepsOrder<T>(X: Frame<T>, labels: seq<string>, named: seq<int>)
    requires forall i :: 0 <= i < |X| ==> (i in named <==> X[i].name in labels)
    ensures Drop(X, labels).Ok? ==> Drop(X, labels).value == Without(X, named)
    ensures Drop(X, labels).Ok? ==> Drop(X, labels).value == SelectColumns(X, KeptColumns(|X|, named))
  {
    KeepIsWithout(X, labels, named);
    SelectKeptIsWithout(X, named);
  }

  /** The object columns are named in column order, once each: the choice
      over a frame split in two is the choice over the first part followed by
      the choice over the second, and a single column contributes its own name
      exactly when it is of dtype `object`. */
  lemma ObjectColumnsInOrder<T>(X: Frame<T>, Y: Frame<T>)
    ensures ObjectColumns(X + Y) == ObjectColumns(X) + ObjectColumns(Y)
    ensures |X| == 1 ==> ObjectColumns(X) == if X[0].dtype == Object then [X[0].name] else []
  {
    ObjectColumnsAppend(X, Y);
    if |X| == 1 {
      ObjectColumnsSnoc([], X[0]);
      assert [] + [X[0]] == X;
    }
  }

  /** The choice over a concatenation, by induction on the second part. */
  lemma {:induction false} ObjectColumnsAppend<T>(X: Frame<T>, Y: Frame<T>)
    ensures ObjectColumns(X + Y) == ObjectColumns(X) + ObjectColumns(Y)
  {
    if |Y| == 0 {
      assert X + Y == X;
    } else {
      var n := |Y| - 1;
      var init := Y[..n];
      var c := Y[n];
      assert Y == init + [c];
      assert X + Y == (X + init) + [c];
      ObjectColumnsAppend(X, init);
      ObjectColumnsSnoc(X + init, c);
      ObjectColumnsSnoc(init, c);
    }
  }

  /** Appending one column appends its name when it is of dtype `object`. */
  lemma ObjectColumnsSnoc<T>(X: Frame<T>, c: Column<T>)
    ensures ObjectColumns(X + [c]) == ObjectColumns(X) + if c.dtype == Object then [c.name] else []
  {
    assert (X + [c])[..|X|] == X;
  }

  /** The state `col_to_drop` after one `_transform_X` call, and what it returns. */
  datatype Step<T> = Step(colToDrop: Option<seq<string>>, out: Result<Frame<T>>)

  /** One `ObjColIgnoringClassifier._transform_X` call from state `colToDrop`:
      the object columns are chosen on the first call only. */
  function TransformStep<T>(colToDrop: Option<seq<string>>, X: Frame<T>): (s: Step<T>)
    ensures s.colToDrop.Some?
    ensures colToDrop.Some? ==> s.colToDrop == colToDrop
    ensures s.out == Drop(X, s.colToDrop.value)
  {
    var chosen := if colToDrop.None? then ObjectColumns(X) else colToDrop.value;
    Step(Some(chosen), Drop(X, chosen))
  }

  /** A run of `_transform_X` calls on `frames`, starting from `colToDrop`:
      the final state and each call's result. */
  function Run<T>(colToDrop: Option<seq<string>>, frames: seq<Frame<T>>): (Option<seq<string>>, seq<Result<Frame<T>>>)
    decreases |frames|
  {
    if |frames| == 0 then (colToDrop, [])
    else
      var s := TransformStep(colToDrop, frames[0]);
      var rest := Run(s.colToDrop, frames[1..]);
      (rest.0, [s.out] + rest.1)
  }

  /** Compute-once: from a fresh wrapper, every call drops the object columns
      of the FIRST frame, whatever the later frames' own dtypes, and the state
      ends holding exactly those names. */
  lemma {:induction false} ChosenOnFirstUse<T>(frames: seq<Frame<T>>)
    requires |frames| > 0
    ensures Run(None, frames).0 == Some(ObjectColumns(frames[0]))
    ensures |Run(None, frames).1| == |frames|
    ensures forall k :: 0 <= k < |frames| ==>
      Run(None, frames).1[k] == Drop(frames[k], ObjectColumns(frames[0]))
  {
    var chosen := ObjectColumns(frames[0]);
    var first := TransformStep(None, frames[0]);
    assert first.colToDrop == Some(chosen);
    var rest := Run(Some(chosen), frames[1..]);
    KeptOnceSet(chosen, frames[1..]);
    var out := Run(None, frames).1;
    assert out == [first.out] + rest.1;
    forall k | 0 < k < |frames| ensures out[k] == Drop(frames[k], chosen) {
      assert out[k] == rest.1[k - 1];
      assert frames[1..][k - 1] == frames[k];
    }
  }

  /** Once `col_to_drop` is set, no call changes it and every call drops it. */
  lemma {:induction false} KeptOnceSet<T>(chosen: seq<string>, frames: seq<Frame<T>>)
    ensures Run(Some(chosen), frames).0 == Some(chosen)
    ensures |Run(Some(chosen), frames).1| == |frames|
    ensures forall k :: 0 <= k < |frames| ==> Run(Some(chosen), frames).1[k] == Drop(frames[k], chosen)
  {
    if |frames| > 0 {
      var first := TransformStep(Some(chosen), frames[0]);
      assert first.colToDrop == Some(chosen);
      var rest := Run(Some(chosen), frames[1..]);
      KeptOnceSet(chosen, frames[1..]);
      var out := Run(Some(chosen), frames).1;
      assert out == [first.out] + rest.1;
      forall k | 0 < k < |frames| ensures out[k] == Drop(frames[k], chosen) {
        assert out[k] == rest.1[k - 1];
        assert frames[1..][k - 1] == frames[k];
      }
    }
  }

  /** The first call cannot fail: the names it drops come from the frame
      itself, and what is left has no object column. */
  lemma FirstUseDropsAllObjectColumns<T>(X: Frame<T>)
    ensures TransformStep(None, X).out.Ok?
    ensures var kept := TransformStep(None, X).out.value;
      forall i :: 0 <= i < |kept| ==> kept[i] in X && kept[i].dtype != Object
  {
  }

  /** The wrapper of the source, holding `col_to_drop` as mutable state. */
  class ObjColIgnoringClassifier<T> {
    var colToDrop: Option<seq<string>>

    constructor ()
      ensures colToDrop.None?
    {
      colToDrop := None;
    }

    /** `_transform_X`: fix `col_to_drop` on first use, then drop it. */
    method TransformX(X: Frame<T>) returns (r: Result<Frame<T>>)
      modifies this
      ensures colToDrop == TransformStep(old(colToDrop), X).colToDrop
      ensures r == TransformStep(old(colToDrop), X).out
    {
      if colToDrop.None? {
        colToDrop := Some(ObjectColumns(X));
      }
      r := Drop(X, colToDrop.value);
    }

    /** `fit`: transform `X` (raising as the transform does) and return `self`. */
    method Fit(X: Frame<T>) returns (r: Result<ObjColIgnoringClassifier<T>>)
      modifies this
      ensures colToDrop == TransformStep(old(colToDrop), X).colToDrop
      ensures r.Ok? <==> TransformStep(old(colToDrop), X).out.Ok?
      ensures r.Ok? ==> r.value == this
    {
      var inner := TransformX(X);
      if inner.Err? {
        return Err(inner.error);
      }
      return Ok(this);
    }
  }
}
