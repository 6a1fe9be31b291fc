/** The data of the column-ignoring wrappers' tests
    (tests/estimators/test_col_ignore_clf.py), run through the model. The
    index-based test drives `IxColIgnoringClassifier` of the src package,
    which is not part of this model; its rows are put through the older
    `ColumnIgnoringClassifier._transform_X` instead. */
module ColIgnoreClfExamples {
  import opened Wrappers
  import opened ColIgnoreClf

  /** A cell of the tests' tables: a number or a string. */
  datatype Cell = Num(n: int) | Str(s: string)

  /** The training features: `x1`, `x2` (strings) and `x3`, the label column
      already split off. */
  const TrainRows: seq<seq<Cell>> := [[Num(1), Str("asd"), Num(34)], [Num(2), Str("98"), Num(993)]]

  /** The one-row input the fitted wrappers predict on. */
  const TestRows: seq<seq<Cell>> := [[Num(1), Str("233"), Num(30)]]

  /** Ignoring index 1 (the position of `x2`) with the older index-based
      transform leaves the numeric columns of the training rows. */
  lemma IndexWrapperDropsStringColumn()
    ensures TransformX(TrainRows, [1]) == Ok([[Num(1), Num(34)], [Num(2), Num(993)]])
  {
    assert Rectangular(TrainRows);
    WithoutSecond(TrainRows[0]);
    WithoutSecond(TrainRows[1]);
    var r := TransformX(TrainRows, [1]);
    assert r.Ok? && |r.value| == 2;
    assert r.value == [r.value[0], r.value[1]];
  }

  /** Ignoring index 1 of a three-cell row keeps its first and last cells. */
  lemma WithoutSecond<T>(row: seq<T>)
    requires |row| == 3
    ensures Without(row, [1]) == [row[0], row[2]]
  {
    assert row[..2][..1] == row[..1];
    assert row[..1][..0] == [];
    assert Without(row[..1], [1]) == [row[0]];
    assert Without(row[..2], [1]) == [row[0]];
  }

  /** On the prediction input, the same index is dropped: one row of two
      numbers is handed on. */
  lemma IndexWrapperPredictInput()
    ensures TransformX(TestRows, [1]) == Ok([[Num(1), Num(30)]])
  {
    assert Rectangular(TestRows);
    WithoutSecond(TestRows[0]);
    var r := TransformX(TestRows, [1]);
    assert r.Ok? && |r.value| == 1;
    assert r.value == [r.value[0]];
  }

  /** The training DataFrame, `x2` being of dtype `object`. */
  const TrainFrame: Frame<Cell> :=
    [Column("x1", Int64, [Num(1), Num(2)]), Column("x2", Object, [Str("asd"), Str("98")]), Column("x3", Int64, [Num(34), Num(993)])]

  /** The prediction DataFrame, with the same column labels. */
  const TestFrame: Frame<Cell> :=
    [Column("x1", Int64, [Num(1)]), Column("x2", Object, [Str("233")]), Column("x3", Int64, [Num(30)])]

  /** Fitting and then predicting with the object-column wrapper on the
      test's frames: `x2` is chosen at fit time and dropped from both. */
  lemma ObjectWrapperFitThenPredict()
    ensures Run(None, [TrainFrame, TestFrame]).0 == Some(["x2"])
    ensures Run(None, [TrainFrame, TestFrame]).1 == [Ok([TrainFrame[0], TrainFrame[2]]), Ok([TestFrame[0], TestFrame[2]])]
  {
    MiddleObjectColumnFitThenPredict(TrainFrame, TestFrame);
  }

  /** A wrapper fitted on a three-column frame whose only object column is the
      middle one chooses that column's label, and then drops it from the
      fit input and from a prediction frame labelled the same way. */
  lemma MiddleObjectColumnFitThenPredict<T>(train: Frame<T>, test: Frame<T>)
    requires |train| == 3 && |test| == 3
    requires train[1].dtype == Object && train[0].dtype != Object && train[2].dtype != Object
    requires train[0].name != train[1].name && train[2].name != train[1].name
    requires test[1].name == train[1].name
    requires test[0].name != train[1].name && test[2].name != train[1].name
    ensures Run(None, [train, test]).0 == Some([train[1].name])
    ensures Run(None, [train, test]).1 == [Ok([train[0], train[2]]), Ok([test[0], test[2]])]
  {
    assert ObjectColumns(train) == [train[1].name] by {
      assert train[..2][..1] == train[..1];
      assert train[..1][..0] == [];
      assert ObjectColumns(train[..1]) == [];
      assert ObjectColumns(train[..2]) == [train[1].name];
    }
    ChosenOnFirstUse([train, test]);
    DropSecond(train);
    DropSecond(test);
  }

  /** Dropping the label of the middle column of a three-column frame with
      distinct labels. */
  lemma DropSecond<T>(X: Frame<T>)
    requires |X| == 3 && X[0].name != X[1].name && X[2].name != X[1].name
    ensures Drop(X, [X[1].name]) == Ok([X[0], X[2]])
  {
    assert X[1].name in ColumnNames(X);
    var labels := [X[1].name];
    assert Missing(labels[1..], ColumnNames(X)) == [];
    assert Missing(labels, ColumnNames(X)) == [];
    assert X[..2][..1] == X[..1];
    assert X[..1][..0] == [];
    assert Keep(X[..1], labels) == [X[0]];
    assert Keep(X[..2], labels) == [X[0]];
    assert Keep(X, labels) == [X[0], X[2]];
  }
}
