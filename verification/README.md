# skutil core, modelled in Dafny

This project models the self-contained logic of skutil, a small collection of
scikit-learn helpers. It covers four parts:

- **`ConstrainedParameterGrid`** (`skutil/model_selection/search.py`). It
  enumerates a scikit-learn parameter grid and drops every point that contains
  one of the user's "bad combinations" as a sub-dict.
  - `ConstrainedGrid.Iterate` models `__iter__` loop for loop.
  - `ConstrainedGrid.Admissible` is the reference definition it is proved
    against.
  - The unconstrained enumeration is scikit-learn's `ParameterGrid`, which is
    not part of this repository. Module `ParameterGrid` stands in for it with
    the behaviour the docstring example fixes:
    - dicts are taken in the order given;
    - keys are sorted, with the last key varying fastest;
    - an empty dict yields one empty assignment.
- **The two column-dropping classifier wrappers**
  (`skutil/estimators/col_ignore_clf.py`), in module `ColIgnoreClf`.
  - `ColumnIgnoringClassifier._transform_X` keeps the columns whose indices are
    not ignored.
  - `ObjColIgnoringClassifier._transform_X` chooses the object-typed columns on
    its first call, then drops that same list on every later call.
- **The classifier name maps.** Both copies of `classifier_map.py` are
  modelled, in modules `ClassifierMap` (newer) and `LegacyClassifierMap`
  (older).
  - Module `AliasTable` holds what they share:
    - the table from class name to module and alias list;
    - its inversion into a map from alias to (module, class name);
    - the `KeyError` lookup.
- **Keyword screening** for `classifier_by_params` and both copies of
  `scaler_by_params`. It lives in modules `KwargsFilter`, `Scale` and
  `LegacyScale`.
  - A keyword is forwarded exactly when the constructor's signature lists it and
    it is not `self`.
  - Anything else is dropped silently.

Python exceptions are modelled as the `Err` case of `Wrappers.Result`, named
after their classes: `KeyError`, `AttributeError`, `IndexError` and
`ValueError`. Each source module has one Dafny module:

- `search_examples.dfy` checks the docstring example and the test module's grid
  against the model.
- `col_ignore_examples.dfy` (module `ColIgnoreClfExamples`) runs the data of
  the column-ignoring wrappers' tests through both transforms. The index-based
  test drives `IxColIgnoringClassifier` of the src package, which is not part
  of this model; its data goes through the older
  `ColumnIgnoringClassifier._transform_X` instead.
- `PyStr` holds Python's string order and an ASCII `str.lower`.

Things the model does not compute become parameters:

- **Classes.** A class is a `ClassRef` (module path and class name). Importing
  the module and fetching the class from it are outside the model.
- **`sklearn.preprocessing`'s names.** A scaler lookup takes the set of names
  the module defines (`exports`).
- **Constructor parameters.** A function `signature` gives each constructor's
  parameter names.

## Model

| member | source | states |
|---|---|---|
| `ConstrainedGrid.Iterate` | skutil/model_selection/search.py:40-59 | without bad combinations the output is exactly the unconstrained grid, same points and order; with them it is the grid filtered by the reference definition, no output point contains any bad dict, and every output point is a grid point |
| `ConstrainedGrid.FindBad` | skutil/model_selection/search.py:53-57 | the inner scan with early `break` reports a bad combination exactly when some dict of the list is contained in the point |
| `ConstrainedGrid.AdmissibleMembership` | skutil/model_selection/search.py:52-59 | an assignment is yielded if and only if it is in the grid and contains none of the bad dicts |
| `ConstrainedGrid.AdmissibleIsOrderedSubsequence` | skutil/model_selection/search.py:52-59 | the output is the grid read at strictly ascending positions, and a position is read exactly when its point is not bad |
| `ConstrainedGrid.KeptPositionsExact` | skutil/model_selection/search.py:52-59 | a grid position survives if and only if its point is not bad |
| `ConstrainedGrid.AdmissibleAppend` | skutil/model_selection/search.py:52-59 | filtering is point by point: filtering a concatenation is concatenating the filtered parts |
| `ConstrainedGrid.AdmissibleCount` | skutil/model_selection/search.py:52-59 | the number of yielded points is the grid size minus the number of grid positions holding a bad point |
| `ConstrainedGrid.NoCombinationsKeepsAll` | skutil/model_selection/search.py:48-59 | an empty list of bad combinations yields the grid unchanged, as `None` does |
| `ConstrainedGrid.EmptyCombinationExcludesAll` | skutil/model_selection/search.py:55 | the empty dict is a sub-dict of every point, so listing it excludes everything |
| `ConstrainedGrid.UnknownKeyNeverExcludes` | skutil/model_selection/search.py:55 | a bad dict naming a parameter that no dict of the grid has never excludes a point |
| `ConstrainedGrid.UnofferedValueNeverExcludes` | skutil/model_selection/search.py:55 | a bad dict asking for a value the grid never offers for that parameter never excludes a point |
| `ConstrainedGrid.KeepsAllWhenNoneBad` | skutil/model_selection/search.py:52-59 | when no point is bad, the constrained grid equals the unconstrained one |
| `ParameterGrid.SortItems` | skutil/model_selection/search.py:26-33 | the items of a dict come out sorted by key, holding the same items and the same keys |
| `ParameterGrid.CardinalitySortItems` | skutil/model_selection/search.py:26-33 | sorting the items does not change the number of points |
| `ParameterGrid.PointOfSortItems` | skutil/model_selection/search.py:26-33 | sorting the items does not change which assignments are points of the dict |
| `ParameterGrid.ProductOdometer` | skutil/model_selection/search.py:26-33 | the point at position q·m+j binds the first sorted key to its q-th value and the rest as the j-th point of the remaining keys, so the last key varies fastest |
| `ParameterGrid.ProductMembership` | skutil/model_selection/search.py:11-15 | the product of a dict yields exactly the assignments binding each of its keys to one of its values |
| `ParameterGrid.GridMembership` | skutil/model_selection/search.py:17-19 | a list of dicts yields exactly the assignments that are points of one of the dicts |
| `ParameterGrid.EmptyDictYieldsDefaults` | skutil/model_selection/search.py:15 | an empty dict signifies default parameters: one empty assignment |
| `ParameterGrid.EmptyValuesYieldNothing` | skutil/model_selection/search.py:49-52 | a parameter with no allowed values empties its dict's product, as `itertools.product` inside the inherited `ParameterGrid.__iter__` does |
| `ConstrainedGridExamples.DocstringExample` | skutil/model_selection/search.py:24-33 | for `{'a': [1, 2], 'b': [3, 4, 5]}` with bad `{'a': 1, 'b': 4}` the output is (1,3), (1,5), (2,3), (2,4), (2,5) in that order |
| `ConstrainedGridExamples.TestGridSize` | tests/model_selection/test_constrained_param_grid.py:8-24 | the test grid has 12 points |
| `ConstrainedGridExamples.TestGridConstrainedSize` | tests/model_selection/test_constrained_param_grid.py:16-25 | with bad `{'a': 8, 'b': 3}` exactly 10 of its 12 points remain |
| `ConstrainedGridExamples.TestGridExcludesBad` | tests/model_selection/test_constrained_param_grid.py:26-27 | no surviving point binds `a` to 8 and `b` to 3 together |
| `ConstrainedGridExamples.TestGridHasBadPoint` | tests/model_selection/test_constrained_param_grid.py:40-44 | without constraints the grid does hold a point with `a == 8` and `b == 3` |
| `ConstrainedGridExamples.ListValuedCombinationExcludesNothing` | skutil/model_selection/search.py:55 | written as `{'a': [8], 'b': [3]}`, the test's bad combination excludes nothing, because values are compared with `==` |
| `ColIgnoreClf.KeptColumns` | skutil/estimators/col_ignore_clf.py:27-28 | the kept indices are exactly the i in [0, ncols) that are not ignored, strictly ascending |
| `ColIgnoreClf.KeptColumnsCount` | skutil/estimators/col_ignore_clf.py:27-28 | ncols minus the number of in-range ignored indices are kept |
| `ColIgnoreClf.KeptColumnsIgnoresOutOfRange` | skutil/estimators/col_ignore_clf.py:27-28 | ignore lists that agree on [0, ncols) keep the same columns, so negative or too-large indices have no effect |
| `ColIgnoreClf.SelectKeptIsWithout` | skutil/estimators/col_ignore_clf.py:27-29 | reading a row at the kept indices is the row with the ignored positions removed, order kept |
| `ColIgnoreClf.TransformX` | skutil/estimators/col_ignore_clf.py:25-29 | for input given as a list of rows: it succeeds exactly for a non-empty input whose rows have one length; a list of no rows raises `IndexError` and ragged input `ValueError`; the row count is kept and each row loses exactly its ignored positions (cell values as given, without `np.array`'s conversion to one dtype) |
| `ColIgnoreClf.TransformXShape` | skutil/estimators/col_ignore_clf.py:25-29 | the output has the input's rows, each with ncols minus the in-range ignored count columns, read from the kept indices |
| `ColIgnoreClf.EmptyIgnoreIsIdentity` | skutil/estimators/col_ignore_clf.py:27-29 | with nothing to ignore the transform gives the input rows back (cell values as given, without `np.array`'s conversion to one dtype) |
| `ColIgnoreClf.ColumnIgnoringClassifier.Fit` | skutil/estimators/col_ignore_clf.py:46-49 | `fit` fails exactly when the transform does and otherwise returns the wrapper itself |
| `ColIgnoreClf.ObjectColumns` | skutil/estimators/col_ignore_clf.py:99-102 | a name is chosen if and only if it names an object-typed column |
| `ColIgnoreClf.ObjectColumnsInOrder` | skutil/estimators/col_ignore_clf.py:99-102 | the names come in column order, once per object column: the choice over a frame split in two is the first part's followed by the second's, and one column gives its name exactly when it is of dtype `object` |
| `ColIgnoreClf.Drop` | skutil/estimators/col_ignore_clf.py:103 | the drop succeeds exactly when every label is a column, and otherwise raises `KeyError` on a missing label; the result holds exactly the input columns not named |
| `ColIgnoreClf.KeepIsWithout` | skutil/estimators/col_ignore_clf.py:103 | keeping the columns whose labels are not listed is removing, by position, exactly the positions whose labels are listed |
| `ColIgnoreClf.DropKeepsOrder` | skutil/estimators/col_ignore_clf.py:103 | a successful drop returns the surviving columns in their original order, read at the ascending kept positions |
| `ColIgnoreClf.TransformStep` | skutil/estimators/col_ignore_clf.py:97-103 | after one call `col_to_drop` is set, an already-set value is kept, and the call returns the input minus those columns |
| `ColIgnoreClf.ChosenOnFirstUse` | skutil/estimators/col_ignore_clf.py:95-103 | from a fresh wrapper, every call of a run drops the object columns of the first input, and the state ends holding those names |
| `ColIgnoreClf.KeptOnceSet` | skutil/estimators/col_ignore_clf.py:98-103 | once `col_to_drop` is set no call changes it, whatever the later inputs' dtypes |
| `ColIgnoreClf.FirstUseDropsAllObjectColumns` | skutil/estimators/col_ignore_clf.py:98-103 | the first call cannot raise, and what it returns has no object column |
| `ColIgnoreClf.ObjColIgnoringClassifier.TransformX` | skutil/estimators/col_ignore_clf.py:97-103 | the stateful `_transform_X`: the new `col_to_drop` and the result are those of one `TransformStep` from the old state |
| `ColIgnoreClf.ObjColIgnoringClassifier.Fit` | skutil/estimators/col_ignore_clf.py:120-123 | `fit` updates `col_to_drop` as `_transform_X` does, fails exactly when the drop does, and otherwise returns the wrapper itself |
| `ColIgnoreClfExamples.WithoutSecond` | skutil/estimators/col_ignore_clf.py:27-29 | ignoring index 1 of a three-cell row keeps its first and last cells |
| `ColIgnoreClfExamples.IndexWrapperDropsStringColumn` | tests/estimators/test_col_ignore_clf.py:27-31 | the test's training rows, put through the older `ColumnIgnoringClassifier._transform_X` (the test itself drives the src package's `IxColIgnoringClassifier`): ignoring the index of `x2` succeeds and leaves the `x1` and `x3` values of both rows |
| `ColIgnoreClfExamples.IndexWrapperPredictInput` | tests/estimators/test_col_ignore_clf.py:34-36 | the test's one-row prediction input, put through the same older transform, becomes one row holding its first and last values |
| `ColIgnoreClfExamples.DropSecond` | skutil/estimators/col_ignore_clf.py:103 | dropping the label of the middle column of a three-column frame with distinct labels succeeds and keeps the outer two columns |
| `ColIgnoreClfExamples.MiddleObjectColumnFitThenPredict` | tests/estimators/test_col_ignore_clf.py:67-73 | fitting on a three-column frame whose one object column is the middle one (as in the test's `x1`, `x2`, `x3`) chooses exactly that label, and both the fit and a like-labelled prediction input lose only that column |
| `ColIgnoreClfExamples.ObjectWrapperFitThenPredict` | tests/estimators/test_col_ignore_clf.py:67-73 | on the test's own frames, `x2` is chosen and both frames keep only `x1` and `x3` |
| `KwargsFilter.FilterKwargs` | src/skutil/estimators/classifier_map.py:212-216 | a keyword is kept exactly when given, listed by the signature and not `self`, with its value unchanged |
| `KwargsFilter.FilterIsSubDict` | src/skutil/preprocessing/scale.py:74-78 | the forwarded keywords are among those given, and `self` is never forwarded |
| `KwargsFilter.FilterIdempotent` | src/skutil/estimators/classifier_map.py:212-216 | screening twice against one signature is screening once |
| `KwargsFilter.FilterKeepsSupported` | src/skutil/estimators/classifier_map.py:192-194 | when every keyword is supported, all are forwarded unchanged |
| `KwargsFilter.UnsupportedKeywordDiscarded` | src/skutil/estimators/classifier_map.py:192-194 | adding a keyword the signature does not list changes nothing that is forwarded |
| `KwargsFilter.SelfInSignatureIrrelevant` | skutil/preprocessing/scale.py:40-42 | a signature that also lists `self` screens exactly as one without it |
| `KwargsFilter.SignatureOrderIrrelevant` | src/skutil/estimators/classifier_map.py:176-179 | only the set of parameter names matters, not their order |
| `KwargsFilter.Instantiate` | src/skutil/estimators/classifier_map.py:212-217 | the class is called with exactly the given keywords the signature lists, other than `self` |
| `AliasTable.Assign` | src/skutil/estimators/classifier_map.py:134-135 | every alias of the entry now maps to its target, and other keys keep their values |
| `AliasTable.Build` | src/skutil/estimators/classifier_map.py:130-135 | the loop adds exactly the table's aliases as keys, and keys not among them keep their values |
| `AliasTable.InvertDomain` | src/skutil/estimators/classifier_map.py:130-135 | the inverted map's domain is exactly the union of the alias lists |
| `AliasTable.BuildFromSomeEntry` | src/skutil/estimators/classifier_map.py:132-135 | every alias is sent to the target of some entry that lists it |
| `AliasTable.InvertResolves` | src/skutil/estimators/classifier_map.py:132-135 | in a table where no alias names two classes, every alias of every entry maps to that entry's (module, class name) |
| `AliasTable.InvertOrderIndependent` | src/skutil/estimators/classifier_map.py:130-135 | such a table inverts to the same map whatever the order of its entries |
| `AliasTable.Lookup` | src/skutil/estimators/classifier_map.py:170 | the lookup succeeds exactly for a listed alias, giving the target of an entry listing it, and raises `KeyError(name)` otherwise |
| `AliasTable.LookupResolves` | src/skutil/estimators/classifier_map.py:170 | in an unambiguous table, looking up any alias of an entry gives that entry's target |
| `AliasTable.CanonicalResolves` | src/skutil/estimators/classifier_map.py:143-151 | when class names are their own aliases, looking up a class name gives that class |
| `AliasTable.LowerCaseResolves` | src/skutil/estimators/classifier_map.py:148-150 | when lower-cased class names are aliases, looking one up gives that class |
| `ClassifierMap.AliasesDisjoint` | src/skutil/estimators/classifier_map.py:13-128 | no alias is listed by two entries of the (corrected) table |
| `ClassifierMap.ListedOnlyThere` | src/skutil/estimators/classifier_map.py:13-128 | a name listed by one entry is listed by no other |
| `ClassifierMap.ClassifierTableUnambiguous` | src/skutil/estimators/classifier_map.py:13-128 | no alias is sent to two different classes |
| `ClassifierMap.ClassifierTableNamesListed` | src/skutil/estimators/classifier_map.py:13-128 | every class's own name and its lower-cased name are among its aliases |
| `ClassifierMap.ClassifierClsByName` | src/skutil/estimators/classifier_map.py:143-173 | over the corrected table: a name resolves exactly when it is listed, to the (module, class) of the entry listing it; otherwise `KeyError(name)` |
| `ClassifierMap.AsWrittenClsByName` | src/skutil/estimators/classifier_map.py:66-74 | over the table as written: a name resolves exactly when that table lists it, otherwise `KeyError(name)`; `gaussianprocessclassifier` raises `KeyError`, and every other name resolves as in the corrected lookup |
| `ClassifierMap.AsWrittenIsOneEntryApart` | src/skutil/estimators/classifier_map.py:66-74 | the table as written differs from the corrected one in the Gaussian-process entry only |
| `ClassifierMap.AsWrittenMissesLowerCase` | src/skutil/estimators/classifier_map.py:66-74 | as written, `gaussianprocessclassifier` is not an alias, and looking it up raises `KeyError` |
| `ClassifierMap.AsWrittenAgreesElsewhere` | src/skutil/estimators/classifier_map.py:66-74 | every other name resolves alike in the written and the corrected table |
| `ClassifierMap.LogisticRegressionLookups` | src/skutil/estimators/classifier_map.py:160-167 | `LogisticRegression`, `logisticregression`, `logreg` and `lr` resolve to `sklearn.linear_model.LogisticRegression` |
| `ClassifierMap.SvcLookups` | tests/estimators/test_classifier_map.py:16-19 | `SVC`, `svc`, `SVM` and `svm` resolve to `sklearn.svm.SVC` |
| `ClassifierMap.MultinomialNbLookups` | tests/estimators/test_classifier_map.py:20-22 | `MultinomialNB`, `multinomialnb` and `mnb` resolve to `sklearn.naive_bayes.MultinomialNB` |
| `ClassifierMap.UnlistedRaises` | src/skutil/estimators/classifier_map.py:170 | a name no entry lists raises `KeyError` |
| `ClassifierMap.UnknownNameRaises` | src/skutil/estimators/classifier_map.py:170 | `knn` raises `KeyError` |
| `ClassifierMap.ClassifierByParams` | src/skutil/estimators/classifier_map.py:183-217 | over the corrected table: the call fails with `KeyError` exactly for an unlisted name; otherwise it calls the class the name resolves to, with exactly the given keywords its signature lists other than `self`, values unchanged |
| `LegacyClassifierMap.AliasesDisjoint` | skutil/estimators/classifier_map.py:13-44 | no alias is listed by two entries of the older table |
| `LegacyClassifierMap.LegacyTableUnambiguous` | skutil/estimators/classifier_map.py:13-44 | no alias of the older table is sent to two different classes |
| `LegacyClassifierMap.LegacyTableNamesListed` | skutil/estimators/classifier_map.py:13-44 | every class's own name and its lower-cased name are among its aliases |
| `LegacyClassifierMap.ClassifierClsByName` | skutil/estimators/classifier_map.py:59-87 | a name resolves exactly when it is listed, to the (submodule, class) of the entry listing it; otherwise `KeyError(name)` |
| `LegacyClassifierMap.DocumentedLookups` | skutil/estimators/classifier_map.py:14-30 | `lr` and `logreg` resolve to `linear_model.LogisticRegression`, and `svm` and `SVM` to `svm.SVC` |
| `LegacyClassifierMap.MultinomialNbUnknown` | skutil/estimators/classifier_map.py:85 | the older table lacks `mnb`, which raises `KeyError` |
| `LegacyClassifierMap.NewerEntryCovers` | skutil/estimators/classifier_map.py:13-44 | each older entry has a newer entry for the same class, under `sklearn.` plus its submodule, listing all its aliases |
| `LegacyClassifierMap.NewerTableExtendsLegacy` | skutil/estimators/classifier_map.py:46-51 | every name the older map resolves also resolves in the newer one, to the same class under the full `sklearn.` module path |
| `Scale.ScalerClsByName` | src/skutil/preprocessing/scale.py:16-38 | a scaler name resolves exactly when `sklearn.preprocessing` defines it, and otherwise raises `AttributeError` |
| `Scale.ScalerByParams` | src/skutil/preprocessing/scale.py:48-79 | it fails exactly as the class lookup does; otherwise the scaler is called with exactly the given keywords its signature lists other than `self`, values unchanged |
| `Scale.NoKeywordsNoArguments` | src/skutil/preprocessing/scale.py:74-79 | with no keywords the scaler is called with none |
| `Scale.UnsupportedKeywordIgnored` | src/skutil/preprocessing/scale.py:55-57 | an extra keyword the constructor does not take leaves the call unchanged |
| `LegacyScale.ScalerByParams` | skutil/preprocessing/scale.py:46-75 | for constructors whose parameters are all positional-or-keyword and unannotated: it fails exactly as the class lookup does; otherwise only given keywords the argument list names are forwarded, values unchanged, and never `self` |
| `LegacyScale.SelfNeverForwarded` | skutil/preprocessing/scale.py:71-74 | the argument list names `self`, yet a `self=` keyword is not forwarded |
| `LegacyScale.AgreesWithNewer` | skutil/preprocessing/scale.py:40-42 | for constructors whose parameters are all positional-or-keyword and unannotated: the older helper, screening against a list that holds `self`, builds the same call as the newer one |

## Left out

- `ParameterGrid`'s checks on its argument are left out: the type and emptiness errors, and treating a string as a single value. scikit-learn code is not part of this model. Values are a generic type compared with Dafny's `==`, which stands for Python's `==`.
- Bad combinations whose values are lists are not expanded into their alternatives. Line 55 of search.py compares values with `==`, so the model follows the code. `ListValuedCombinationExcludesNothing` states the consequence.
- `fit`, `predict` and `predict_proba` of both wrappers hand the transformed input to the wrapped estimator, which is outside the model. So are `check_X_y` and `check_array`.
- pandas `DataFrame.drop` is modelled only as far as the wrappers use it:
  - named columns go;
  - a missing label raises `KeyError`, reported on the first missing label rather than on all of them.
- `ColIgnoreClf.TransformX` takes its input as a list of rows. A 2-D array or DataFrame of shape (0, k) has a second dimension, so the source accepts it, but a list of no rows cannot carry k and is modelled as the `IndexError` of an empty list. `np.array`'s conversion of mixed-type rows to one dtype (`[[1, 'a']]` becoming strings) is not modelled either: the output holds the input's cells as given, which matches the source for rows of one type and for object arrays.
- `ColIgnoreClf.EmptyIgnoreIsIdentity` gives the input rows back only in the same sense: cell values as given, with no dtype conversion.
- `ClassifierMap.ClassifierClsByName` looks names up in the corrected table. As written, the source raises `KeyError` for `gaussianprocessclassifier`; `ClassifierMap.AsWrittenClsByName` models that lookup and proves it agrees with the corrected one on every other name.
- `ClassifierMap.ClassifierByParams` resolves through the corrected table too, so it instantiates `gaussianprocessclassifier` where the source raises `KeyError`.
- numpy's `np.array` is reduced to two outcomes on rows of different lengths: a `ValueError` here, where older numpy versions built an object array and failed later with `IndexError`.
- Importing modules, `getattr` on the imported module, `inspect.signature` and `inspect.getargspec` are not modelled. They become the `ClassRef` value and the `exports` and `signature` parameters. `functools.lru_cache` and `lazy_property` only cache pure results and are not modelled.
- `LegacyScale.ArgSpecArgs` stands for `inspect.getargspec(klass).args` as `self` followed by the constructor's parameters. That holds only for constructors whose parameters are all positional-or-keyword and unannotated. For a constructor with keyword-only parameters or annotations (current scikit-learn scalers take `__init__(self, *, ...)`), `getargspec` raises `ValueError`, and it no longer exists from Python 3.11. The model does not represent that failure.
- `LegacyScale.ScalerByParams` fails only as the class lookup does, so it misses the `ValueError` that `getargspec` raises on such constructors.
- `LegacyScale.AgreesWithNewer` holds only for constructors of that kind: for others the older helper raises where the newer one builds a call.
- `PyStr.Lower` covers ASCII letters only, which is every name in the tables.
- Keyword arguments are a map, so the order in which they are passed is not modelled.
- `skutil/calibration/calib_clf.py` (random splits and external calibration), both copies of `multi_select_percentile.py` (floating-point percentiles), `regressor_map.py` (reflection over scikit-learn) and the package `__init__.py` files are not part of this model.

## Findings

| source | as written | input that shows it | evidently intended | confidence | as-written member | corrected member |
|---|---|---|---|---|---|---|
| src/skutil/estimators/classifier_map.py:66-74 | the Gaussian-process entry lists `"GaussianProcessClassifier"` twice and never `"gaussianprocessclassifier"` | `classifier_cls_by_name('gaussianprocessclassifier')` raises `KeyError` | the second alias lower-cased, as in every other entry and as the docstring's "can also be lower-cased" promises | not executed; high | `ClassifierMap.AsWrittenMissesLowerCase` | `ClassifierMap.ClassifierTableNamesListed` |
