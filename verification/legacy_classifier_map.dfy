/** The older class-name map of skutil/estimators/classifier_map.py: a
    seven-entry alias table whose modules are sklearn sub-module names, its
    inversion and the lookup of `classifier_cls_by_name`. */
module LegacyClassifierMap {
  import opened Wrappers
  import opened KwargsFilter
  import opened AliasTable
  import PyStr
  import ClassifierMap

  const LIN := "linear_model"
  const SVM := "svm"
  const ENSEMBLE := "ensemble"
  const NAIVE_BAYES := "naive_bayes"

  const LogisticRegression := Entry("LogisticRegression", LIN, ["LogisticRegression", "logisticregression", "logreg", "lr"])
  const LogisticRegressionCV := Entry("LogisticRegressionCV", LIN, ["LogisticRegressionCV", "logisticregressioncv", "logregcv", "lrcv"])
  const SGDClassifier := Entry("SGDClassifier", LIN, ["SGDClassifier", "sgdclassifier", "sgd"])
  const SVC := Entry("SVC", SVM, ["SVC", "svc", "SVM", "svm"])
  const RandomForestClassifier := Entry("RandomForestClassifier", ENSEMBLE, ["RandomForestClassifier", "randomforestclassifier", "RandomForest", "randomforest"])
  const BernoulliNB := Entry("BernoulliNB", NAIVE_BAYES, ["BernoulliNB", "bernoullinb", "bnb"])
  const GaussianNB := Entry("GaussianNB", NAIVE_BAYES, ["GaussianNB", "gaussiannb", "gnb"])

  /** `_CLS_NAME_TO_PARAM_MAP` */
  const LegacyTable: Table := [LogisticRegression, LogisticRegressionCV, SGDClassifier, SVC, RandomForestClassifier, BernoulliNB, GaussianNB]

  lemma NotLaterThanLogisticRegression(a: string)
    requires a in LogisticRegression.names
    ensures a !in LogisticRegressionCV.names && a !in SGDClassifier.names && a !in SVC.names && a !in RandomForestClassifier.names && a !in BernoulliNB.names && a !in GaussianNB.names
  {
  }

  lemma NotLaterThanLogisticRegressionCV(a: string)
    requires a in LogisticRegressionCV.names
    ensures a !in SGDClassifier.names && a !in SVC.names && a !in RandomForestClassifier.names && a !in BernoulliNB.names && a !in GaussianNB.names
  {
  }

  lemma NotLaterThanSGDClassifier(a: string)
    requires a in SGDClassifier.names
    ensures a !in SVC.names && a !in RandomForestClassifier.names && a !in BernoulliNB.names && a !in GaussianNB.names
  {
  }

  lemma NotLaterThanSVC(a: string)
    requires a in SVC.names
    ensures a !in RandomForestClassifier.names && a !in BernoulliNB.names && a !in GaussianNB.names
  {
  }

  lemma NotLaterThanRandomForestClassifier(a: string)
    requires a in RandomForestClassifier.names
    ensures a !in BernoulliNB.names && a !in GaussianNB.names
  {
  }

  lemma NotLaterThanBernoulliNB(a: string)
    requires a in BernoulliNB.names
    ensures a !in GaussianNB.names
  {
  }

  /** No alias is listed by two entries. */
  lemma AliasesDisjoint(i: int, j: int, a: string)
    requires 0 <= i < j < |LegacyTable| && a in LegacyTable[i].names
    ensures a !in LegacyTable[j].names
  {
    if i == 0 {
      assert LegacyTable[0] == LogisticRegression;
      NotLaterThanLogisticRegression(a);
    }
    else if i == 1 {
      assert LegacyTable[1] == LogisticRegressionCV;
      NotLaterThanLogisticRegressionCV(a);
    }
    else if i == 2 {
      assert LegacyTable[2] == SGDClassifier;
      NotLaterThanSGDClassifier(a);
    }
    else if i == 3 {
      assert LegacyTable[3] == SVC;
      NotLaterThanSVC(a);
    }
    else if i == 4 {
      assert LegacyTable[4] == RandomForestClassifier;
      NotLaterThanRandomForestClassifier(a);
    }
    else if i == 5 {
      assert LegacyTable[5] == BernoulliNB;
      NotLaterThanBernoulliNB(a);
    }
  }

  lemma LegacyTableUnambiguous()
    ensures Unambiguous(LegacyTable)
  {
    forall i, j, n | 0 <= i < |LegacyTable| && 0 <= j < |LegacyTable| && n in LegacyTable[i].names && n in LegacyTable[j].names
      ensures LegacyTable[i].Target() == LegacyTable[j].Target()
    {
      if i < j {
        AliasesDisjoint(i, j, n);
      } else if j < i {
        AliasesDisjoint(j, i, n);
      }
    }
  }

  lemma LogisticRegressionNamesListed()
    ensures LogisticRegression.clsName in LogisticRegression.names && PyStr.Lower(LogisticRegression.clsName) in LogisticRegression.names
  {
    assert PyStr.Lower(LogisticRegression.clsName) == LogisticRegression.names[1];
  }

  lemma LogisticRegressionCVNamesListed()
    ensures LogisticRegressionCV.clsName in LogisticRegressionCV.names && PyStr.Lower(LogisticRegressionCV.clsName) in LogisticRegressionCV.names
  {
    assert PyStr.Lower(LogisticRegressionCV.clsName) == LogisticRegressionCV.names[1];
  }

  lemma SGDClassifierNamesListed()
    ensures SGDClassifier.clsName in SGDClassifier.names && PyStr.Lower(SGDClassifier.clsName) in SGDClassifier.names
  {
    assert PyStr.Lower(SGDClassifier.clsName) == SGDClassifier.names[1];
  }

  lemma SVCNamesListed()
    ensures SVC.clsName in SVC.names && PyStr.Lower(SVC.clsName) in SVC.names
  {
    assert PyStr.Lower(SVC.clsName) == SVC.names[1];
  }

  lemma RandomForestClassifierNamesListed()
    ensures RandomForestClassifier.clsName in RandomForestClassifier.names && PyStr.Lower(RandomForestClassifier.clsName) in RandomForestClassifier.names
  {
    assert PyStr.Lower(RandomForestClassifier.clsName) == RandomForestClassifier.names[1];
  }

  lemma BernoulliNBNamesListed()
    ensures BernoulliNB.clsName in BernoulliNB.names && PyStr.Lower(BernoulliNB.clsName) in BernoulliNB.names
  {
    assert PyStr.Lower(BernoulliNB.clsName) == BernoulliNB.names[1];
  }

  lemma GaussianNBNamesListed()
    ensures GaussianNB.clsName in GaussianNB.names && PyStr.Lower(GaussianNB.clsName) in GaussianNB.names
  {
    assert PyStr.Lower(GaussianNB.clsName) == GaussianNB.names[1];
  }

  /** Every class's own name, and its lower-cased form, is one of its aliases. */
  lemma LegacyTableNamesListed()
    ensures CanonicalListed(LegacyTable)
    ensures LowerCaseListed(LegacyTable)
  {
    forall i | 0 <= i < |LegacyTable|
      ensures LegacyTable[i].clsName in LegacyTable[i].names
      ensures PyStr.Lower(LegacyTable[i].clsName) in LegacyTable[i].names
    {
      if i == 0 {
        assert LegacyTable[0] == LogisticRegression;
        LogisticRegressionNamesListed();
      }
      else if i == 1 {
        assert LegacyTable[1] == LogisticRegressionCV;
        LogisticRegressionCVNamesListed();
      }
      else if i == 2 {
        assert LegacyTable[2] == SGDClassifier;
        SGDClassifierNamesListed();
      }
      else if i == 3 {
        assert LegacyTable[3] == SVC;
        SVCNamesListed();
      }
      else if i == 4 {
        assert LegacyTable[4] == RandomForestClassifier;
        RandomForestClassifierNamesListed();
      }
      else if i == 5 {
        assert LegacyTable[5] == BernoulliNB;
        BernoulliNBNamesListed();
      }
      else {
        assert LegacyTable[6] == GaussianNB;
        GaussianNBNamesListed();
      }
    }
  }

  /** `classifier_cls_by_name`, up to fetching the class from the sklearn
      sub-module: the (sub-module, class name) of the entry listing `name`,
      or `KeyError`. */
  function ClassifierClsByName(name: string): (r: Result<ClassRef>)
    ensures r.Ok? <==> name in Aliases(LegacyTable)
    ensures r.Err? ==> r.error == KeyError(name)
    ensures forall i :: 0 <= i < |LegacyTable| && name in LegacyTable[i].names ==>
      r == Ok(LegacyTable[i].Target())
  {
    LegacyTableUnambiguous();
    forall i | 0 <= i < |LegacyTable| && name in LegacyTable[i].names
      ensures Lookup(LegacyTable, name) == Ok(LegacyTable[i].Target())
    {
      LookupResolves(LegacyTable, i, name);
    }
    Lookup(LegacyTable, name)
  }

  lemma ResolvesThrough(name: string, i: int)
    requires 0 <= i < |LegacyTable| && name in LegacyTable[i].names
    ensures ClassifierClsByName(name) == Ok(LegacyTable[i].Target())
  {
  }

  /** `lr` and `logreg` name `LogisticRegression` in `linear_model`; `svm`
      and `SVM` name `SVC` in `svm`. */
  lemma DocumentedLookups()
    ensures ClassifierClsByName("lr") == Ok(ClassRef(LIN, "LogisticRegression"))
    ensures ClassifierClsByName("logreg") == Ok(ClassRef(LIN, "LogisticRegression"))
    ensures ClassifierClsByName("svm") == Ok(ClassRef(SVM, "SVC"))
    ensures ClassifierClsByName("SVM") == Ok(ClassRef(SVM, "SVC"))
  {
    assert LegacyTable[0] == LogisticRegression;
    assert LegacyTable[3] == SVC;
    ResolvesThrough("lr", 0);
    ResolvesThrough("logreg", 0);
    ResolvesThrough("svm", 3);
    ResolvesThrough("SVM", 3);
  }

  /** This older table has no `MultinomialNB`: `mnb` raises `KeyError`. */
  lemma MultinomialNbUnknown()
    ensures ClassifierClsByName("mnb") == Err(KeyError("mnb"))
  {
    assert "mnb" !in LogisticRegression.names;
    assert "mnb" !in LogisticRegressionCV.names;
    assert "mnb" !in SGDClassifier.names;
    assert "mnb" !in SVC.names;
    assert "mnb" !in RandomForestClassifier.names;
    assert "mnb" !in BernoulliNB.names;
    assert "mnb" !in GaussianNB.names;
    assert forall i :: 0 <= i < |LegacyTable| ==> "mnb" !in LegacyTable[i].names;
  }

  /** The entry of the newer table for the class of each entry here. */
  const NewerIndex: seq<int> := [7, 8, 9, 10, 4, 12, 13]

  /** Every name the older table knows is still known to the newer one, and
      names the same class, now under the full `sklearn.` module path. */
  lemma NewerTableExtendsLegacy(name: string)
    requires name in Aliases(LegacyTable)
    ensures ClassifierMap.ClassifierClsByName(name).Ok?
    ensures ClassifierMap.ClassifierClsByName(name).value
         == ClassRef("sklearn." + ClassifierClsByName(name).value.modulePath, ClassifierClsByName(name).value.clsName)
  {
    var i :| 0 <= i < |LegacyTable| && name in LegacyTable[i].names;
    var j := NewerIndex[i];
    NewerEntryCovers(i);
    ClassifierMap.ResolvesThrough(name, j);
  }

  /** The newer entry for the same class: same class name, the module path
      under `sklearn.`, and every legacy alias still listed. */
  predicate Covered(legacy: Entry, newer: Entry) {
    && newer.clsName == legacy.clsName
    && newer.modulePath == "sklearn." + legacy.modulePath
    && forall n :: n in legacy.names ==> n in newer.names
  }

  lemma LogisticRegressionCovered()
    ensures Covered(LogisticRegression, ClassifierMap.LogisticRegression)
  {
  }

  lemma LogisticRegressionCVCovered()
    ensures Covered(LogisticRegressionCV, ClassifierMap.LogisticRegressionCV)
  {
  }

  lemma SGDClassifierCovered()
    ensures Covered(SGDClassifier, ClassifierMap.SGDClassifier)
  {
  }

  lemma SVCCovered()
    ensures Covered(SVC, ClassifierMap.SVC)
  {
  }

  lemma RandomForestClassifierCovered()
    ensures Covered(RandomForestClassifier, ClassifierMap.RandomForestClassifier)
  {
  }

  lemma BernoulliNBCovered()
    ensures Covered(BernoulliNB, ClassifierMap.BernoulliNB)
  {
  }

  lemma GaussianNBCovered()
    ensures Covered(GaussianNB, ClassifierMap.GaussianNB)
  {
  }

  lemma NewerEntryCovers(i: int)
    requires 0 <= i < |LegacyTable|
    ensures 0 <= NewerIndex[i] < |ClassifierMap.ClassifierTable|
    ensures Covered(LegacyTable[i], ClassifierMap.ClassifierTable[NewerIndex[i]])
  {
    if i == 0 {
      assert LegacyTable[0] == LogisticRegression && ClassifierMap.ClassifierTable[7] == ClassifierMap.LogisticRegression;
      LogisticRegressionCovered();
    }
    else if i == 1 {
      assert LegacyTable[1] == LogisticRegressionCV && ClassifierMap.ClassifierTable[8] == ClassifierMap.LogisticRegressionCV;
      LogisticRegressionCVCovered();
    }
    else if i == 2 {
      assert LegacyTable[2] == SGDClassifier && ClassifierMap.ClassifierTable[9] == ClassifierMap.SGDClassifier;
      SGDClassifierCovered();
    }
    else if i == 3 {
      assert LegacyTable[3] == SVC && ClassifierMap.ClassifierTable[10] == ClassifierMap.SVC;
      SVCCovered();
    }
    else if i == 4 {
      assert LegacyTable[4] == RandomForestClassifier && ClassifierMap.ClassifierTable[4] == ClassifierMap.RandomForestClassifier;
      RandomForestClassifierCovered();
    }
    else if i == 5 {
      assert LegacyTable[5] == BernoulliNB && ClassifierMap.ClassifierTable[12] == ClassifierMap.BernoulliNB;
      BernoulliNBCovered();
    }
    else {
      assert LegacyTable[6] == GaussianNB && ClassifierMap.ClassifierTable[13] == ClassifierMap.GaussianNB;
      GaussianNBCovered();
    }
  }
}
