/** The class-name map of src/skutil/estimators/classifier_map.py: the
    eighteen-entry alias table, its inversion, `classifier_cls_by_name` and
    `classifier_by_params`. Importing the module and fetching the class from
    it are outside the model: a `ClassRef` stands for the class. */
module ClassifierMap {
  import opened Wrappers
  import opened KwargsFilter
  import opened AliasTable
  import PyStr

  const ENSEMBLE := "sklearn.ensemble"
  const GAUSS := "sklearn.gaussian_process"
  const LIN := "sklearn.linear_model"
  const SVM := "sklearn.svm"
  const NAIVE_BAYES := "sklearn.naive_bayes"
  const AdaBoostClassifier := Entry("AdaBoostClassifier", ENSEMBLE, ["AdaBoostClassifier", "adaboostclassifier", "AdaBoost", "adaboost"])
  const BaggingClassifier := Entry("BaggingClassifier", ENSEMBLE, ["BaggingClassifier", "baggingclassifier", "Bagging", "bagging"])
  const ExtraTreesClassifier := Entry("ExtraTreesClassifier", ENSEMBLE, ["ExtraTreesClassifier", "extratreesclassifier", "ExtraTrees", "extratrees"])
  const GradientBoostingClassifier := Entry("GradientBoostingClassifier", ENSEMBLE, ["GradientBoostingClassifier", "gradientboostingclassifier", "GradientBoosting", "gradientboosting"])
  const RandomForestClassifier := Entry("RandomForestClassifier", ENSEMBLE, ["RandomForestClassifier", "randomforestclassifier", "RandomForest", "randomforest"])
  const VotingClassifier := Entry("VotingClassifier", ENSEMBLE, ["VotingClassifier", "votingclassifier", "Voting", "voting"])
  /** The Gaussian-process entry as the source writes it: the class name
      twice, and no lower-cased class name. */
  const GaussianProcessClassifierAsWritten := Entry("GaussianProcessClassifier", GAUSS,
    ["GaussianProcessClassifier", "GaussianProcessClassifier", "GaussianProcess", "gaussianprocess"])
  /** The same entry with its second alias lower-cased, as every other entry has it. */
  const GaussianProcessClassifier := Entry("GaussianProcessClassifier", GAUSS, ["GaussianProcessClassifier", "gaussianprocessclassifier", "GaussianProcess", "gaussianprocess"])
  const LogisticRegression := Entry("LogisticRegression", LIN, ["LogisticRegression", "logisticregression", "logreg", "lr"])
  const LogisticRegressionCV := Entry("LogisticRegressionCV", LIN, ["LogisticRegressionCV", "logisticregressioncv", "logregcv", "lrcv"])
  const SGDClassifier := Entry("SGDClassifier", LIN, ["SGDClassifier", "sgdclassifier", "sgd"])
  const SVC := Entry("SVC", SVM, ["SVC", "svc", "SVM", "svm"])
  const LinearSVC := Entry("LinearSVC", SVM, ["LinearSVC", "linearsvc", "linsvm"])
  const BernoulliNB := Entry("BernoulliNB", NAIVE_BAYES, ["BernoulliNB", "bernoullinb", "bnb"])
  const GaussianNB := Entry("GaussianNB", NAIVE_BAYES, ["GaussianNB", "gaussiannb", "gnb"])
  const MultinomialNB := Entry("MultinomialNB", NAIVE_BAYES, ["MultinomialNB", "multinomialnb", "mnb"])
  const XGBClassifier := Entry("XGBClassifier", "xgboost.sklearn", ["XGBClassifier", "xgbclassifier", "xgboost", "xgb"])
  const LGBMClassifier := Entry("LGBMClassifier", "lightgbm", ["LGBMClassifier", "lgbmclassifier"])
  const CatBoostClassifier := Entry("CatBoostClassifier", "catboost", ["CatBoostClassifier", "catboostclassifier"])

  /** `_CLS_NAME_TO_PARAM_MAP` as written. */
  const AsWrittenTable: Table := [AdaBoostClassifier, BaggingClassifier, ExtraTreesClassifier, GradientBoostingClassifier, RandomForestClassifier, VotingClassifier, GaussianProcessClassifierAsWritten, LogisticRegression, LogisticRegressionCV, SGDClassifier, SVC, LinearSVC, BernoulliNB, GaussianNB, MultinomialNB, XGBClassifier, LGBMClassifier, CatBoostClassifier]

  /** `_CLS_NAME_TO_PARAM_MAP` with the Gaussian-process entry corrected; the
      rest of the model uses this one. */
  const ClassifierTable: Table := [AdaBoostClassifier, BaggingClassifier, ExtraTreesClassifier, GradientBoostingClassifier, RandomForestClassifier, VotingClassifier, GaussianProcessClassifier, LogisticRegression, LogisticRegressionCV, SGDClassifier, SVC, LinearSVC, BernoulliNB, GaussianNB, MultinomialNB, XGBClassifier, LGBMClassifier, CatBoostClassifier]

  lemma AdaBoostClassifierBeforeBaggingClassifier(a: string)
    requires a in AdaBoostClassifier.names
    ensures a !in BaggingClassifier.names && a !in ExtraTreesClassifier.names && a !in GradientBoostingClassifier.names && a !in RandomForestClassifier.names && a !in VotingClassifier.names && a !in GaussianProcessClassifier.names
  {
  }

  lemma AdaBoostClassifierBeforeLogisticRegression(a: string)
    requires a in AdaBoostClassifier.names
    ensures a !in LogisticRegression.names && a !in LogisticRegressionCV.names && a !in SGDClassifier.names && a !in SVC.names && a !in LinearSVC.names && a !in BernoulliNB.names
  {
  }

  lemma AdaBoostClassifierBeforeGaussianNB(a: string)
    requires a in AdaBoostClassifier.names
    ensures a !in GaussianNB.names && a !in MultinomialNB.names && a !in XGBClassifier.names && a !in LGBMClassifier.names && a !in CatBoostClassifier.names
  {
  }

  lemma NotLaterThanAdaBoostClassifier(a: string)
    requires a in AdaBoostClassifier.names
    ensures a !in BaggingClassifier.names && a !in ExtraTreesClassifier.names && a !in GradientBoostingClassifier.names && a !in RandomForestClassifier.names && a !in VotingClassifier.names && a !in GaussianProcessClassifier.names && a !in LogisticRegression.names && a !in LogisticRegressionCV.names && a !in SGDClassifier.names && a !in SVC.names && a !in LinearSVC.names && a !in BernoulliNB.names && a !in GaussianNB.names && a !in MultinomialNB.names && a !in XGBClassifier.names && a !in LGBMClassifier.names && a !in CatBoostClassifier.names
  {
    AdaBoostClassifierBeforeBaggingClassifier(a);
    AdaBoostClassifierBeforeLogisticRegression(a);
    AdaBoostClassifierBeforeGaussianNB(a);
  }

  lemma BaggingClassifierBeforeExtraTreesClassifier(a: string)
    requires a in BaggingClassifier.names
    ensures a !in ExtraTreesClassifier.names && a !in GradientBoostingClassifier.names && a !in RandomForestClassifier.names && a !in VotingClassifier.names && a !in GaussianProcessClassifier.names && a !in LogisticRegression.names
  {
  }

  lemma BaggingClassifierBeforeLogisticRegressionCV(a: string)
    requires a in BaggingClassifier.names
    ensures a !in LogisticRegressionCV.names && a !in SGDClassifier.names && a !in SVC.names && a !in LinearSVC.names && a !in BernoulliNB.names && a !in GaussianNB.names
  {
  }

  lemma BaggingClassifierBeforeMultinomialNB(a: string)
    requires a in BaggingClassifier.names
    ensures a !in MultinomialNB.names && a !in XGBClassifier.names && a !in LGBMClassifier.names && a !in CatBoostClassifier.names
  {
  }

  lemma NotLaterThanBaggingClassifier(a: string)
    requires a in BaggingClassifier.names
    ensures a !in ExtraTreesClassifier.names && a !in GradientBoostingClassifier.names && a !in RandomForestClassifier.names && a !in VotingClassifier.names && a !in GaussianProcessClassifier.names && a !in LogisticRegression.names && a !in LogisticRegressionCV.names && a !in SGDClassifier.names && a !in SVC.names && a !in LinearSVC.names && a !in BernoulliNB.names && a !in GaussianNB.names && a !in MultinomialNB.names && a !in XGBClassifier.names && a !in LGBMClassifier.names && a !in CatBoostClassifier.names
  {
    BaggingClassifierBeforeExtraTreesClassifier(a);
    BaggingClassifierBeforeLogisticRegressionCV(a);
    BaggingClassifierBeforeMultinomialNB(a);
  }

  lemma ExtraTreesClassifierBeforeGradientBoostingClassifier(a: string)
    requires a in ExtraTreesClassifier.names
    ensures a !in GradientBoostingClassifier.names && a !in RandomForestClassifier.names && a !in VotingClassifier.names && a !in GaussianProcessClassifier.names && a !in LogisticRegression.names && a !in LogisticRegressionCV.names
  {
  }

  lemma ExtraTreesClassifierBeforeSGDClassifier(a: string)
    requires a in ExtraTreesClassifier.names
    ensures a !in SGDClassifier.names && a !in SVC.names && a !in LinearSVC.names && a !in BernoulliNB.names && a !in GaussianNB.names && a !in MultinomialNB.names
  {
  }

  lemma ExtraTreesClassifierBeforeXGBClassifier(a: string)
    requires a in ExtraTreesClassifier.names
    ensures a !in XGBClassifier.names && a !in LGBMClassifier.names && a !in CatBoostClassifier.names
  {
  }

  lemma NotLaterThanExtraTreesClassifier(a: string)
    requires a in ExtraTreesClassifier.names
    ensures a !in GradientBoostingClassifier.names && a !in RandomForestClassifier.names && a !in VotingClassifier.names && a !in GaussianProcessClassifier.names && a !in LogisticRegression.names && a !in LogisticRegressionCV.names && a !in SGDClassifier.names && a !in SVC.names && a !in LinearSVC.names && a !in BernoulliNB.names && a !in GaussianNB.names && a !in MultinomialNB.names && a !in XGBClassifier.names && a !in LGBMClassifier.names && a !in CatBoostClassifier.names
  {
    ExtraTreesClassifierBeforeGradientBoostingClassifier(a);
    ExtraTreesClassifierBeforeSGDClassifier(a);
    ExtraTreesClassifierBeforeXGBClassifier(a);
  }

  lemma GradientBoostingClassifierBeforeRandomForestClassifier(a: string)
    requires a in GradientBoostingClassifier.names
    ensures a !in RandomForestClassifier.names && a !in VotingClassifier.names && a !in GaussianProcessClassifier.names && a !in LogisticRegression.names && a !in LogisticRegressionCV.names && a !in SGDClassifier.names
  {
  }

  lemma GradientBoostingClassifierBeforeSVC(a: string)
    requires a in GradientBoostingClassifier.names
    ensures a !in SVC.names && a !in LinearSVC.names && a !in BernoulliNB.names && a !in GaussianNB.names && a !in MultinomialNB.names && a !in XGBClassifier.names
  {
  }

  lemma GradientBoostingClassifierBeforeLGBMClassifier(a: string)
    requires a in GradientBoostingClassifier.names
    ensures a !in LGBMClassifier.names && a !in CatBoostClassifier.names
  {
  }

  lemma NotLaterThanGradientBoostingClassifier(a: string)
    requires a in GradientBoostingClassifier.names
    ensures a !in RandomForestClassifier.names && a !in VotingClassifier.names && a !in GaussianProcessClassifier.names && a !in LogisticRegression.names && a !in LogisticRegressionCV.names && a !in SGDClassifier.names && a !in SVC.names && a !in LinearSVC.names && a !in BernoulliNB.names && a !in GaussianNB.names && a !in MultinomialNB.names && a !in XGBClassifier.names && a !in LGBMClassifier.names && a !in CatBoostClassifier.names
  {
    GradientBoostingClassifierBeforeRandomForestClassifier(a);
    GradientBoostingClassifierBeforeSVC(a);
    GradientBoostingClassifierBeforeLGBMClassifier(a);
  }

  lemma RandomForestClassifierBeforeVotingClassifier(a: string)
    requires a in RandomForestClassifier.names
    ensures a !in VotingClassifier.names && a !in GaussianProcessClassifier.names && a !in LogisticRegression.names && a !in LogisticRegressionCV.names && a !in SGDClassifier.names && a !in SVC.names
  {
  }

  lemma RandomForestClassifierBeforeLinearSVC(a: string)
    requires a in RandomForestClassifier.names
    ensures a !in LinearSVC.names && a !in BernoulliNB.names && a !in GaussianNB.names && a !in MultinomialNB.names && a !in XGBClassifier.names && a !in LGBMClassifier.names
  {
  }

  lemma RandomForestClassifierBeforeCatBoostClassifier(a: string)
    requires a in RandomForestClassifier.names
    ensures a !in CatBoostClassifier.names
  {
  }

  lemma NotLaterThanRandomForestClassifier(a: string)
    requires a in RandomForestClassifier.names
    ensures a !in VotingClassifier.names && a !in GaussianProcessClassifier.names && a !in LogisticRegression.names && a !in LogisticRegressionCV.names && a !in SGDClassifier.names && a !in SVC.names && a !in LinearSVC.names && a !in BernoulliNB.names && a !in GaussianNB.names && a !in MultinomialNB.names && a !in XGBClassifier.names && a !in LGBMClassifier.names && a !in CatBoostClassifier.names
  {
    RandomForestClassifierBeforeVotingClassifier(a);
    RandomForestClassifierBeforeLinearSVC(a);
    RandomForestClassifierBeforeCatBoostClassifier(a);
  }

  lemma VotingClassifierBeforeGaussianProcessClassifier(a: string)
    requires a in VotingClassifier.names
    ensures a !in GaussianProcessClassifier.names && a !in LogisticRegression.names && a !in LogisticRegressionCV.names && a !in SGDClassifier.names && a !in SVC.names && a !in LinearSVC.names
  {
  }

  lemma VotingClassifierBeforeBernoulliNB(a: string)
    requires a in VotingClassifier.names
    ensures a !in BernoulliNB.names && a !in GaussianNB.names && a !in MultinomialNB.names && a !in XGBClassifier.names && a !in LGBMClassifier.names && a !in CatBoostClassifier.names
  {
  }

  lemma NotLaterThanVotingClassifier(a: string)
    requires a in VotingClassifier.names
    ensures a !in GaussianProcessClassifier.names && a !in LogisticRegression.names && a !in LogisticRegressionCV.names && a !in SGDClassifier.names && a !in SVC.names && a !in LinearSVC.names && a !in BernoulliNB.names && a !in GaussianNB.names && a !in MultinomialNB.names && a !in XGBClassifier.names && a !in LGBMClassifier.names && a !in CatBoostClassifier.names
  {
    VotingClassifierBeforeGaussianProcessClassifier(a);
    VotingClassifierBeforeBernoulliNB(a);
  }

  lemma GaussianProcessClassifierBeforeLogisticRegression(a: string)
    requires a in GaussianProcessClassifier.names
    ensures a !in LogisticRegression.names && a !in LogisticRegressionCV.names && a !in SGDClassifier.names && a !in SVC.names && a !in LinearSVC.names && a !in BernoulliNB.names
  {
  }

  lemma GaussianProcessClassifierBeforeGaussianNB(a: string)
    requires a in GaussianProcessClassifier.names
    ensures a !in GaussianNB.names && a !in MultinomialNB.names && a !in XGBClassifier.names && a !in LGBMClassifier.names && a !in CatBoostClassifier.names
  {
  }

  lemma NotLaterThanGaussianProcessClassifier(a: string)
    requires a in GaussianProcessClassifier.names
    ensures a !in LogisticRegression.names && a !in LogisticRegressionCV.names && a !in SGDClassifier.names && a !in SVC.names && a !in LinearSVC.names && a !in BernoulliNB.names && a !in GaussianNB.names && a !in MultinomialNB.names && a !in XGBClassifier.names && a !in LGBMClassifier.names && a !in CatBoostClassifier.names
  {
    GaussianProcessClassifierBeforeLogisticRegression(a);
    GaussianProcessClassifierBeforeGaussianNB(a);
  }

  lemma LogisticRegressionBeforeLogisticRegressionCV(a: string)
    requires a in LogisticRegression.names
    ensures a !in LogisticRegressionCV.names && a !in SGDClassifier.names && a !in SVC.names && a !in LinearSVC.names && a !in BernoulliNB.names && a !in GaussianNB.names
  {
  }

  lemma LogisticRegressionBeforeMultinomialNB(a: string)
    requires a in LogisticRegression.names
    ensures a !in MultinomialNB.names && a !in XGBClassifier.names && a !in LGBMClassifier.names && a !in CatBoostClassifier.names
  {
  }

  lemma NotLaterThanLogisticRegression(a: string)
    requires a in LogisticRegression.names
    ensures a !in LogisticRegressionCV.names && a !in SGDClassifier.names && a !in SVC.names && a !in LinearSVC.names && a !in BernoulliNB.names && a !in GaussianNB.names && a !in MultinomialNB.names && a !in XGBClassifier.names && a !in LGBMClassifier.names && a !in CatBoostClassifier.names
  {
    LogisticRegressionBeforeLogisticRegressionCV(a);
    LogisticRegressionBeforeMultinomialNB(a);
  }

  lemma LogisticRegressionCVBeforeSGDClassifier(a: string)
    requires a in LogisticRegressionCV.names
    ensures a !in SGDClassifier.names && a !in SVC.names && a !in LinearSVC.names && a !in BernoulliNB.names && a !in GaussianNB.names && a !in MultinomialNB.names
  {
  }

  lemma LogisticRegressionCVBeforeXGBClassifier(a: string)
    requires a in LogisticRegressionCV.names
    ensures a !in XGBClassifier.names && a !in LGBMClassifier.names && a !in CatBoostClassifier.names
  {
  }

  lemma NotLaterThanLogisticRegressionCV(a: string)
    requires a in LogisticRegressionCV.names
    ensures a !in SGDClassifier.names && a !in SVC.names && a !in LinearSVC.names && a !in BernoulliNB.names && a !in GaussianNB.names && a !in MultinomialNB.names && a !in XGBClassifier.names && a !in LGBMClassifier.names && a !in CatBoostClassifier.names
  {
    LogisticRegressionCVBeforeSGDClassifier(a);
    LogisticRegressionCVBeforeXGBClassifier(a);
  }

  lemma SGDClassifierBeforeSVC(a: string)
    requires a in SGDClassifier.names
    ensures a !in SVC.names && a !in LinearSVC.names && a !in BernoulliNB.names && a !in GaussianNB.names && a !in MultinomialNB.names && a !in XGBClassifier.names
  {
  }

  lemma SGDClassifierBeforeLGBMClassifier(a: string)
    requires a in SGDClassifier.names
    ensures a !in LGBMClassifier.names && a !in CatBoostClassifier.names
  {
  }

  lemma NotLaterThanSGDClassifier(a: string)
    requires a in SGDClassifier.names
    ensures a !in SVC.names && a !in LinearSVC.names && a !in BernoulliNB.names && a !in GaussianNB.names && a !in MultinomialNB.names && a !in XGBClassifier.names && a !in LGBMClassifier.names && a !in CatBoostClassifier.names
  {
    SGDClassifierBeforeSVC(a);
    SGDClassifierBeforeLGBMClassifier(a);
  }

  lemma SVCBeforeLinearSVC(a: string)
    requires a in SVC.names
    ensures a !in LinearSVC.names && a !in BernoulliNB.names && a !in GaussianNB.names && a !in MultinomialNB.names && a !in XGBClassifier.names && a !in LGBMClassifier.names
  {
  }

  lemma SVCBeforeCatBoostClassifier(a: string)
    requires a in SVC.names
    ensures a !in CatBoostClassifier.names
  {
  }

  lemma NotLaterThanSVC(a: string)
    requires a in SVC.names
    ensures a !in LinearSVC.names && a !in BernoulliNB.names && a !in GaussianNB.names && a !in MultinomialNB.names && a !in XGBClassifier.names && a !in LGBMClassifier.names && a !in CatBoostClassifier.names
  {
    SVCBeforeLinearSVC(a);
    SVCBeforeCatBoostClassifier(a);
  }

  lemma NotLaterThanLinearSVC(a: string)
    requires a in LinearSVC.names
    ensures a !in BernoulliNB.names && a !in GaussianNB.names && a !in MultinomialNB.names && a !in XGBClassifier.names && a !in LGBMClassifier.names && a !in CatBoostClassifier.names
  {
  }

  lemma NotLaterThanBernoulliNB(a: string)
    requires a in BernoulliNB.names
    ensures a !in GaussianNB.names && a !in MultinomialNB.names && a !in XGBClassifier.names && a !in LGBMClassifier.names && a !in CatBoostClassifier.names
  {
  }

  lemma NotLaterThanGaussianNB(a: string)
    requires a in GaussianNB.names
    ensures a !in MultinomialNB.names && a !in XGBClassifier.names && a !in LGBMClassifier.names && a !in CatBoostClassifier.names
  {
  }

  lemma NotLaterThanMultinomialNB(a: string)
    requires a in MultinomialNB.names
    ensures a !in XGBClassifier.names && a !in LGBMClassifier.names && a !in CatBoostClassifier.names
  {
  }

  lemma NotLaterThanXGBClassifier(a: string)
    requires a in XGBClassifier.names
    ensures a !in LGBMClassifier.names && a !in CatBoostClassifier.names
  {
  }

  lemma NotLaterThanLGBMClassifier(a: string)
    requires a in LGBMClassifier.names
    ensures a !in CatBoostClassifier.names
  {
  }

  /** No alias is listed by two entries, for a first entry among the ensemble
      and Gaussian-process classes and the first two linear models. */
  lemma AliasesDisjointLow(i: int, j: int, a: string)
    requires 0 <= i < 9 && i < j < |ClassifierTable| && a in ClassifierTable[i].names
    ensures a !in ClassifierTable[j].names
  {
    if i == 0 {
      assert ClassifierTable[0] == AdaBoostClassifier;
      NotLaterThanAdaBoostClassifier(a);
    }
    else if i == 1 {
      assert ClassifierTable[1] == BaggingClassifier;
      NotLaterThanBaggingClassifier(a);
    }
    else if i == 2 {
      assert ClassifierTable[2] == ExtraTreesClassifier;
      NotLaterThanExtraTreesClassifier(a);
    }
    else if i == 3 {
      assert ClassifierTable[3] == GradientBoostingClassifier;
      NotLaterThanGradientBoostingClassifier(a);
    }
    else if i == 4 {
      assert ClassifierTable[4] == RandomForestClassifier;
      NotLaterThanRandomForestClassifier(a);
    }
    else if i == 5 {
      assert ClassifierTable[5] == VotingClassifier;
      NotLaterThanVotingClassifier(a);
    }
    else if i == 6 {
      assert ClassifierTable[6] == GaussianProcessClassifier;
      NotLaterThanGaussianProcessClassifier(a);
    }
    else if i == 7 {
      assert ClassifierTable[7] == LogisticRegression;
      NotLaterThanLogisticRegression(a);
    }
    else {
      assert ClassifierTable[8] == LogisticRegressionCV;
      NotLaterThanLogisticRegressionCV(a);
    }
  }

  /** No alias is listed by two entries, for a first entry among the rest. */
  lemma AliasesDisjointHigh(i: int, j: int, a: string)
    requires 9 <= i < j < |ClassifierTable| && a in ClassifierTable[i].names
    ensures a !in ClassifierTable[j].names
  {
    if i == 9 {
      assert ClassifierTable[9] == SGDClassifier;
      NotLaterThanSGDClassifier(a);
    }
    else if i == 10 {
      assert ClassifierTable[10] == SVC;
      NotLaterThanSVC(a);
    }
    else if i == 11 {
      assert ClassifierTable[11] == LinearSVC;
      NotLaterThanLinearSVC(a);
    }
    else if i == 12 {
      assert ClassifierTable[12] == BernoulliNB;
      NotLaterThanBernoulliNB(a);
    }
    else if i == 13 {
      assert ClassifierTable[13] == GaussianNB;
      NotLaterThanGaussianNB(a);
    }
    else if i == 14 {
      assert ClassifierTable[14] == MultinomialNB;
      NotLaterThanMultinomialNB(a);
    }
    else if i == 15 {
      assert ClassifierTable[15] == XGBClassifier;
      NotLaterThanXGBClassifier(a);
    }
    else {
      assert ClassifierTable[16] == LGBMClassifier;
      NotLaterThanLGBMClassifier(a);
    }
  }

  /** No alias is listed by two entries. */
  lemma AliasesDisjoint(i: int, j: int, a: string)
    requires 0 <= i < j < |ClassifierTable| && a in ClassifierTable[i].names
    ensures a !in ClassifierTable[j].names
  {
    if i < 9 {
      AliasesDisjointLow(i, j, a);
    } else {
      AliasesDisjointHigh(i, j, a);
    }
  }

  lemma ClassifierTableUnambiguous()
    ensures Unambiguous(ClassifierTable)
  {
    forall i, j, n | 0 <= i < |ClassifierTable| && 0 <= j < |ClassifierTable| && n in ClassifierTable[i].names && n in ClassifierTable[j].names
      ensures ClassifierTable[i].Target() == ClassifierTable[j].Target()
    {
      if i < j {
        AliasesDisjoint(i, j, n);
      } else if j < i {
        AliasesDisjoint(j, i, n);
      }
    }
  }

  lemma AdaBoostClassifierNamesListed()
    ensures AdaBoostClassifier.clsName in AdaBoostClassifier.names && PyStr.Lower(AdaBoostClassifier.clsName) in AdaBoostClassifier.names
  {
    assert PyStr.Lower(AdaBoostClassifier.clsName) == AdaBoostClassifier.names[1];
  }

  lemma BaggingClassifierNamesListed()
    ensures BaggingClassifier.clsName in BaggingClassifier.names && PyStr.Lower(BaggingClassifier.clsName) in BaggingClassifier.names
  {
    assert PyStr.Lower(BaggingClassifier.clsName) == BaggingClassifier.names[1];
  }

  lemma ExtraTreesClassifierNamesListed()
    ensures ExtraTreesClassifier.clsName in ExtraTreesClassifier.names && PyStr.Lower(ExtraTreesClassifier.clsName) in ExtraTreesClassifier.names
  {
    assert PyStr.Lower(ExtraTreesClassifier.clsName) == ExtraTreesClassifier.names[1];
  }

  lemma GradientBoostingClassifierNamesListed()
    ensures GradientBoostingClassifier.clsName in GradientBoostingClassifier.names && PyStr.Lower(GradientBoostingClassifier.clsName) in GradientBoostingClassifier.names
  {
    assert PyStr.Lower(GradientBoostingClassifier.clsName) == GradientBoostingClassifier.names[1];
  }

  lemma RandomForestClassifierNamesListed()
    ensures RandomForestClassifier.clsName in RandomForestClassifier.names && PyStr.Lower(RandomForestClassifier.clsName) in RandomForestClassifier.names
  {
    assert PyStr.Lower(RandomForestClassifier.clsName) == RandomForestClassifier.names[1];
  }

  lemma VotingClassifierNamesListed()
    ensures VotingClassifier.clsName in VotingClassifier.names && PyStr.Lower(VotingClassifier.clsName) in VotingClassifier.names
  {
    assert PyStr.Lower(VotingClassifier.clsName) == VotingClassifier.names[1];
  }

  lemma GaussianProcessClassifierNamesListed()
    ensures GaussianProcessClassifier.clsName in GaussianProcessClassifier.names && PyStr.Lower(GaussianProcessClassifier.clsName) in GaussianProcessClassifier.names
  {
    assert PyStr.Lower(GaussianProcessClassifier.clsName) == GaussianProcessClassifier.names[1];
  }

  lemma LogisticRegressionNamesListed()
    ensures LogisticRegression.clsName in LogisticRegression.names && PyStr.Lower(LogisticRegression.clsName) in LogisticRegression.names
  {
    assert PyStr.Lower(LogisticRegression.clsName) == LogisticRegression.names[1];
  }

  lemma LogisticRegressionCVNamesListed()
    ensures LogisticRegressionCV.clsName in LogisticRegressionCV.names && PyStr.Lower(LogisticRegressionCV.clsName) in LogisticRegressionCV.names
  {
    assert PyStr.Lower(LogisticRegressionCV.clsName) == LogisticRegressionCV.names[1];
  }

  lemma SGDClassifierNamesListed()
    ensures SGDClassifier.clsName in SGDClassifier.names && PyStr.Lower(SGDClassifier.clsName) in SGDClassifier.names
  {
    assert PyStr.Lower(SGDClassifier.clsName) == SGDClassifier.names[1];
  }

  lemma SVCNamesListed()
    ensures SVC.clsName in SVC.names && PyStr.Lower(SVC.clsName) in SVC.names
  {
    assert PyStr.Lower(SVC.clsName) == SVC.names[1];
  }

  lemma LinearSVCNamesListed()
    ensures LinearSVC.clsName in LinearSVC.names && PyStr.Lower(LinearSVC.clsName) in LinearSVC.names
  {
    assert PyStr.Lower(LinearSVC.clsName) == LinearSVC.names[1];
  }

  lemma BernoulliNBNamesListed()
    ensures BernoulliNB.clsName in BernoulliNB.names && PyStr.Lower(BernoulliNB.clsName) in BernoulliNB.names
  {
    assert PyStr.Lower(BernoulliNB.clsName) == BernoulliNB.names[1];
  }

  lemma GaussianNBNamesListed()
    ensures GaussianNB.clsName in GaussianNB.names && PyStr.Lower(GaussianNB.clsName) in GaussianNB.names
  {
    assert PyStr.Lower(GaussianNB.clsName) == GaussianNB.names[1];
  }

  lemma MultinomialNBNamesListed()
    ensures MultinomialNB.clsName in MultinomialNB.names && PyStr.Lower(MultinomialNB.clsName) in MultinomialNB.names
  {
    assert PyStr.Lower(MultinomialNB.clsName) == MultinomialNB.names[1];
  }

  lemma XGBClassifierNamesListed()
    ensures XGBClassifier.clsName in XGBClassifier.names && PyStr.Lower(XGBClassifier.clsName) in XGBClassifier.names
  {
    assert PyStr.Lower(XGBClassifier.clsName) == XGBClassifier.names[1];
  }

  lemma LGBMClassifierNamesListed()
    ensures LGBMClassifier.clsName in LGBMClassifier.names && PyStr.Lower(LGBMClassifier.clsName) in LGBMClassifier.names
  {
    assert PyStr.Lower(LGBMClassifier.clsName) == LGBMClassifier.names[1];
  }

  lemma CatBoostClassifierNamesListed()
    ensures CatBoostClassifier.clsName in CatBoostClassifier.names && PyStr.Lower(CatBoostClassifier.clsName) in CatBoostClassifier.names
  {
    assert PyStr.Lower(CatBoostClassifier.clsName) == CatBoostClassifier.names[1];
  }

  /** The own and lower-cased names of the first nine entries are listed. */
  lemma NamesListedLow(i: int)
    requires 0 <= i < 9
    ensures ClassifierTable[i].clsName in ClassifierTable[i].names
    ensures PyStr.Lower(ClassifierTable[i].clsName) in ClassifierTable[i].names
  {
    if i == 0 {
      assert ClassifierTable[0] == AdaBoostClassifier;
      AdaBoostClassifierNamesListed();
    }
    else if i == 1 {
      assert ClassifierTable[1] == BaggingClassifier;
      BaggingClassifierNamesListed();
    }
    else if i == 2 {
      assert ClassifierTable[2] == ExtraTreesClassifier;
      ExtraTreesClassifierNamesListed();
    }
    else if i == 3 {
      assert ClassifierTable[3] == GradientBoostingClassifier;
      GradientBoostingClassifierNamesListed();
    }
    else if i == 4 {
      assert ClassifierTable[4] == RandomForestClassifier;
      RandomForestClassifierNamesListed();
    }
    else if i == 5 {
      assert ClassifierTable[5] == VotingClassifier;
      VotingClassifierNamesListed();
    }
    else if i == 6 {
      assert ClassifierTable[6] == GaussianProcessClassifier;
      GaussianProcessClassifierNamesListed();
    }
    else if i == 7 {
      assert ClassifierTable[7] == LogisticRegression;
      LogisticRegressionNamesListed();
    }
    else {
      assert ClassifierTable[8] == LogisticRegressionCV;
      LogisticRegressionCVNamesListed();
    }
  }

  /** The own and lower-cased names of the last nine entries are listed. */
  lemma NamesListedHigh(i: int)
    requires 9 <= i < |ClassifierTable|
    ensures ClassifierTable[i].clsName in ClassifierTable[i].names
    ensures PyStr.Lower(ClassifierTable[i].clsName) in ClassifierTable[i].names
  {
    if i == 9 {
      assert ClassifierTable[9] == SGDClassifier;
      SGDClassifierNamesListed();
    }
    else if i == 10 {
      assert ClassifierTable[10] == SVC;
      SVCNamesListed();
    }
    else if i == 11 {
      assert ClassifierTable[11] == LinearSVC;
      LinearSVCNamesListed();
    }
    else if i == 12 {
      assert ClassifierTable[12] == BernoulliNB;
      BernoulliNBNamesListed();
    }
    else if i == 13 {
      assert ClassifierTable[13] == GaussianNB;
      GaussianNBNamesListed();
    }
    else if i == 14 {
      assert ClassifierTable[14] == MultinomialNB;
      MultinomialNBNamesListed();
    }
    else if i == 15 {
      assert ClassifierTable[15] == XGBClassifier;
      XGBClassifierNamesListed();
    }
    else if i == 16 {
      assert ClassifierTable[16] == LGBMClassifier;
      LGBMClassifierNamesListed();
    }
    else {
      assert ClassifierTable[17] == CatBoostClassifier;
      CatBoostClassifierNamesListed();
    }
  }

  /** Every class's own name, and its lower-cased form, is one of its aliases. */
  lemma ClassifierTableNamesListed()
    ensures CanonicalListed(ClassifierTable)
    ensures LowerCaseListed(ClassifierTable)
  {
    forall i | 0 <= i < |ClassifierTable|
      ensures ClassifierTable[i].clsName in ClassifierTable[i].names
      ensures PyStr.Lower(ClassifierTable[i].clsName) in ClassifierTable[i].names
    {
      if i < 9 {
        NamesListedLow(i);
      } else {
        NamesListedHigh(i);
      }
    }
  }

  /** `classifier_cls_by_name`, up to the import: the (module, class name)
      of the entry listing `name`, or `KeyError`. */
  function ClassifierClsByName(name: string): (r: Result<ClassRef>)
    ensures r.Ok? <==> name in Aliases(ClassifierTable)
    ensures r.Err? ==> r.error == KeyError(name)
    ensures forall i :: 0 <= i < |ClassifierTable| && name in ClassifierTable[i].names ==>
      r == Ok(ClassifierTable[i].Target())
  {
    ClassifierTableUnambiguous();
    forall i | 0 <= i < |ClassifierTable| && name in ClassifierTable[i].names
      ensures Lookup(ClassifierTable, name) == Ok(ClassifierTable[i].Target())
    {
      LookupResolves(ClassifierTable, i, name);
    }
    Lookup(ClassifierTable, name)
  }

  /** The as-written table differs from the corrected one in the
      Gaussian-process entry only. */
  lemma AsWrittenIsOneEntryApart()
    ensures AsWrittenTable == ClassifierTable[6 := GaussianProcessClassifierAsWritten]
    ensures ClassifierTable[6] == GaussianProcessClassifier
  {
  }

  /** As written, the lower-cased class name `gaussianprocessclassifier` is
      not an alias, although every other class answers to its lower-cased
      name: looking it up raises `KeyError`. */
  lemma AsWrittenMissesLowerCase()
    ensures !LowerCaseListed(AsWrittenTable)
    ensures Lookup(AsWrittenTable, "gaussianprocessclassifier") == Err(KeyError("gaussianprocessclassifier"))
  {
    AsWrittenIsOneEntryApart();
    var gpc := "gaussianprocessclassifier";
    assert PyStr.Lower(AsWrittenTable[6].clsName) == gpc;
    assert gpc !in GaussianProcessClassifierAsWritten.names;
    assert gpc in ClassifierTable[6].names;
    ListedOnlyThere(6, gpc);
    assert forall i :: 0 <= i < |AsWrittenTable| ==> gpc !in AsWrittenTable[i].names;
  }

  /** A name listed by one entry of the table is listed by no other. */
  lemma ListedOnlyThere(k: int, name: string)
    requires 0 <= k < |ClassifierTable| && name in ClassifierTable[k].names
    ensures forall i :: 0 <= i < |ClassifierTable| && i != k ==> name !in ClassifierTable[i].names
  {
    forall i | 0 <= i < |ClassifierTable| && i != k
      ensures name !in ClassifierTable[i].names
    {
      if i < k {
        if name in ClassifierTable[i].names {
          AliasesDisjoint(i, k, name);
        }
      } else {
        AliasesDisjoint(k, i, name);
      }
    }
  }

  /** Apart from that one name, the as-written and the corrected tables
      resolve every name alike. */
  lemma AsWrittenAgreesElsewhere(name: string)
    requires name != "gaussianprocessclassifier"
    ensures Lookup(AsWrittenTable, name) == Lookup(ClassifierTable, name)
  {
    AsWrittenIsOneEntryApart();
    ClassifierTableUnambiguous();
    var gp := ClassifierTable[6].names;
    assert forall n :: n in GaussianProcessClassifierAsWritten.names <==> n in gp && n != "gaussianprocessclassifier";
    assert forall i :: 0 <= i < |AsWrittenTable| ==> AsWrittenTable[i].Target() == ClassifierTable[i].Target();
    assert forall i :: 0 <= i < |AsWrittenTable| ==> (name in AsWrittenTable[i].names <==> name in ClassifierTable[i].names);
    var r := Lookup(AsWrittenTable, name);
    if r.Ok? {
      var i :| 0 <= i < |AsWrittenTable| && name in AsWrittenTable[i].names && r.value == AsWrittenTable[i].Target();
      LookupResolves(ClassifierTable, i, name);
    }
  }

  /** `classifier_cls_by_name` over the table exactly as the source writes
      it: it agrees with the corrected lookup on every name but
      `gaussianprocessclassifier`, which raises `KeyError`. */
  function AsWrittenClsByName(name: string): (r: Result<ClassRef>)
    ensures r.Ok? <==> name in Aliases(AsWrittenTable)
    ensures r.Err? ==> r.error == KeyError(name)
    ensures name == "gaussianprocessclassifier" ==> r == Err(KeyError(name))
    ensures name != "gaussianprocessclassifier" ==> r == ClassifierClsByName(name)
  {
    if name == "gaussianprocessclassifier" then
      AsWrittenMissesLowerCase();
      Lookup(AsWrittenTable, name)
    else
      AsWrittenAgreesElsewhere(name);
      Lookup(AsWrittenTable, name)
  }

  /** Stating a resolution through the entry that lists the name. */
  lemma ResolvesThrough(name: string, i: int)
    requires 0 <= i < |ClassifierTable| && name in ClassifierTable[i].names
    ensures ClassifierClsByName(name) == Ok(ClassifierTable[i].Target())
  {
  }

  /** The lookups of the repository's tests and docstrings: `LogisticRegression`. */
  lemma LogisticRegressionLookups()
    ensures ClassifierClsByName("LogisticRegression") == Ok(ClassRef(LIN, "LogisticRegression"))
    ensures ClassifierClsByName("logisticregression") == Ok(ClassRef(LIN, "LogisticRegression"))
    ensures ClassifierClsByName("logreg") == Ok(ClassRef(LIN, "LogisticRegression"))
    ensures ClassifierClsByName("lr") == Ok(ClassRef(LIN, "LogisticRegression"))
  {
    assert ClassifierTable[7] == LogisticRegression;
    ResolvesThrough("LogisticRegression", 7);
    ResolvesThrough("logisticregression", 7);
    ResolvesThrough("logreg", 7);
    ResolvesThrough("lr", 7);
  }

  /** The lookups of the repository's tests: `SVC`. */
  lemma SvcLookups()
    ensures ClassifierClsByName("SVC") == Ok(ClassRef(SVM, "SVC"))
    ensures ClassifierClsByName("svc") == Ok(ClassRef(SVM, "SVC"))
    ensures ClassifierClsByName("SVM") == Ok(ClassRef(SVM, "SVC"))
    ensures ClassifierClsByName("svm") == Ok(ClassRef(SVM, "SVC"))
  {
    assert ClassifierTable[10] == SVC;
    ResolvesThrough("SVC", 10);
    ResolvesThrough("svc", 10);
    ResolvesThrough("SVM", 10);
    ResolvesThrough("svm", 10);
  }

  /** The lookups of the repository's tests: `MultinomialNB`. */
  lemma MultinomialNbLookups()
    ensures ClassifierClsByName("MultinomialNB") == Ok(ClassRef(NAIVE_BAYES, "MultinomialNB"))
    ensures ClassifierClsByName("multinomialnb") == Ok(ClassRef(NAIVE_BAYES, "MultinomialNB"))
    ensures ClassifierClsByName("mnb") == Ok(ClassRef(NAIVE_BAYES, "MultinomialNB"))
  {
    assert ClassifierTable[14] == MultinomialNB;
    ResolvesThrough("MultinomialNB", 14);
    ResolvesThrough("multinomialnb", 14);
    ResolvesThrough("mnb", 14);
  }

  /** A name that no entry lists raises `KeyError`. */
  lemma UnlistedRaises(name: string)
    requires forall i :: 0 <= i < |ClassifierTable| ==> name !in ClassifierTable[i].names
    ensures ClassifierClsByName(name) == Err(KeyError(name))
  {
  }

  /** A name no entry lists, such as `knn`, raises `KeyError`. */
  lemma UnknownNameRaises()
    ensures ClassifierClsByName("knn") == Err(KeyError("knn"))
  {
    assert "knn" !in AdaBoostClassifier.names;
    assert "knn" !in BaggingClassifier.names;
    assert "knn" !in ExtraTreesClassifier.names;
    assert "knn" !in GradientBoostingClassifier.names;
    assert "knn" !in RandomForestClassifier.names;
    assert "knn" !in VotingClassifier.names;
    assert "knn" !in GaussianProcessClassifier.names;
    assert "knn" !in LogisticRegression.names;
    assert "knn" !in LogisticRegressionCV.names;
    assert "knn" !in SGDClassifier.names;
    assert "knn" !in SVC.names;
    assert "knn" !in LinearSVC.names;
    assert "knn" !in BernoulliNB.names;
    assert "knn" !in GaussianNB.names;
    assert "knn" !in MultinomialNB.names;
    assert "knn" !in XGBClassifier.names;
    assert "knn" !in LGBMClassifier.names;
    assert "knn" !in CatBoostClassifier.names;
    UnlistedRaises("knn");
  }

  /** `classifier_by_params(name, **kwargs)`: the class `name` resolves to,
      called with the keywords its constructor's parameter list
      `signature(cls)` admits (`inspect.signature`, which does not list
      `self`). */
  function ClassifierByParams<V>(name: string, kwargs: map<string, V>, signature: ClassRef -> seq<string>): (r: Result<Instance<V>>)
    ensures r.Ok? <==> name in Aliases(ClassifierTable)
    ensures r.Err? ==> r.error == KeyError(name)
    ensures r.Ok? ==> ClassifierClsByName(name) == Ok(r.value.cls)
    ensures r.Ok? ==> forall k :: k in r.value.kwargs <==> k in kwargs && k in signature(r.value.cls) && k != "self"
    ensures r.Ok? ==> forall k :: k in r.value.kwargs ==> r.value.kwargs[k] == kwargs[k]
  {
    var cls :- ClassifierClsByName(name);
    Ok(Instantiate(cls, kwargs, signature(cls)))
  }
}
