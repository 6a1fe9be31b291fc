/** `scaler_cls_by_name` and `scaler_by_params` of
    src/skutil/preprocessing/scale.py. The scikit-learn module is not
    modelled: `exports` stands for the names `sklearn.preprocessing`
    defines, and `signature` for the parameter names `inspect.signature`
    reports for a class's constructor (without `self`). */
module Scale {
  import opened Wrappers
  import opened KwargsFilter

  const PREPROCESSING := "sklearn.preprocessing"

  /** `getattr(sklearn.preprocessing, cls_name)`: a name the module does not
      define raises `AttributeError`. */
  function ScalerClsByName(clsName: string, exports: set<string>): (r: Result<ClassRef>)
    ensures r.Ok? <==> clsName in exports
    ensures r.Ok? ==> r.value == ClassRef(PREPROCESSING, clsName)
    ensures r.Err? ==> r.error == AttributeError(clsName)
  {
    if clsName in exports then Ok(ClassRef(PREPROCESSING, clsName)) else Err(AttributeError(clsName))
  }

  /** `scaler_by_params(name, **kwargs)`: the scaler class called with exactly
      those keywords its constructor accepts, other than `self`. */
  function ScalerByParams<V>(name: string, kwargs: map<string, V>, exports: set<string>,
                             signature: string -> seq<string>): (r: Result<Instance<V>>)
    ensures r.Ok? <==> name in exports
    ensures r.Err? ==> r.error == AttributeError(name)
    ensures r.Ok? ==> r.value.cls == ClassRef(PREPROCESSING, name)
    ensures r.Ok? ==> forall k :: k in r.value.kwargs ==> k in kwargs && k in signature(name) && k != "self"
    ensures r.Ok? ==> forall k :: k in r.value.kwargs ==> r.value.kwargs[k] == kwargs[k]
    ensures r.Ok? ==> forall k :: k in kwargs && k in signature(name) && k != "self" ==> k in r.value.kwargs
  {
    var cls :- ScalerClsByName(name, exports);
    Ok(Instantiate(cls, kwargs, signature(cls.clsName)))
  }

  /** With no keywords given, the scaler is built with its defaults. */
  lemma NoKeywordsNoArguments<V>(name: string, exports: set<string>, signature: string -> seq<string>)
    requires name in exports
    ensures ScalerByParams<V>(name, map[], exports, signature) == Ok(Instance(ClassRef(PREPROCESSING, name), map[]))
  {
    var r: Result<Instance<V>> := ScalerByParams(name, map[], exports, signature);
    assert r.value.kwargs == map[];
  }

  /** A keyword the constructor does not accept is dropped without error:
      the call is the same as without it. */
  lemma UnsupportedKeywordIgnored<V>(name: string, kwargs: map<string, V>, exports: set<string>,
                                     signature: string -> seq<string>, key: string, value: V)
    requires key !in signature(name)
    ensures ScalerByParams(name, kwargs[key := value], exports, signature) == ScalerByParams(name, kwargs, exports, signature)
  {
    UnsupportedKeywordDiscarded(kwargs, signature(name), key, value);
  }
}
