/** `scaler_cls_by_name` and `scaler_by_params` of the older
    skutil/preprocessing/scale.py, which takes the constructor's parameters
    from `inspect.getargspec(klass).args`: for a constructor whose parameters
    are all positional-or-keyword and unannotated, the same names as
    `inspect.signature`, preceded by `self`. Other constructors make
    `getargspec` raise, which the model does not represent. */
module LegacyScale {
  import opened Wrappers
  import opened KwargsFilter
  import Scale

  /** `inspect.getargspec(klass).args` for a constructor whose parameters
      after `self` are `params`. */
  function ArgSpecArgs(params: seq<string>): (args: seq<string>)
    ensures |args| > 0 && args[0] == "self"
    ensures args[1..] == params
  {
    ["self"] + params
  }

  /** `scaler_by_params(name, **kwargs)`, screening against the argument list
      that still holds `self`. */
  function ScalerByParams<V>(name: string, kwargs: map<string, V>, exports: set<string>,
                             params: string -> seq<string>): (r: Result<Instance<V>>)
    ensures r.Ok? <==> name in exports
    ensures r.Err? ==> r.error == AttributeError(name)
    ensures r.Ok? ==> r.value.cls == ClassRef(Scale.PREPROCESSING, name)
    ensures r.Ok? ==> "self" !in r.value.kwargs
    ensures r.Ok? ==> forall k :: k in r.value.kwargs ==> k in kwargs && k in params(name) && r.value.kwargs[k] == kwargs[k]
    ensures r.Ok? ==> forall k :: k in kwargs && k in params(name) && k != "self" ==> k in r.value.kwargs
  {
    var cls :- Scale.ScalerClsByName(name, exports);
    Ok(Instantiate(cls, kwargs, ArgSpecArgs(params(cls.clsName))))
  }

  /** Even a caller passing `self=...` does not get it forwarded, although
      the argument list names it. */
  lemma SelfNeverForwarded<V>(name: string, kwargs: map<string, V>, exports: set<string>,
                              params: string -> seq<string>, value: V)
    requires name in exports
    ensures "self" in ArgSpecArgs(params(name))
    ensures "self" !in ScalerByParams(name, kwargs["self" := value], exports, params).value.kwargs
  {
  }

  /** The older and the newer helper build the same call: the `self` in the
      older argument list makes no difference. */
  lemma AgreesWithNewer<V>(name: string, kwargs: map<string, V>, exports: set<string>,
                           params: string -> seq<string>)
    ensures ScalerByParams(name, kwargs, exports, params) == Scale.ScalerByParams(name, kwargs, exports, params)
  {
    if name in exports {
      SelfInSignatureIrrelevant(kwargs, params(name));
    }
  }
}
