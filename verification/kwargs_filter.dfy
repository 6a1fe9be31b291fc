/** The keyword-argument screening shared by `classifier_by_params` and
    `scaler_by_params`: a keyword is forwarded to the constructor exactly when
    the constructor's signature lists it and it is not `self`. */
module KwargsFilter {

  /** A class, as the module it lives in and its name there. */
  datatype ClassRef = ClassRef(modulePath: string, clsName: string)

  /** `klass(**kwargs)`: the class called and the keywords it receives. */
  datatype Instance<V> = Instance(cls: ClassRef, kwargs: map<string, V>)

  /** `{key: kwargs[key] for key in kwargs if key in allowed and key != "self"}` */
  function FilterKwargs<V>(kwargs: map<string, V>, allowed: seq<string>): (r: map<string, V>)
    ensures forall k :: k in r <==> k in kwargs && k in allowed && k != "self"
    ensures forall k :: k in r ==> r[k] == kwargs[k]
  {
    map k | k in kwargs && k in allowed && k != "self" :: kwargs[k]
  }

  /** The forwarded keywords are a sub-dictionary of those given. */
  lemma FilterIsSubDict<V>(kwargs: map<string, V>, allowed: seq<string>)
    ensures FilterKwargs(kwargs, allowed).Keys <= kwargs.Keys
    ensures "self" !in FilterKwargs(kwargs, allowed)
  {
  }

  /** Screening twice against the same signature changes nothing. */
  lemma FilterIdempotent<V>(kwargs: map<string, V>, allowed: seq<string>)
    ensures FilterKwargs(FilterKwargs(kwargs, allowed), allowed) == FilterKwargs(kwargs, allowed)
  {
    var once := FilterKwargs(kwargs, allowed);
    assert FilterKwargs(once, allowed).Keys == once.Keys;
  }

  /** When every given keyword is supported (and none is `self`), all of them
      are forwarded unchanged. */
  lemma FilterKeepsSupported<V>(kwargs: map<string, V>, allowed: seq<string>)
    requires forall k :: k in kwargs ==> k in allowed && k != "self"
    ensures FilterKwargs(kwargs, allowed) == kwargs
  {
    assert FilterKwargs(kwargs, allowed).Keys == kwargs.Keys;
  }

  /** An extra keyword the signature does not list is discarded silently: the
      constructor sees the same arguments as without it. */
  lemma UnsupportedKeywordDiscarded<V>(kwargs: map<string, V>, allowed: seq<string>, key: string, value: V)
    requires key !in allowed
    ensures FilterKwargs(kwargs[key := value], allowed) == FilterKwargs(kwargs, allowed)
  {
    assert FilterKwargs(kwargs[key := value], allowed).Keys == FilterKwargs(kwargs, allowed).Keys;
  }

  /** Whether the signature lists `self` (as `inspect.getargspec` does) or not
      (as `inspect.signature` on a class does) makes no difference. */
  lemma SelfInSignatureIrrelevant<V>(kwargs: map<string, V>, allowed: seq<string>)
    ensures FilterKwargs(kwargs, ["self"] + allowed) == FilterKwargs(kwargs, allowed)
  {
    assert FilterKwargs(kwargs, ["self"] + allowed).Keys == FilterKwargs(kwargs, allowed).Keys;
  }

  /** Only the set of names the signature lists matters, not their order or
      repetitions. */
  lemma SignatureOrderIrrelevant<V>(kwargs: map<string, V>, allowed: seq<string>, other: seq<string>)
    requires forall k :: k in allowed <==> k in other
    ensures FilterKwargs(kwargs, allowed) == FilterKwargs(kwargs, other)
  {
    assert FilterKwargs(kwargs, allowed).Keys == FilterKwargs(kwargs, other).Keys;
  }

  /** `klass(**{k: kwargs[k] for k in kwargs if k in allowed and k != "self"})`
      with `allowed` the constructor's parameter names. */
  function Instantiate<V>(cls: ClassRef, kwargs: map<string, V>, allowed: seq<string>): (r: Instance<V>)
    ensures r.cls == cls
    ensures r.kwargs.Keys <= kwargs.Keys
    ensures forall k :: k in r.kwargs ==> k in allowed && k != "self" && r.kwargs[k] == kwargs[k]
    ensures forall k :: k in kwargs && k in allowed && k != "self" ==> k in r.kwargs
  {
    Instance(cls, FilterKwargs(kwargs, allowed))
  }
}
