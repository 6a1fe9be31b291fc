/** The alias tables of both classifier maps: a table from class name to
    (module, alias list) and its inversion into a map from alias to
    (module, class name), built by the module-level loop of
    src/skutil/estimators/classifier_map.py and
    skutil/estimators/classifier_map.py. */
module AliasTable {
  import opened Wrappers
  import opened KwargsFilter
  import PyStr

  /** One entry of `_CLS_NAME_TO_PARAM_MAP`: the class name (the dict key),
      its `"module"` and its `"names"`. */
  datatype Entry = Entry(clsName: string, modulePath: string, names: seq<string>) {
    /** `(params["module"], cls_name)`, the value each alias is sent to. */
    function Target(): ClassRef {
      ClassRef(modulePath, clsName)
    }
  }

  /** The table, in the dict's insertion order. */
  type Table = seq<Entry>

  /** Every alias some entry lists. */
  function Aliases(t: Table): set<string> {
    set i, n | 0 <= i < |t| && n in t[i].names :: n
  }

  /** No alias is listed by two entries that send it to different places. */
  predicate Unambiguous(t: Table) {
    forall i, j, n :: 0 <= i < |t| && 0 <= j < |t| && n in t[i].names && n in t[j].names ==>
      t[i].Target() == t[j].Target()
  }

  /** `for _name in names: m[_name] = target`: later assignments overwrite. */
  function Assign(m: map<string, ClassRef>, names: seq<string>, target: ClassRef): (r: map<string, ClassRef>)
    ensures forall n :: n in r <==> n in m || n in names
    ensures forall n :: n in names ==> r[n] == target
    ensures forall n :: n in m && n !in names ==> r[n] == m[n]
    decreases |names|
  {
    if |names| == 0 then m
    else Assign(m[names[0] := target], names[1..], target)
  }

  /** The inversion loop over the entries of `t`, starting from `m`. */
  function Build(m: map<string, ClassRef>, t: Table): (r: map<string, ClassRef>)
    ensures r.Keys == m.Keys + Aliases(t)
    ensures forall n :: n in m && n !in Aliases(t) ==> r[n] == m[n]
    decreases |t|
  {
    if |t| == 0 then m
    else
      assert Aliases(t) == (set n | n in t[0].names) + Aliases(t[1..]) by {
        forall n | n in Aliases(t) ensures n in t[0].names || n in Aliases(t[1..]) {
          var i :| 0 <= i < |t| && n in t[i].names;
          if i > 0 {
            assert t[1..][i - 1] == t[i];
          }
        }
        forall n | n in Aliases(t[1..]) ensures n in Aliases(t) {
          var i :| 0 <= i < |t[1..]| && n in t[1..][i].names;
          assert t[i + 1] == t[1..][i];
        }
      }
      Build(Assign(m, t[0].names, t[0].Target()), t[1..])
  }

  /** `_NAME_TO_MODULE_N_CLS_MAP` */
  function Invert(t: Table): map<string, ClassRef> {
    Build(map[], t)
  }

  /** The inverted map's domain is exactly the union of the alias lists. */
  lemma InvertDomain(t: Table)
    ensures Invert(t).Keys == Aliases(t)
  {
  }

  /** Every alias ends up sent to the target of SOME entry listing it (the
      last one, since later entries overwrite). */
  lemma {:induction false} BuildFromSomeEntry(m: map<string, ClassRef>, t: Table, n: string)
    requires n in Aliases(t)
    ensures exists i :: 0 <= i < |t| && n in t[i].names && Build(m, t)[n] == t[i].Target()
    decreases |t|
  {
    var m' := Assign(m, t[0].names, t[0].Target());
    if n in Aliases(t[1..]) {
      BuildFromSomeEntry(m', t[1..], n);
      var i :| 0 <= i < |t[1..]| && n in t[1..][i].names && Build(m', t[1..])[n] == t[1..][i].Target();
      assert t[i + 1] == t[1..][i];
    } else {
      assert n in t[0].names;
      assert Build(m, t)[n] == m'[n] == t[0].Target();
    }
  }

  /** In an unambiguous table, every alias of every entry resolves to that
      entry's (module, class name). */
  lemma InvertResolves(t: Table, i: int, n: string)
    requires Unambiguous(t)
    requires 0 <= i < |t| && n in t[i].names
    ensures n in Invert(t) && Invert(t)[n] == t[i].Target()
  {
    assert n in Aliases(t);
    BuildFromSomeEntry(map[], t, n);
  }

  /** In an unambiguous table the order of the entries does not matter: any
      table with the same entries inverts to the same map. */
  lemma InvertOrderIndependent(t: Table, u: Table)
    requires Unambiguous(t)
    requires forall e :: e in t <==> e in u
    ensures Invert(t) == Invert(u)
  {
    assert Aliases(t) == Aliases(u) by {
      forall n | n in Aliases(t) ensures n in Aliases(u) {
        var i :| 0 <= i < |t| && n in t[i].names;
        assert t[i] in u;
      }
      forall n | n in Aliases(u) ensures n in Aliases(t) {
        var i :| 0 <= i < |u| && n in u[i].names;
        assert u[i] in t;
      }
    }
    forall n | n in Aliases(t) ensures Invert(t)[n] == Invert(u)[n] {
      BuildFromSomeEntry(map[], u, n);
      var j :| 0 <= j < |u| && n in u[j].names && Invert(u)[n] == u[j].Target();
      assert u[j] in t;
      var i :| 0 <= i < |t| && t[i] == u[j];
      InvertResolves(t, i, n);
    }
  }

  /** `_NAME_TO_MODULE_N_CLS_MAP[name]`: a name no entry lists raises
      `KeyError`. */
  function Lookup(t: Table, name: string): (r: Result<ClassRef>)
    ensures r.Ok? <==> name in Aliases(t)
    ensures r.Err? ==> r.error == KeyError(name)
    ensures r.Ok? ==> exists i :: 0 <= i < |t| && name in t[i].names && r.value == t[i].Target()
  {
    if name in Invert(t) then
      BuildFromSomeEntry(map[], t, name);
      Ok(Invert(t)[name])
    else
      Err(KeyError(name))
  }

  /** In an unambiguous table, looking up any alias of an entry gives that
      entry's (module, class name). */
  lemma LookupResolves(t: Table, i: int, name: string)
    requires Unambiguous(t)
    requires 0 <= i < |t| && name in t[i].names
    ensures Lookup(t, name) == Ok(t[i].Target())
  {
    InvertResolves(t, i, name);
  }

  /** Each class's own name is one of its aliases. */
  predicate CanonicalListed(t: Table) {
    forall i :: 0 <= i < |t| ==> t[i].clsName in t[i].names
  }

  /** Each class's name, lower-cased, is one of its aliases (the docstrings'
      "can also be lower-cased"). */
  predicate LowerCaseListed(t: Table) {
    forall i :: 0 <= i < |t| ==> PyStr.Lower(t[i].clsName) in t[i].names
  }

  /** Looking up an entry's class name in an unambiguous table whose class
      names are their own aliases gives that entry's class. */
  lemma CanonicalResolves(t: Table, i: int)
    requires Unambiguous(t) && CanonicalListed(t)
    requires 0 <= i < |t|
    ensures Lookup(t, t[i].clsName) == Ok(t[i].Target())
  {
    LookupResolves(t, i, t[i].clsName);
  }

  /** Likewise for the lower-cased class name. */
  lemma LowerCaseResolves(t: Table, i: int)
    requires Unambiguous(t) && LowerCaseListed(t)
    requires 0 <= i < |t|
    ensures Lookup(t, PyStr.Lower(t[i].clsName)) == Ok(t[i].Target())
  {
    LookupResolves(t, i, PyStr.Lower(t[i].clsName));
  }
}
