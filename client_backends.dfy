/**
 * The client backends that `Configuration#initialize_client` loads, and the part of the shared
 * `Rpush` namespace it changes: the set of included backend modules and the four message-type
 * constants `Apns`, `Gcm`, `Wpns` and `Adm`.
 */
module ClientBackends {

  /** The constant names published for the four delivery protocols. */
  datatype Service = Apns | Gcm | Wpns | Adm

  /** The order in which `initialize_client` visits them: `[:Apns, :Gcm, :Wpns, :Adm]`. */
  const Services: seq<Service> := [Apns, Gcm, Wpns, Adm]

  /** A class supplied by a backend module, named by its qualified constant path. */
  type TypeTag = string

  /**
   * A loadable backend: the module `Rpush::Client::<Name>` and the class it defines under each
   * of the four service names (what `client_module.const_get(service)` returns).
   */
  datatype Backend = Backend(moduleName: string, apns: TypeTag, gcm: TypeTag, wpns: TypeTag, adm: TypeTag) {

    function TypeFor(s: Service): TypeTag
    {
      match s
      case Apns => apns
      case Gcm => gcm
      case Wpns => wpns
      case Adm => adm
    }
  }

  /** The `Rpush` namespace as far as client initialisation sees it. */
  datatype Namespace = Namespace(included: set<string>, bindings: map<Service, TypeTag>)

  /** Every binding of `before` is still present, with the same value, in `after`. */
  predicate Extends(before: map<Service, TypeTag>, after: map<Service, TypeTag>)
  {
    forall s :: s in before ==> s in after && after[s] == before[s]
  }

  /** The namespace only ever grows: no module is un-included and no binding is removed or replaced. */
  predicate Grows(before: Namespace, after: Namespace)
  {
    before.included <= after.included && Extends(before.bindings, after.bindings)
  }

  /** All four message types are bound. */
  predicate AllBound(bindings: map<Service, TypeTag>)
  {
    forall s: Service :: s in bindings
  }

  /** `Rpush.send(:include, client_module) unless Rpush.ancestors.include?(client_module)`. */
  function Include(included: set<string>, b: Backend): (r: set<string>)
    ensures r == included + {b.moduleName}
  {
    if b.moduleName in included then included else included + {b.moduleName}
  }

  /**
   * The first `n` iterations of the `const_set` loop: each service name that is not yet
   * defined is bound to the backend's class; a name already defined is left alone.
   */
  function BindMissing(bindings: map<Service, TypeTag>, b: Backend, n: nat): (r: map<Service, TypeTag>)
    requires n <= |Services|
    ensures Extends(bindings, r)
    ensures forall s :: s in r <==> s in bindings || s in Services[..n]
    ensures forall s :: s in Services[..n] && s !in bindings ==> r[s] == b.TypeFor(s)
  {
    if n == 0 then bindings
    else
      var before := BindMissing(bindings, b, n - 1);
      var s := Services[n - 1];
      assert Services[..n] == Services[..n - 1] + [s];
      if s in before then before else before[s := b.TypeFor(s)]
  }

  /** After the whole loop every service is bound, old bindings win, and new ones come from `b`. */
  lemma BindAll(bindings: map<Service, TypeTag>, b: Backend)
    ensures AllBound(BindMissing(bindings, b, |Services|))
    ensures forall s :: s in bindings ==> BindMissing(bindings, b, |Services|)[s] == bindings[s]
    ensures forall s :: s !in bindings ==> BindMissing(bindings, b, |Services|)[s] == b.TypeFor(s)
  {
    assert Services[..|Services|] == Services;
    forall s: Service ensures s in Services {
      match s
      case Apns => assert Services[0] == s;
      case Gcm => assert Services[1] == s;
      case Wpns => assert Services[2] == s;
      case Adm => assert Services[3] == s;
    }
  }
}
