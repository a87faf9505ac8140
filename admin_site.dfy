/**
 * `RestFulAdminSite`: the registry from model classes to the admin view
 * classes generated for them, and the extra URL patterns registered by hand.
 *
 * `register` and `unregister` take one model or an iterable of models and
 * handle them one at a time, so a failure partway leaves the changes made
 * for the earlier models in place. Each is specified by a function over
 * the registry (`RegisterAll`, `UnregisterAll`) whose properties are the
 * lemmas below.
 */
module AdminSite {
  import opened Wrappers

  /** A model class, reduced to what the registry reads: its app label and
      class name, which together identify it (Django refuses two models of
      the same name in one app), and whether its `_meta` says it is
      abstract. */
  datatype ModelClass = ModelClass(appLabel: string, name: string, isAbstract: bool)

  /** A view class: a given one, or one synthesized by `register` as
      `type("<Model>Admin", (base,), options)`. */
  datatype ViewClass =
    | ViewClass(name: string)
    | Synthesized(name: string, base: ViewClass)

  /** The view class a site uses when `register` is given none. */
  const RestFulAdminMVS: ViewClass := ViewClass("RestFulAdminMVS")

  /** The `model_or_iterable` argument: a single model class, or any
      iterable of them (given here by the order it yields them in). */
  datatype ModelOrIterable = Single(model: ModelClass) | Iterable(models: seq<ModelClass>)

  /** A hand-registered URL pattern, opaque to the registry. */
  datatype UrlPattern = UrlPattern(route: string)

  /** The three exceptions `register` and `unregister` raise. */
  datatype RegistryError =
    | ImproperlyConfigured(model: ModelClass)
    | AlreadyRegistered(model: ModelClass)
    | NotRegistered(model: ModelClass)

  type Registry = map<ModelClass, ViewClass>

  /** The error raised, if any, and the registry left behind. */
  datatype Outcome = Outcome(error: Option<RegistryError>, registry: Registry)

  /** A single model is wrapped in a one-element list. */
  function ModelList(m: ModelOrIterable): seq<ModelClass>
  {
    match m
    case Single(model) => [model]
    case Iterable(models) => models
  }

  /** `register` over the registry: for each model in turn, refuse an
      abstract one, then refuse one already present, else synthesize
      `<Model>Admin` from the current view class and store it. The view
      class variable is reassigned, so each later model's class derives
      from the class made for the model before it. */
  function RegisterAll(reg: Registry, models: seq<ModelClass>, viewClass: ViewClass): Outcome
    decreases |models|
  {
    if models == [] then Outcome(None, reg)
    else
      var m := models[0];
      if m.isAbstract then Outcome(Some(ImproperlyConfigured(m)), reg)
      else if m in reg then Outcome(Some(AlreadyRegistered(m)), reg)
      else
        var v := Synthesized(m.name + "Admin", viewClass);
        RegisterAll(reg[m := v], models[1..], v)
  }

  /** `unregister` over the registry: for each model in turn, refuse one
      that is absent, else delete its entry. */
  function UnregisterAll(reg: Registry, models: seq<ModelClass>): Outcome
    decreases |models|
  {
    if models == [] then Outcome(None, reg)
    else if models[0] !in reg then Outcome(Some(NotRegistered(models[0])), reg)
    else UnregisterAll(reg - {models[0]}, models[1..])
  }

  /** Every model of `models` can be registered in turn: none is abstract,
      none is already in `reg`, and none occurs twice. */
  ghost predicate Registrable(reg: Registry, models: seq<ModelClass>)
  {
    (forall i :: 0 <= i < |models| ==> !models[i].isAbstract && models[i] !in reg) &&
    (forall i, j :: 0 <= i < j < |models| ==> models[i] != models[j])
  }

  /** Every model of `models` can be unregistered in turn: each is in `reg`
      and none occurs twice. */
  ghost predicate Unregistrable(reg: Registry, models: seq<ModelClass>)
  {
    (forall i :: 0 <= i < |models| ==> models[i] in reg) &&
    (forall i, j :: 0 <= i < j < |models| ==> models[i] != models[j])
  }

  function ElementsOf(models: seq<ModelClass>): (s: set<ModelClass>)
    ensures forall m :: m in s <==> m in models
  {
    set m | m in models
  }

  // ---------------------------------------------------------------------
  // Register
  // ---------------------------------------------------------------------

  /** Whatever the models, `register` never overwrites or removes an entry,
      adds only models of `models` and never an abstract one, and any error
      it raises is ImproperlyConfigured or AlreadyRegistered for a model of
      `models`. */
  lemma {:induction false} RegisterOnlyAdds(reg: Registry, models: seq<ModelClass>, viewClass: ViewClass)
    ensures var o := RegisterAll(reg, models, viewClass);
      (forall m :: m in reg ==> m in o.registry && o.registry[m] == reg[m]) &&
      (forall m :: m in o.registry && m !in reg ==> m in models && !m.isAbstract) &&
      (o.error.Some? ==> !o.error.value.NotRegistered? && o.error.value.model in models)
    decreases |models|
  {
    if models != [] && !models[0].isAbstract && models[0] !in reg {
      var m := models[0];
      var v := Synthesized(m.name + "Admin", viewClass);
      RegisterOnlyAdds(reg[m := v], models[1..], v);
      assert models == [m] + models[1..];
    }
  }

  /** When every model can be registered, `register` raises nothing, adds
      exactly those models and keeps every earlier entry. */
  lemma {:induction false} RegisterSucceeds(reg: Registry, models: seq<ModelClass>, viewClass: ViewClass)
    requires Registrable(reg, models)
    ensures RegisterAll(reg, models, viewClass).error == None
    ensures RegisterAll(reg, models, viewClass).registry.Keys == reg.Keys + ElementsOf(models)
    ensures forall m :: m in reg ==> RegisterAll(reg, models, viewClass).registry[m] == reg[m]
    decreases |models|
  {
    if models != [] {
      var m := models[0];
      var v := Synthesized(m.name + "Admin", viewClass);
      assert Registrable(reg[m := v], models[1..]) by {
        forall i | 0 <= i < |models[1..]| ensures models[1..][i] != m {
          assert models[0] != models[i + 1];
        }
      }
      RegisterSucceeds(reg[m := v], models[1..], v);
      assert ElementsOf(models) == {m} + ElementsOf(models[1..]) by {
        assert models == [m] + models[1..];
      }
    }
  }

  /** When the models before index `i` can be registered and the one at `i`
      cannot, `register` raises at `i`: ImproperlyConfigured for an abstract
      model, checked before AlreadyRegistered for a duplicate. The models
      before `i` stay registered and every earlier entry is kept. */
  lemma {:induction false} RegisterStopsAtFirstFailure(reg: Registry, models: seq<ModelClass>,
                                                       viewClass: ViewClass, i: nat)
    requires i < |models| && Registrable(reg, models[..i])
    requires models[i].isAbstract || models[i] in reg || models[i] in models[..i]
    ensures RegisterAll(reg, models, viewClass).error ==
      Some(if models[i].isAbstract then ImproperlyConfigured(models[i]) else AlreadyRegistered(models[i]))
    ensures RegisterAll(reg, models, viewClass).registry.Keys == reg.Keys + ElementsOf(models[..i])
    ensures forall m :: m in reg ==> RegisterAll(reg, models, viewClass).registry[m] == reg[m]
    decreases i
  {
    var m := models[0];
    if i == 0 {
      assert models[..0] == [];
    } else {
      assert !m.isAbstract && m !in reg by { assert models[..i][0] == m; }
      var v := Synthesized(m.name + "Admin", viewClass);
      var tail := models[1..];
      assert tail[..i - 1] == models[1..i];
      assert models[..i] == [m] + tail[..i - 1];
      assert Registrable(reg[m := v], tail[..i - 1]) by {
        var pre := tail[..i - 1];
        forall k | 0 <= k < |pre| ensures pre[k] != m {
          assert models[..i][0] != models[..i][k + 1];
        }
      }
      assert tail[i - 1] == models[i];
      assert models[i].isAbstract || models[i] in reg[m := v] || models[i] in tail[..i - 1];
      RegisterStopsAtFirstFailure(reg[m := v], tail, v, i - 1);
    }
  }

  /** Register followed by unregister of the same models restores the
      registry. */
  lemma {:induction false} UnregisterUndoesRegister(reg: Registry, models: seq<ModelClass>,
                                                    viewClass: ViewClass)
    requires Registrable(reg, models)
    ensures UnregisterAll(RegisterAll(reg, models, viewClass).registry, models) == Outcome(None, reg)
  {
    var after := RegisterAll(reg, models, viewClass).registry;
    RegisterSucceeds(reg, models, viewClass);
    assert Unregistrable(after, models);
    UnregisterSucceeds(after, models);
    assert UnregisterAll(after, models).registry == reg;
  }

  /** The synthesized class of each newly registered model derives from the
      one synthesized for the model before it; the first derives from the
      view class given. */
  lemma {:induction false} RegisterChainsViewClasses(reg: Registry, models: seq<ModelClass>,
                                                     viewClass: ViewClass, i: nat)
    requires Registrable(reg, models) && i < |models|
    ensures var r := RegisterAll(reg, models, viewClass).registry;
      models[i] in r && (i > 0 ==> models[i - 1] in r) &&
      r[models[i]] == Synthesized(models[i].name + "Admin",
                                  if i == 0 then viewClass else r[models[i - 1]])
    decreases i
  {
    var m := models[0];
    var v := Synthesized(m.name + "Admin", viewClass);
    var tail := models[1..];
    assert Registrable(reg[m := v], tail) by {
      forall k | 0 <= k < |tail| ensures tail[k] != m {
        assert models[0] != models[k + 1];
      }
    }
    RegisterSucceeds(reg[m := v], tail, v);
    if i > 0 {
      RegisterChainsViewClasses(reg[m := v], tail, v, i - 1);
      if i == 1 {
        assert tail[0] != m by { assert models[0] != models[1]; }
      }
    }
  }

  // ---------------------------------------------------------------------
  // Unregister
  // ---------------------------------------------------------------------

  /** Whatever the models, `unregister` never adds or rebinds an entry,
      removes only models of `models`, and any error it raises is
      NotRegistered for a model of `models`. */
  lemma {:induction false} UnregisterOnlyRemoves(reg: Registry, models: seq<ModelClass>)
    ensures var o := UnregisterAll(reg, models);
      (forall m :: m in o.registry ==> m in reg && o.registry[m] == reg[m]) &&
      (forall m :: m in reg && m !in models ==> m in o.registry) &&
      (o.error.Some? ==> o.error.value.NotRegistered? && o.error.value.model in models)
    decreases |models|
  {
    if models != [] && models[0] in reg {
      UnregisterOnlyRemoves(reg - {models[0]}, models[1..]);
      assert models == [models[0]] + models[1..];
    }
  }

  /** When every model can be unregistered, `unregister` raises nothing and
      removes exactly those models. */
  lemma {:induction false} UnregisterSucceeds(reg: Registry, models: seq<ModelClass>)
    requires Unregistrable(reg, models)
    ensures UnregisterAll(reg, models) == Outcome(None, reg - ElementsOf(models))
    decreases |models|
  {
    if models != [] {
      var m := models[0];
      assert Unregistrable(reg - {m}, models[1..]) by {
        forall i | 0 <= i < |models[1..]| ensures models[1..][i] != m {
          assert models[0] != models[i + 1];
        }
      }
      UnregisterSucceeds(reg - {m}, models[1..]);
      assert ElementsOf(models) == {m} + ElementsOf(models[1..]) by {
        assert models == [m] + models[1..];
      }
    }
  }

  /** When the models before index `i` can be unregistered and the one at
      `i` is then absent, `unregister` raises NotRegistered for it; the models
      before `i` stay removed. */
  lemma {:induction false} UnregisterStopsAtFirstFailure(reg: Registry, models: seq<ModelClass>, i: nat)
    requires i < |models| && Unregistrable(reg, models[..i])
    requires models[i] !in reg || models[i] in models[..i]
    ensures UnregisterAll(reg, models) ==
      Outcome(Some(NotRegistered(models[i])), reg - ElementsOf(models[..i]))
    decreases i
  {
    var m := models[0];
    if i == 0 {
      assert models[..0] == [];
    } else {
      assert m in reg by { assert models[..i][0] == m; }
      var tail := models[1..];
      assert tail[..i - 1] == models[1..i];
      assert models[..i] == [m] + tail[..i - 1];
      assert Unregistrable(reg - {m}, tail[..i - 1]) by {
        var pre := tail[..i - 1];
        forall k | 0 <= k < |pre| ensures pre[k] != m {
          assert models[..i][0] != models[..i][k + 1];
        }
      }
      assert tail[i - 1] == models[i];
      assert models[i] !in reg - {m} || models[i] in tail[..i - 1];
      UnregisterStopsAtFirstFailure(reg - {m}, tail, i - 1);
      assert reg - {m} - ElementsOf(tail[..i - 1]) == reg - ElementsOf(models[..i]);
    }
  }

  // ---------------------------------------------------------------------
  // The site object
  // ---------------------------------------------------------------------

  class RestFulAdminSite {
    /** `_registry`: model class to generated view class. */
    var registry: Registry
    /** `_url_patterns`: URL patterns registered by hand, in order. */
    var urlPatterns: seq<UrlPattern>
    /** `default_view_class`. */
    const defaultViewClass: ViewClass

    /** `register` refuses abstract models, so none is ever registered. */
    ghost predicate Valid()
      reads this
    {
      forall m :: m in registry ==> !m.isAbstract
    }

    /** `RestFulAdminSite(view_class)`: an empty site; an omitted view class
        means `RestFulAdminMVS`. `None` stands for the omitted argument only:
        an explicit `None`, which the site would store and later fail on when
        deriving a class from it, is not modelled. */
    constructor (viewClass: Option<ViewClass>)
      ensures Valid()
      ensures registry == map[] && urlPatterns == []
      ensures defaultViewClass == if viewClass.Some? then viewClass.value else RestFulAdminMVS
    {
      registry := map[];
      urlPatterns := [];
      defaultViewClass := if viewClass.Some? then viewClass.value else RestFulAdminMVS;
    }

    /** `is_registered(model)`: whether the registry holds `model`; never
        true of an abstract model. */
    function IsRegistered(model: ModelClass): (b: bool)
      requires Valid()
      reads this
      ensures model.isAbstract ==> !b
    {
      model in registry
    }

    /** `register(model_or_iterable, view_class)`: the error raised, if any;
        the registry ends as `RegisterAll` says. A missing view class means
        the site's default. */
    method Register(modelOrIterable: ModelOrIterable, viewClass: Option<ViewClass>)
      returns (err: Option<RegistryError>)
      requires Valid()
      modifies this`registry
      ensures Valid()
      ensures var o := RegisterAll(old(registry), ModelList(modelOrIterable),
                                   if viewClass.Some? then viewClass.value else defaultViewClass);
              err == o.error && registry == o.registry
      ensures err == None ==> forall m :: m in ModelList(modelOrIterable) ==> IsRegistered(m)
    {
      var vc := if viewClass.Some? then viewClass.value else defaultViewClass;
      var models := ModelList(modelOrIterable);
      ghost var reg0 := registry;
      var i := 0;
      while i < |models|
        invariant 0 <= i <= |models|
        invariant RegisterAll(reg0, models, if viewClass.Some? then viewClass.value else defaultViewClass)
                  == RegisterAll(registry, models[i..], vc)
        invariant forall k :: 0 <= k < i ==> models[k] in registry
        invariant Valid()
      {
        var model := models[i];
        assert models[i..][1..] == models[i + 1..];
        if model.isAbstract {
          return Some(ImproperlyConfigured(model));
        }
        if model in registry {
          return Some(AlreadyRegistered(model));
        }
        var v := Synthesized(model.name + "Admin", vc);
        vc := v;
        registry := registry[model := v];
        i := i + 1;
      }
      err := None;
    }

    /** `register_decorator(*models)(view_class)`: registers the models with
        the decorated view class and hands the class back unchanged. */
    method RegisterDecorated(models: seq<ModelClass>, viewClass: ViewClass)
      returns (decorated: ViewClass, err: Option<RegistryError>)
      requires Valid()
      modifies this`registry
      ensures Valid()
      ensures decorated == viewClass
      ensures var o := RegisterAll(old(registry), models, viewClass);
              err == o.error && registry == o.registry
    {
      err := Register(Iterable(models), Some(viewClass));
      decorated := viewClass;
    }

    /** `unregister(model_or_iterable)`: the error raised, if any; the
        registry ends as `UnregisterAll` says. */
    method Unregister(modelOrIterable: ModelOrIterable) returns (err: Option<RegistryError>)
      requires Valid()
      modifies this`registry
      ensures Valid()
      ensures var o := UnregisterAll(old(registry), ModelList(modelOrIterable));
              err == o.error && registry == o.registry
      ensures err == None ==> forall m :: m in ModelList(modelOrIterable) ==> !IsRegistered(m)
    {
      var models := ModelList(modelOrIterable);
      ghost var reg0 := registry;
      var i := 0;
      while i < |models|
        invariant 0 <= i <= |models|
        invariant UnregisterAll(reg0, models) == UnregisterAll(registry, models[i..])
        invariant forall k :: 0 <= k < i ==> models[k] !in registry
        invariant Valid()
      {
        var model := models[i];
        assert models[i..][1..] == models[i + 1..];
        if model !in registry {
          return Some(NotRegistered(model));
        }
        registry := registry - {model};
        i := i + 1;
      }
      err := None;
    }

    /** `register_url_pattern(url_pattern)`: appends to the hand-registered
        patterns. */
    method RegisterUrlPattern(urlPattern: UrlPattern)
      modifies this`urlPatterns
      ensures urlPatterns == old(urlPatterns) + [urlPattern]
    {
      urlPatterns := urlPatterns + [urlPattern];
    }
  }
}
