/**
 * Permission resolution of the generated admin views: the default
 * action-to-permission table, its merge with a view's own `permission_map`
 * and with the `permission` attached by the `action` decorator, and the
 * dispatch on the kind of rule found.
 */
module Permissions {
  import opened Wrappers

  /** A rule in a permission map: the three kinds of value the resolver
      distinguishes, plus the `None` that the `action` decorator stores when
      it is given no permission. */
  datatype Perm =
    | Fixed(allowed: bool)   // a boolean, returned as is
    | Code(code: string)     // a permission code, checked against the user
    | Predicate(id: nat)     // a callable, identified by `id` and run by an oracle
    | Unset                  // `None`: neither callable nor boolean, so it reaches has_perm

  /** The metadata of the view's model that permission keys are built from. */
  datatype ModelOptions = ModelOptions(appLabel: string, modelName: string)

  /** A view class, reduced to what the resolver reads:
      - `permissionMap`: the class attribute `permission_map`;
      - `attributes`: every attribute name the view has, mapped to the
        `permission` attribute of that attribute when it has one;
      - `notFoundDefault`: `NOT_FOUND_PERMISSION_DEFAULT`. */
  datatype View = View(
    options: ModelOptions,
    permissionMap: map<string, Perm>,
    attributes: map<string, Option<Perm>>,
    notFoundDefault: bool)

  /** A request: its HTTP method and its user. The user is given by the
      arguments for which `user.has_perm` answers true; `None` is the
      argument an `Unset` rule passes. */
  datatype Request = Request(httpMethod: string, userPerms: set<Option<string>>)

  /** The resolver's answer, or the AttributeError that `getattr(view, action)`
      raises when the view has no attribute named `action`. */
  datatype Decision = Decided(allowed: bool) | NoSuchAttribute(name: string)

  /** A callable rule is run by this oracle with its id and the arguments
      `(view, action, request, obj)`. */
  type Oracle<!O> = (nat, View, string, Request, Option<O>) -> bool

  const NotFoundPermissionDefault: bool := false

  /** The actions the default table knows, and the verb each is checked with.
      The table uses the key "delete", not the action name "destroy". */
  function DefaultVerb(action: string): Option<string>
  {
    if action == "list" || action == "retrieve" then Some("view")
    else if action == "create" then Some("add")
    else if action == "update" || action == "partial_update" then Some("change")
    else if action == "delete" then Some("delete")
    else None
  }

  /** Django's codename convention for a verb on a model: `<verb>_<model_name>`. */
  function PermissionCodename(verb: string, opts: ModelOptions): string
  {
    verb + "_" + opts.modelName
  }

  /** The permission key `<app_label>.<codename>`. */
  function MakePermissionKey(opts: ModelOptions, verb: string): string
  {
    opts.appLabel + "." + PermissionCodename(verb, opts)
  }

  /** Within one model, distinct verbs give distinct keys: holding the key
      of one verb never amounts to holding the key of another. */
  lemma PermissionKeyInjective(opts: ModelOptions, v1: string, v2: string)
    requires MakePermissionKey(opts, v1) == MakePermissionKey(opts, v2)
    ensures v1 == v2
  {
    var prefix := opts.appLabel + ".";
    var k1 := MakePermissionKey(opts, v1);
    var k2 := MakePermissionKey(opts, v2);
    assert k1 == prefix + v1 + "_" + opts.modelName;
    assert k2 == prefix + v2 + "_" + opts.modelName;
    assert |v1| == |v2|;
    assert v1 == k1[|prefix|..|prefix| + |v1|];
    assert v2 == k2[|prefix|..|prefix| + |v2|];
  }

  /** The default table, before the view's own map is merged in. */
  function DefaultPermissionMap(opts: ModelOptions): (m: map<string, Perm>)
    ensures forall a :: a in m <==> DefaultVerb(a).Some?
    ensures forall a :: a in m ==> m[a] == Code(MakePermissionKey(opts, DefaultVerb(a).value))
  {
    map[
      "list" := Code(MakePermissionKey(opts, "view")),
      "retrieve" := Code(MakePermissionKey(opts, "view")),
      "create" := Code(MakePermissionKey(opts, "add")),
      "update" := Code(MakePermissionKey(opts, "change")),
      "partial_update" := Code(MakePermissionKey(opts, "change")),
      "delete" := Code(MakePermissionKey(opts, "delete"))
    ]
  }

  /** `get_permission_map`: the defaults updated with the view's `permission_map`. */
  function GetPermissionMap(view: View): (m: map<string, Perm>)
    ensures forall a :: a in m <==> DefaultVerb(a).Some? || a in view.permissionMap
    ensures forall a :: a in view.permissionMap ==> m[a] == view.permissionMap[a]
    ensures forall a :: a in m && a !in view.permissionMap ==>
              m[a] == Code(MakePermissionKey(view.options, DefaultVerb(a).value))
  {
    DefaultPermissionMap(view.options) + view.permissionMap
  }

  /** The map consulted for `action`: `get_permission_map` further updated with
      the `permission` attribute of the view's attribute named `action`.
      Only called once that attribute is known to exist. Merging the three
      maps is the same as taking the rule of highest precedence. */
  function EffectiveMap(view: View, action: string): (m: map<string, Perm>)
    requires action in view.attributes
    ensures action in m <==> RuleFor(view, action).Some?
    ensures action in m ==> RuleFor(view, action) == Some(m[action])
  {
    var m := GetPermissionMap(view);
    match view.attributes[action]
    case Some(p) => m[action := p]
    case None => m
  }

  /** How a rule found in the map is turned into an answer: a callable is
      called, a boolean is returned, anything else goes to `has_perm`. */
  function Evaluate<O>(p: Perm, view: View, action: string, request: Request,
                       obj: Option<O>, call: Oracle<O>): bool
  {
    match p
    case Predicate(id) => call(id, view, action, request, obj)
    case Fixed(b) => b
    case Code(c) => Some(c) in request.userPerms
    case Unset => None in request.userPerms
  }

  /** `_has_perm_action(action, request, obj)`. An unset action is "". */
  function HasPermAction<O>(view: View, action: string, request: Request,
                            obj: Option<O>, call: Oracle<O>): (d: Decision)
    ensures d == PrecedenceDecision(view, action, request, obj, call)
  {
    if request.httpMethod == "OPTIONS" || action == "metadata" then Decided(true)
    else if action == "" then Decided(false)
    else if action !in view.attributes then NoSuchAttribute(action)
    else
      var m := EffectiveMap(view, action);
      if action !in m then Decided(view.notFoundDefault)
      else Decided(Evaluate(m[action], view, action, request, obj, call))
  }

  /** `HasPermissionAccess.has_permission`: the view's current action, no object. */
  function HasPermission<O>(view: View, action: string, request: Request,
                            call: Oracle<O>): (d: Decision)
    ensures d == PrecedenceDecision(view, action, request, None, call)
  {
    HasPermAction(view, action, request, None, call)
  }

  /** `HasPermissionAccess.has_object_permission`: the same, with the object. */
  function HasObjectPermission<O>(view: View, action: string, request: Request,
                                  obj: O, call: Oracle<O>): (d: Decision)
    ensures d == PrecedenceDecision(view, action, request, Some(obj), call)
  {
    HasPermAction(view, action, request, Some(obj), call)
  }

  // ---------------------------------------------------------------------
  // The precedence of the three layers, stated without maps
  // ---------------------------------------------------------------------

  /** The rule that governs `action`, by precedence: the decorator's
      `permission`, then the class `permission_map`, then the defaults. */
  function RuleFor(view: View, action: string): Option<Perm>
  {
    if action in view.attributes && view.attributes[action].Some? then view.attributes[action]
    else if action in view.permissionMap then Some(view.permissionMap[action])
    else if DefaultVerb(action).Some? then
      Some(Code(MakePermissionKey(view.options, DefaultVerb(action).value)))
    else None
  }

  /** The resolver stated without maps: short-circuits first, then the rule
      of highest precedence, evaluated by kind; the not-found default when
      there is none. */
  function PrecedenceDecision<O>(view: View, action: string, request: Request,
                                 obj: Option<O>, call: Oracle<O>): Decision
  {
    if request.httpMethod == "OPTIONS" || action == "metadata" then Decided(true)
    else if action == "" then Decided(false)
    else if action !in view.attributes then NoSuchAttribute(action)
    else match RuleFor(view, action)
      case None => Decided(view.notFoundDefault)
      case Some(p) => Decided(Evaluate(p, view, action, request, obj, call))
  }

  /** Granting a user more permissions never takes an answer of "yes" away
      from a rule that is not a callable (a callable may answer anything). */
  lemma EvaluateMonotone<O>(p: Perm, view: View, action: string, request: Request,
                            more: set<Option<string>>, obj: Option<O>, call: Oracle<O>)
    requires !p.Predicate? && request.userPerms <= more
    requires Evaluate(p, view, action, request, obj, call)
    ensures Evaluate(p, view, action, request.(userPerms := more), obj, call)
  {
  }

  /** The same for the whole resolver: a user with more permissions is
      granted every action a user with fewer is granted, unless the rule
      governing it is a callable. */
  lemma MorePermissionsNeverRevoke<O>(view: View, action: string, request: Request,
                                      more: set<Option<string>>, obj: Option<O>, call: Oracle<O>)
    requires !(RuleFor(view, action).Some? && RuleFor(view, action).value.Predicate?)
    requires request.userPerms <= more
    requires HasPermAction(view, action, request, obj, call) == Decided(true)
    ensures HasPermAction(view, action, request.(userPerms := more), obj, call) == Decided(true)
  {
  }

  /** OPTIONS requests and the metadata action are always granted, whatever
      the maps say and even if the view lacks such an attribute. */
  lemma MetadataAlwaysGranted<O>(view: View, action: string, request: Request,
                                 obj: Option<O>, call: Oracle<O>)
    requires request.httpMethod == "OPTIONS" || action == "metadata"
    ensures HasPermAction(view, action, request, obj, call) == Decided(true)
  {
  }

  /** An unset action is denied outright, whatever the maps say. */
  lemma EmptyActionDenied<O>(view: View, request: Request, obj: Option<O>, call: Oracle<O>)
    requires request.httpMethod != "OPTIONS"
    ensures HasPermAction(view, "", request, obj, call) == Decided(false)
  {
  }

  /** An action that no layer mentions gets `NOT_FOUND_PERMISSION_DEFAULT`. */
  lemma UnmappedActionGetsDefault<O>(view: View, action: string, request: Request,
                                     obj: Option<O>, call: Oracle<O>)
    requires request.httpMethod != "OPTIONS" && action != "metadata" && action != ""
    requires action in view.attributes && view.attributes[action].None?
    requires action !in view.permissionMap && DefaultVerb(action).None?
    ensures HasPermAction(view, action, request, obj, call) == Decided(view.notFoundDefault)
  {
  }

  /** "destroy" has no default rule (the table says "delete"): with the
      default `NOT_FOUND_PERMISSION_DEFAULT`, it is denied to every user
      unless the view overrides it. */
  lemma DestroyDeniedWithoutOverride<O>(view: View, request: Request,
                                        obj: Option<O>, call: Oracle<O>)
    requires request.httpMethod != "OPTIONS"
    requires "destroy" in view.attributes && view.attributes["destroy"].None?
    requires "destroy" !in view.permissionMap
    requires view.notFoundDefault == NotFoundPermissionDefault
    ensures HasPermAction(view, "destroy", request, obj, call) == Decided(false)
  {
  }

  /** With no override, a default action is granted exactly when the user
      holds `<app_label>.<verb>_<model_name>`. */
  lemma DefaultActionChecksCode<O>(view: View, action: string, request: Request,
                                   obj: Option<O>, call: Oracle<O>)
    requires request.httpMethod != "OPTIONS" && action != "metadata" && action != ""
    requires action in view.attributes && view.attributes[action].None?
    requires action !in view.permissionMap && DefaultVerb(action).Some?
    ensures HasPermAction(view, action, request, obj, call) ==
      Decided(Some(view.options.appLabel + "." + DefaultVerb(action).value + "_"
                   + view.options.modelName) in request.userPerms)
  {
    var verb := DefaultVerb(action).value;
    assert MakePermissionKey(view.options, verb) ==
           view.options.appLabel + "." + verb + "_" + view.options.modelName;
  }

  /** With the default table alone, holding the key of one default action
      grants that action and no default action checked with another verb. */
  lemma {:induction false} OneVerbGrantsOnlyItself<O>(view: View, granted: string, other: string,
                                                      request: Request, obj: Option<O>, call: Oracle<O>)
    requires request.httpMethod != "OPTIONS"
    requires DefaultVerb(granted).Some? && DefaultVerb(other).Some?
    requires DefaultVerb(granted) != DefaultVerb(other)
    requires granted in view.attributes && view.attributes[granted].None? && granted !in view.permissionMap
    requires other in view.attributes && view.attributes[other].None? && other !in view.permissionMap
    requires request.userPerms == {Some(MakePermissionKey(view.options, DefaultVerb(granted).value))}
    ensures HasPermAction(view, granted, request, obj, call) == Decided(true)
    ensures HasPermAction(view, other, request, obj, call) == Decided(false)
  {
    var key := MakePermissionKey(view.options, DefaultVerb(other).value);
    if Some(key) in request.userPerms {
      PermissionKeyInjective(view.options, DefaultVerb(granted).value, DefaultVerb(other).value);
    }
  }

  /** The decorator's `permission` beats the class map and the defaults. */
  lemma AttributePermissionWins<O>(view: View, action: string, request: Request,
                                   obj: Option<O>, call: Oracle<O>)
    requires request.httpMethod != "OPTIONS" && action != "metadata" && action != ""
    requires action in view.attributes && view.attributes[action].Some?
    ensures HasPermAction(view, action, request, obj, call) ==
      Decided(Evaluate(view.attributes[action].value, view, action, request, obj, call))
  {
  }

  /** Without a decorator `permission`, the class map beats the defaults. */
  lemma ClassMapBeatsDefaults<O>(view: View, action: string, request: Request,
                                 obj: Option<O>, call: Oracle<O>)
    requires request.httpMethod != "OPTIONS" && action != "metadata" && action != ""
    requires action in view.attributes && view.attributes[action].None?
    requires action in view.permissionMap
    ensures HasPermAction(view, action, request, obj, call) ==
      Decided(Evaluate(view.permissionMap[action], view, action, request, obj, call))
  {
  }

  /** The object passed for per-object checks can change the answer only
      through a callable rule: the collection-level and object-level checks
      agree on every other kind of rule. */
  lemma ObjectMattersOnlyToCallables<O>(view: View, action: string, request: Request,
                                        obj: O, call: Oracle<O>)
    requires !(RuleFor(view, action).Some? && RuleFor(view, action).value.Predicate?)
    ensures HasPermission(view, action, request, call) ==
            HasObjectPermission(view, action, request, obj, call)
  {
  }

  /** A callable rule is called with the view, the action, the request and
      the object, and its answer is the resolver's. */
  lemma CallableReceivesArguments<O>(view: View, action: string, request: Request,
                                     obj: Option<O>, call: Oracle<O>, id: nat)
    requires request.httpMethod != "OPTIONS" && action != "metadata" && action != ""
    requires action in view.attributes
    requires RuleFor(view, action) == Some(Predicate(id))
    ensures HasPermAction(view, action, request, obj, call) ==
            Decided(call(id, view, action, request, obj))
  {
  }
}
