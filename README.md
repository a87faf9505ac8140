# django-admin-drf core, modelled in Dafny

This project models the logic of `api/admin.py` in django-admin-drf. That
file is a registration layer that generates REST CRUD views for Django
models. Four parts are modelled:

- **Permission resolution** (`permissions.dfy`, module `Permissions`).
  `_has_perm_action` and `get_permission_map` are modelled as pure functions.
  - The default action table is merged with the view's `permission_map`.
  - The `permission` that the `action` decorator attaches is merged on top.
  - The rule found is dispatched on its kind: a callable is run, a `bool` is
    returned, and anything else goes to `user.has_perm`.
  - Lemmas state the short-circuits, the fail-closed default and the
    precedence of the three layers. One lemma shows that "destroy" has no
    default rule, because the table's key is "delete".
- **`ModelDiffHelper`** (`model_diff.dfy`, module `ModelDiff`). A class with
  the baseline snapshot and the optional new snapshot as fields.
  - `set_changed_model` is a method.
  - `diff`, `has_changed`, `changed_fields` and `get_field_diff` are
    functions over the two snapshots.
  - Snapshots are insertion-ordered dictionaries, modelled as lists of
    (name, value) pairs, so the order of `changed_fields` is stated too.
- **`RestFulAdminSite`** (`admin_site.dfy`, module `AdminSite`). A class with
  the `_registry` map and the `_url_patterns` list.
  - `register` and `unregister` loop over the models, as the source does.
  - Each is proved equal to a function over the registry (`RegisterAll`,
    `UnregisterAll`).
  - Lemmas about those functions state success, the first failure (an
    abstract model is refused before a duplicate), and that an
    unregistration undoes a registration.
  - `register` reassigns its `view_class` variable inside the loop. So in
    one call, each model's generated class derives from the class made for
    the model before it. `RegisterChainsViewClasses` states this as written.
- **CRUD handlers** (`crud_handler.dfy`, module `CrudHandler`). The methods
  `create`, `retrieve`, `update`/`partial_update` and `destroy` work over
  three fields:
  - an abstract store `map<Pk, Record>`;
  - an append-only admin log;
  - a `trace` of effects in the order they happen.

  Each method's postcondition gives the response and the new store, log and
  trace. So the order of effects is proved: creation and update log after
  persisting, deletion logs before removing, and a refused or invalid
  request has no effect.

The ORM, the serializer, the user's `has_perm`, the callables in permission
maps and `str(instance)` are outside the model. Each one becomes an explicit
input:
- a validator function;
- the set of permission codes for which `has_perm` answers true;
- an oracle for callables;
- a display function of the primary key and the field values, since Django's default `__str__` reads the key.

`wrappers.dfy` holds the `Option` datatype.

## Model

| member | source | states |
|---|---|---|
| `Permissions.PermissionKeyInjective` | api/admin.py:46-48 | Within one model, two verbs give the same key only if they are the same verb. So holding one verb's key never counts as holding another's. |
| `Permissions.DefaultPermissionMap` | api/admin.py:31-38 | The defaults cover exactly list, retrieve, create, update, partial_update and delete. Each is the permission code for view, view, add, change, change and delete. |
| `Permissions.GetPermissionMap` | api/admin.py:30-40 | The merged map has the default actions plus the class map's actions. On a shared key the class map wins; every other key keeps its default code. The copy of `get_permission_map` on `RestFulAdminMVS` (api/admin.py:144-154), which the generated views call, builds the same table and merge. |
| `Permissions.EffectiveMap` | api/admin.py:57-59 | Looking up the merged map (defaults, then class map, then the decorator's `permission`) gives the same rule as the precedence order: decorator first, then class map, then defaults. |
| `Permissions.HasPermAction` | api/admin.py:50-70 | The resolver equals `PrecedenceDecision`, its statement without maps, for all inputs. OPTIONS or "metadata" grants. An empty action denies. A missing attribute raises. No rule gives the not-found default. Otherwise the highest-precedence rule is evaluated by its kind. |
| `Permissions.EvaluateMonotone` | api/admin.py:64-70 | A rule that is not a callable (a bool, a code or `None`) that grants a user also grants any user holding more permissions. |
| `Permissions.MorePermissionsNeverRevoke` | api/admin.py:50-70 | For the whole resolver: unless the governing rule is a callable, an action granted to a user is granted to every user with more permissions. |
| `Permissions.OneVerbGrantsOnlyItself` | api/admin.py:30-70 | With only the default table, a user holding one default action's key is granted that action and denied every default action checked with another verb. |
| `Permissions.MetadataAlwaysGranted` | api/admin.py:51-52 | OPTIONS requests and the "metadata" action are granted, whatever the maps hold. |
| `Permissions.EmptyActionDenied` | api/admin.py:54-55 | An unset action is denied outright. |
| `Permissions.UnmappedActionGetsDefault` | api/admin.py:61-62 | An action that no layer maps resolves to `NOT_FOUND_PERMISSION_DEFAULT`. |
| `Permissions.DestroyDeniedWithoutOverride` | api/admin.py:27-62 | With the default `NOT_FOUND_PERMISSION_DEFAULT` and no override, "destroy" is denied to every user, because the default table's key is "delete". |
| `Permissions.DefaultActionChecksCode` | api/admin.py:30-70 | With no override, a default action is granted exactly when the user has `<app_label>.<verb>_<model_name>`. |
| `Permissions.AttributePermissionWins` | api/admin.py:57-59 | A decorator `permission` decides, whatever the class map and the defaults say. |
| `Permissions.ClassMapBeatsDefaults` | api/admin.py:39 | With no decorator `permission`, the class `permission_map` entry decides over the default. |
| `Permissions.CallableReceivesArguments` | api/admin.py:64-66 | A callable rule gets the view, the action, the request and the object, and its answer is the result. |
| `Permissions.HasPermission` | api/admin.py:78-84 | The collection-level check gives the decision of the highest-precedence rule for the view's action, evaluated with no object. |
| `Permissions.HasObjectPermission` | api/admin.py:86-90 | The object-level check gives the decision of the highest-precedence rule for the view's action, evaluated with the object. |
| `Permissions.ObjectMattersOnlyToCallables` | api/admin.py:78-90 | The collection-level and object-level checks agree unless the governing rule is a callable. |
| `ModelDiff.Changes` | api/admin.py:109-112 | The diff lists exactly the baseline fields whose value differs in the new snapshot, each with its (old, new) pair, in baseline order. |
| `ModelDiff.NothingChangesAgainstItself` | api/admin.py:100-102 | A snapshot compared with itself yields an empty diff. |
| `ModelDiff.ModelDiffHelper.constructor` | api/admin.py:94-96 | A new helper holds the baseline and no new snapshot. |
| `ModelDiff.ModelDiffHelper.SetChangedModel` | api/admin.py:98-103 | On the first call the baseline is kept and the new snapshot is set. On a later call both become the data, so `diff` is empty and `has_changed` is false. The helper itself is returned. |
| `ModelDiff.ModelDiffHelper.Diff` | api/admin.py:105-112 | Empty without a new snapshot. Otherwise the fields in it are exactly the changed fields, in baseline order, each with its (old, new) pair. |
| `ModelDiff.ModelDiffHelper.HasChanged` | api/admin.py:114-116 | True exactly when some baseline field changed. |
| `ModelDiff.ModelDiffHelper.ChangedFields` | api/admin.py:118-120 | Exactly the changed field names, in baseline order. |
| `ModelDiff.ModelDiffHelper.GetFieldDiff` | api/admin.py:122-126 | The (old, new) pair for a changed field; `None` exactly when the field did not change. |
| `AdminSite.RegisterOnlyAdds` | api/admin.py:340-354 | For any models, success or not, `register` keeps every earlier entry unchanged and adds only models it was given, none abstract. Any error is ImproperlyConfigured or AlreadyRegistered for one of those models. |
| `AdminSite.RegisterSucceeds` | api/admin.py:340-354 | If no model is abstract, already registered or repeated, `register` raises nothing. It adds exactly those models and keeps every earlier entry. |
| `AdminSite.RegisterStopsAtFirstFailure` | api/admin.py:340-349 | At the first model that cannot be registered, `register` raises ImproperlyConfigured if the model is abstract (even when it is also a duplicate), else AlreadyRegistered. The earlier models stay registered. |
| `AdminSite.RegisterChainsViewClasses` | api/admin.py:351-354 | Each model's generated class is `<Model>Admin` and derives from the class made for the model before it. The first derives from the given view class. |
| `AdminSite.UnregisterOnlyRemoves` | api/admin.py:389-392 | For any models, success or not, `unregister` adds and rebinds nothing and keeps every entry it was not given. Any error is NotRegistered for one of those models. |
| `AdminSite.UnregisterSucceeds` | api/admin.py:389-392 | If every model is registered and none is repeated, `unregister` raises nothing and removes exactly those models. |
| `AdminSite.UnregisterStopsAtFirstFailure` | api/admin.py:389-391 | At the first model that is then absent, `unregister` raises NotRegistered. The earlier models stay removed. |
| `AdminSite.UnregisterUndoesRegister` | api/admin.py:380-398 | A successful registration followed by unregistering the same models gives back the original registry, with no error. |
| `AdminSite.RestFulAdminSite.constructor` | api/admin.py:321-324 | A new site has an empty registry and no URL patterns. Its default view class is the one given, or `RestFulAdminMVS` when none is given. |
| `AdminSite.RestFulAdminSite.IsRegistered` | api/admin.py:394-398 | Membership in the registry. It is never true of an abstract model, because registration refuses those (the site invariant `Valid`). |
| `AdminSite.RestFulAdminSite.Register` | api/admin.py:333-354 | The error and the new registry are those of `RegisterAll`, with the site default when no view class is given. The site invariant (no abstract model registered) is kept. On success every model `is_registered`. |
| `AdminSite.RestFulAdminSite.RegisterDecorated` | api/admin.py:326-331 | Registers the models with the decorated class and returns that class unchanged. |
| `AdminSite.RestFulAdminSite.Unregister` | api/admin.py:380-392 | The error and the new registry are those of `UnregisterAll`. The site invariant is kept. On success no model `is_registered`. |
| `AdminSite.RestFulAdminSite.RegisterUrlPattern` | api/admin.py:356-357 | Appends the pattern to the list of hand-registered patterns. |
| `CrudHandler.ToDict` | api/admin.py:128-129 | The snapshot lists the model's fields in `_meta.fields` order, each with the instance's value. |
| `CrudHandler.ChangedFieldNamesAreDifferingFields` | api/admin.py:282-284 | The fields logged for an update are exactly the model fields whose value differs between the instance before and after, in field order. |
| `CrudHandler.AdditionEntry` | api/admin.py:156-171 | An addition entry for the user, content type and key. Its `object_repr` is the display string and its change message is the "added" message. |
| `CrudHandler.ChangeEntry` | api/admin.py:173-188 | A change entry for the user, content type and key. Its `object_repr` is the display string and its change message is the "changed" message with the changed fields. |
| `CrudHandler.DeletionEntryAsWritten` | api/admin.py:304-315 | The deletion entry as `destroy` writes it: a deletion for the user, content type and key. Its `object_repr` is the message list naming the model and the instance, and it has no change message. |
| `CrudHandler.DeletionEntry` | api/admin.py:156-188 | The intended deletion entry, shaped like the addition and change entries. Its `object_repr` is the display string and its change message is the deletion message. No code writes it. |
| `CrudHandler.DeletionReprDiffersFromOtherEntries` | api/admin.py:156-205 | Addition and change entries store the display string as `object_repr`; the as-written deletion entry does not. |
| `CrudHandler.AdminViewSet.Create` | api/admin.py:235-255 | A refusal or a validation failure changes nothing. Otherwise the record is stored under the new key and then exactly one addition entry is logged, in that order. The entry's display string is computed from the new key and the saved record. |
| `CrudHandler.AdminViewSet.GetObject` | api/admin.py:303 | Passes exactly when the collection-level check grants, the key exists and the object-level check on that record grants. A collection-level refusal gives its own failure. NotFound comes exactly when that check grants and the key is missing. With the key present, the object-level decision gives the result, so an object-level refusal is Forbidden. |
| `CrudHandler.AdminViewSet.Retrieve` | api/admin.py:257-261 | Returns the stored record exactly when both permission checks grant and the key exists. Otherwise a failure: the collection-level one if that check refuses, and NotFound exactly when it grants and the key is missing. An object-level refusal gives Forbidden. |
| `CrudHandler.AdminViewSet.DiffAgainst` | api/admin.py:271-284 | The helper, built on the instance before the update and given the instance after it, reports exactly the fields whose value differs, in field order. |
| `CrudHandler.AdminViewSet.SaveAndLogChange` | api/admin.py:271-288 | The valid branch of an update. The record is replaced first, and then exactly one change entry is logged. The entry lists the fields that differ between the instance before and after. |
| `CrudHandler.AdminViewSet.Update` | api/admin.py:263-299 | A refusal, a missing key or a validation failure changes nothing. NotFound comes exactly when the collection check grants and the key is missing. An object-level refusal gives Forbidden. Otherwise the record is replaced and then one change entry is logged, listing the fields that differ between the old and new instance. `partial_update` is the same, with the partial flag and its own action name. |
| `CrudHandler.AdminViewSet.Destroy` | api/admin.py:301-317 | A refusal or a missing key changes nothing. NotFound comes exactly when the collection check grants and the key is missing. An object-level refusal gives Forbidden. Otherwise the deletion entry, in the shape the code writes it, is logged while the record still exists, and then the record is removed. |

## Findings

| source | as written | input that shows it | evidently intended | confidence | as-written member | corrected member |
|---|---|---|---|---|---|---|
| api/admin.py:304-315 | `destroy` passes its message list as the third argument of `log_deletion`. That parameter is `object_repr`, so the entry stores the list as the object's representation and has no change message. | Any DELETE of an existing record by a user who is allowed to delete it. | Store `str(instance)` as `object_repr` and the message as the change message, as `log_addition` and `log_change` do. | medium; not executed | `CrudHandler.DeletionEntryAsWritten` | `CrudHandler.DeletionEntry` |

`AdminViewSet.Destroy` logs the entry as written, as the source does.
`DeletionEntry` is the intended form; `DeletionReprDiffersFromOtherEntries`
shows how the two differ.

## Left out

- `get_urls`, `urls` and `get_model_url`/`get_model_basename` are left out. They cover router registration, the default queryset and the generated `ModelSerializer`, all framework plumbing.
- `generate_docs` is left out. It is string templating.
- The `options` passed to `register` and written into each generated class (including `__doc__`) are left out. A generated class is recorded only by its name and its base.
- The module-level `site` and `register(*models)` are left out. They are a global instance of the site plus a call to `register_decorator`, which is modelled as `RegisterDecorated`.
- `list` is left out. It covers filtering, pagination and serialization.
- `get_single_serializer*`, `Response`, status codes and success headers are left out. Responses are reduced to the `Response` datatype.
- The prefetch-cache reset after an update is left out. It clears an in-memory cache and does not touch the store or the log.
- A model class is identified by its app label and its name, since Django refuses two models of one name in one app. Two distinct class objects with the same label and name, such as a model class created again at run time, are one model here.
- `AdminSite.RestFulAdminSite.constructor`: an explicit `RestFulAdminSite(None)` is not modelled. The source stores `None` as the default view class, and a later `register` without a view class then fails when it derives a class from `None`. The model's `None` means only "argument omitted".
- The handlers are never given an OPTIONS request, because the router sends those to the metadata handler.
- `_options` (a `cached_property`) is replaced by a `ModelOptions` value.
- `get_permission_codename` is not part of this model. `MakePermissionKey` follows Django's convention, `<verb>_<model_name>`.
- `user.has_perm` is given as the set of arguments it answers true for. Superuser handling and permission backends are not modelled.
- Callables in permission maps are given by an oracle over `(id, view, action, request, obj)`.
- Permission-map values that are not a bool, a string, a callable or `None` are not modelled.
- An unset action (`None`) and the empty string are the same value here. The resolver treats both alike: both are falsy and neither is "metadata".
- `model_to_dict` is taken to return every field of `_meta.fields`. A field that a `Record` leaves out reads as NULL. Django's skipping of non-editable fields is not modelled.
- `ModelDiff.ModelDiffHelper.SetChangedModel`: requires that, on a first call, the new snapshot has every field of the baseline. The source would raise KeyError on the next access to `diff` otherwise. Both snapshots come from the same model, so that error is not modelled.
- Field values are compared with structural equality. A model field's own `__eq__` is not modelled.
- `CrudHandler.AdminViewSet.Create`: the primary key that the store assigns is a parameter, required to be unused.
- Serializer validation and `serializer.save()` are an oracle (`Validator`). DRF's `check_permissions` and `get_object` are modelled as the collection-level check followed by the object-level check.
- Transactions, a crash between persisting and logging, and concurrency are not modelled. The source does not handle them either.
- The anonymous user (whose primary key is `None`) is not modelled. `userId` is a `nat`.
