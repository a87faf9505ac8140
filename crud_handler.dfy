/**
 * The write operations of `RestFulAdminMVS` (`create`, `update`,
 * `partial_update`, `destroy`) and `retrieve`, over an abstract record
 * store and an append-only audit log.
 *
 * Every effect on the store or the log is also appended to `trace`, so the
 * order of effects is part of each method's postcondition: creation logs
 * after persisting, deletion logs before removing, and a refused or
 * invalid request leaves no effect at all. Permission checks go through
 * the resolver of module `Permissions`: the collection-level check with
 * the view's action first, then, for operations on one record, the
 * object-level check with the fetched record. The router sends OPTIONS
 * requests to the metadata handler, never to these, so none of them is
 * given one.
 */
module CrudHandler {
  import opened Wrappers
  import opened Permissions
  import ModelDiff

  datatype FieldValue = IntValue(i: int) | TextValue(s: string) | NullValue

  /** A model instance: its field values by field name. */
  type Record = map<string, FieldValue>

  type Pk = nat

  /** The value of a field of an instance; a field the map leaves out holds NULL. */
  function FieldOf(rec: Record, f: string): FieldValue
  {
    if f in rec then rec[f] else NullValue
  }

  /** The snapshot the diff helper takes of an instance: one entry per
      concrete model field, in declaration order, holding that field's
      current value. */
  function ToDict(fields: seq<string>, rec: Record): (s: ModelDiff.Snapshot<FieldValue>)
    ensures ModelDiff.Fields(s) == fields
    ensures forall f :: f in fields ==> ModelDiff.Get(s, f) == Some(FieldOf(rec, f))
  {
    if fields == [] then []
    else
      var s := [(fields[0], FieldOf(rec, fields[0]))] + ToDict(fields[1..], rec);
      assert ModelDiff.Fields(s) == [fields[0]] + fields[1..];
      s
  }

  /** The field names `changed_fields` reports for an update from `before`
      to `after`. */
  function ChangedFieldNames(fields: seq<string>, before: Record, after: Record): seq<string>
  {
    ModelDiff.Fields(ModelDiff.Changes(ToDict(fields, before), ToDict(fields, after)))
  }

  /** The changed fields of an update are exactly the model fields whose
      value differs, listed in the model's field order. */
  lemma ChangedFieldNamesAreDifferingFields(fields: seq<string>, before: Record, after: Record)
    requires ModelDiff.DistinctNames(fields)
    ensures ModelDiff.IsSubsequence(ChangedFieldNames(fields, before, after), fields)
    ensures forall f :: f in ChangedFieldNames(fields, before, after) <==>
              f in fields && FieldOf(before, f) != FieldOf(after, f)
  {
  }

  /** The request as the handlers see it: what the resolver reads, the
      user's primary key for the log, and the request body. */
  datatype HandlerRequest = HandlerRequest(auth: Request, userId: nat, data: map<string, FieldValue>)

  /** The serializer's verdict on the request body: the instance it would
      save, or its field errors. */
  datatype Validation = Valid(record: Record) | Invalid(errors: seq<string>)

  /** `serializer.is_valid()` and the instance `serializer.save()` would
      produce, given the instance being updated (if any), the body and the
      partial flag. */
  type Validator = (Option<Record>, map<string, FieldValue>, bool) -> Validation

  /** The `change_message` of a log entry: the single-element lists the
      handlers build, or none at all. */
  datatype Message =
    | Added(name: string, object: string)
    | Changed(name: string, object: string, fields: seq<string>)
    | Deleted(name: string, object: string)
    | NoMessage

  /** `object_repr` as stored: a display string, or (as written for
      deletions) the message list passed in its place. */
  datatype ObjectRepr = Text(text: string) | MessageList(message: Message)

  datatype ActionFlag = Addition | Change | Deletion

  datatype LogEntry = LogEntry(userId: nat, contentType: string, objectId: Pk,
                               objectRepr: ObjectRepr, flag: ActionFlag, message: Message)

  /** One effect on the store or the log, in the order it happened. */
  datatype Effect = Saved(pk: Pk, record: Record) | Logged(entry: LogEntry) | Removed(pk: Pk)

  datatype Failure =
    | Forbidden                       // the resolver said no
    | AttributeError(name: string)    // the resolver found no attribute for the action
    | NotFound                        // `get_object` found no record
    | BadRequest(errors: seq<string>) // the serializer refused the body

  datatype Response = Created(pk: Pk, record: Record) | Ok(record: Record) | NoContent | Failed(failure: Failure)

  /** A resolver decision as the request pipeline acts on it. */
  function Authorize(d: Decision): (f: Option<Failure>)
    ensures f == None <==> d == Decided(true)
  {
    match d
    case Decided(b) => if b then None else Some(Forbidden)
    case NoSuchAttribute(n) => Some(AttributeError(n))
  }

  /** `log_addition`: the entry for a created instance, recorded under its
      display string, with an "added" message naming the model and the
      instance. */
  function AdditionEntry(userId: nat, contentType: string, pk: Pk, verboseName: string, display: string): (e: LogEntry)
    ensures e.flag == Addition && e.objectId == pk && e.userId == userId && e.contentType == contentType
    ensures e.objectRepr == Text(display) && e.message == Added(verboseName, display)
  {
    LogEntry(userId, contentType, pk, Text(display), Addition, Added(verboseName, display))
  }

  /** `log_change`: the entry for an updated instance, recorded under its
      display string, with a "changed" message that lists its changed fields. */
  function ChangeEntry(userId: nat, contentType: string, pk: Pk, verboseName: string, display: string,
                       fields: seq<string>): (e: LogEntry)
    ensures e.flag == Change && e.objectId == pk && e.userId == userId && e.contentType == contentType
    ensures e.objectRepr == Text(display) && e.message == Changed(verboseName, display, fields)
  {
    LogEntry(userId, contentType, pk, Text(display), Change, Changed(verboseName, display, fields))
  }

  /** The deletion entry as `destroy` writes it: the message list goes into
      `log_deletion`'s `object_repr` parameter, and no change message is
      stored. */
  function DeletionEntryAsWritten(userId: nat, contentType: string, pk: Pk, verboseName: string,
                                  display: string): (e: LogEntry)
    ensures e.flag == Deletion && e.objectId == pk && e.userId == userId && e.contentType == contentType
    ensures e.objectRepr == MessageList(Deleted(verboseName, display)) && e.message == NoMessage
  {
    LogEntry(userId, contentType, pk, MessageList(Deleted(verboseName, display)), Deletion, NoMessage)
  }

  /** The deletion entry in the intended form, shaped as the other two log
      writers shape theirs: the display string of the instance as its
      `object_repr`, the message list as its change message. `destroy` does
      not write this one; see `DeletionEntryAsWritten`. */
  function DeletionEntry(userId: nat, contentType: string, pk: Pk, verboseName: string,
                         display: string): (e: LogEntry)
    ensures e.objectRepr == Text(display) && e.flag == Deletion && e.objectId == pk
    ensures e.userId == userId && e.contentType == contentType
    ensures e.message == Deleted(verboseName, display)
  {
    LogEntry(userId, contentType, pk, Text(display), Deletion, Deleted(verboseName, display))
  }

  /** As written, no deletion entry records the display string of the
      deleted instance as its `object_repr`, unlike every addition and
      change entry. */
  lemma DeletionReprDiffersFromOtherEntries(userId: nat, contentType: string, pk: Pk,
                                            verboseName: string, display: string, fields: seq<string>)
    ensures AdditionEntry(userId, contentType, pk, verboseName, display).objectRepr == Text(display)
    ensures ChangeEntry(userId, contentType, pk, verboseName, display, fields).objectRepr == Text(display)
    ensures DeletionEntryAsWritten(userId, contentType, pk, verboseName, display).objectRepr
            != DeletionEntry(userId, contentType, pk, verboseName, display).objectRepr
  {
  }

  class AdminViewSet {
    /** What the permission resolver reads of this view class. */
    const view: View
    /** The model's field names, in `_meta.fields` order. */
    const fields: seq<string>
    /** `str(instance._meta.verbose_name)`. */
    const verboseName: string
    /** The content type the log entries point at. */
    const contentType: string
    /** `str(instance)`, given the instance's primary key and field values:
        Django's default `__str__` reads the key ("<Model> object (<pk>)"). */
    const display: (Pk, Record) -> string

    /** The model's table, by primary key. */
    var store: map<Pk, Record>
    /** The admin log, oldest first. */
    var log: seq<LogEntry>
    /** Every effect on `store` and `log`, in order. */
    var trace: seq<Effect>

    ghost predicate Valid()
      reads this
    {
      ModelDiff.DistinctNames(fields)
    }

    constructor (view: View, fields: seq<string>, verboseName: string, contentType: string,
                 display: (Pk, Record) -> string, store: map<Pk, Record>)
      requires ModelDiff.DistinctNames(fields)
      ensures Valid()
      ensures this.view == view && this.fields == fields && this.verboseName == verboseName
      ensures this.contentType == contentType && this.display == display
      ensures this.store == store && log == [] && trace == []
    {
      this.view := view;
      this.fields := fields;
      this.verboseName := verboseName;
      this.contentType := contentType;
      this.display := display;
      this.store := store;
      log := [];
      trace := [];
    }

    /** `create`: authorize, validate, persist under the primary key the
        store assigns (`newPk`), then log one addition. A refused or invalid
        request changes nothing. */
    method Create(request: HandlerRequest, validate: Validator, call: Oracle<Record>, newPk: Pk)
      returns (resp: Response)
      requires Valid() && newPk !in store
      requires request.auth.httpMethod != "OPTIONS"
      modifies this
      ensures Valid()
      ensures var denied := Authorize(HasPermission(view, "create", request.auth, call));
              var v := validate(None, request.data, false);
              if denied.Some? then
                resp == Failed(denied.value) && unchanged(this)
              else if v.Invalid? then
                resp == Failed(BadRequest(v.errors)) && unchanged(this)
              else
                var entry := AdditionEntry(request.userId, contentType, newPk, verboseName, display(newPk, v.record));
                resp == Created(newPk, v.record) &&
                store == old(store)[newPk := v.record] &&
                log == old(log) + [entry] &&
                trace == old(trace) + [Saved(newPk, v.record), Logged(entry)]
    {
      var denied := Authorize(HasPermission(view, "create", request.auth, call));
      if denied.Some? {
        return Failed(denied.value);
      }
      var v := validate(None, request.data, false);
      if v.Invalid? {
        return Failed(BadRequest(v.errors));
      }
      // perform_create
      store := store[newPk := v.record];
      trace := trace + [Saved(newPk, v.record)];
      var entry := AdditionEntry(request.userId, contentType, newPk, verboseName, display(newPk, v.record));
      log := log + [entry];
      trace := trace + [Logged(entry)];
      resp := Created(newPk, v.record);
    }

    /** `get_object` after the collection-level check: the record, or why
        the request stops here. Changes nothing. */
    method GetObject(request: HandlerRequest, action: string, pk: Pk, call: Oracle<Record>)
      returns (r: Option<Failure>)
      ensures r == None <==>
                HasPermission(view, action, request.auth, call) == Decided(true) && pk in store &&
                HasObjectPermission(view, action, request.auth, store[pk], call) == Decided(true)
      ensures r == Some(NotFound) <==>
                HasPermission(view, action, request.auth, call) == Decided(true) && pk !in store
      ensures Authorize(HasPermission(view, action, request.auth, call)).Some? ==>
                r == Authorize(HasPermission(view, action, request.auth, call))
      ensures HasPermission(view, action, request.auth, call) == Decided(true) && pk in store ==>
                r == Authorize(HasObjectPermission(view, action, request.auth, store[pk], call))
      ensures HasPermission(view, action, request.auth, call) == Decided(true) && pk in store &&
              HasObjectPermission(view, action, request.auth, store[pk], call) == Decided(false) ==>
                r == Some(Forbidden)
      ensures r.Some? ==> !r.value.BadRequest?
      ensures r == Some(Forbidden) ==>
                HasPermission(view, action, request.auth, call) == Decided(false) ||
                (pk in store && HasObjectPermission(view, action, request.auth, store[pk], call) == Decided(false))
    {
      r := Authorize(HasPermission(view, action, request.auth, call));
      if r.Some? {
        return;
      }
      if pk !in store {
        return Some(NotFound);
      }
      r := Authorize(HasObjectPermission(view, action, request.auth, store[pk], call));
    }

    /** `retrieve`: the record, once both permission checks pass. */
    method Retrieve(request: HandlerRequest, pk: Pk, call: Oracle<Record>) returns (resp: Response)
      requires request.auth.httpMethod != "OPTIONS"
      ensures resp.Ok? <==>
                HasPermission(view, "retrieve", request.auth, call) == Decided(true) && pk in store &&
                HasObjectPermission(view, "retrieve", request.auth, store[pk], call) == Decided(true)
      ensures resp.Ok? ==> resp.record == store[pk]
      ensures !resp.Ok? ==> resp.Failed?
      ensures resp == Failed(NotFound) <==>
                HasPermission(view, "retrieve", request.auth, call) == Decided(true) && pk !in store
      ensures Authorize(HasPermission(view, "retrieve", request.auth, call)).Some? ==>
                resp == Failed(Authorize(HasPermission(view, "retrieve", request.auth, call)).value)
      ensures HasPermission(view, "retrieve", request.auth, call) == Decided(true) && pk in store &&
              HasObjectPermission(view, "retrieve", request.auth, store[pk], call) == Decided(false) ==>
                resp == Failed(Forbidden)
    {
      var failure := GetObject(request, "retrieve", pk, call);
      if failure.Some? {
        return Failed(failure.value);
      }
      resp := Ok(store[pk]);
    }

    /** The diff helper as `update` drives it: built on the instance before
        the update, given the instance after it once, asked for
        `changed_fields`. Changes nothing of the view. */
    method DiffAgainst(before: Record, after: Record) returns (changed: seq<string>)
      requires Valid()
      ensures changed == ChangedFieldNames(fields, before, after)
      ensures ModelDiff.IsSubsequence(changed, fields)
      ensures forall f :: f in changed <==> f in fields && FieldOf(before, f) != FieldOf(after, f)
    {
      var helper := new ModelDiff.ModelDiffHelper<FieldValue>(ToDict(fields, before));
      var self := helper.SetChangedModel(ToDict(fields, after));
      changed := self.ChangedFields();
      ChangedFieldNamesAreDifferingFields(fields, before, after);
    }

    /** `update` (and `partial_update` with `partial` set): authorize and
        fetch, validate, take the baseline snapshot, persist, then log one
        change listing the fields whose values differ between the instance
        before and after the update. */
    method Update(request: HandlerRequest, pk: Pk, partial: bool, validate: Validator, call: Oracle<Record>)
      returns (resp: Response)
      requires Valid()
      requires request.auth.httpMethod != "OPTIONS"
      modifies this
      ensures Valid()
      ensures var action := if partial then "partial_update" else "update";
              resp == Failed(NotFound) <==>
                HasPermission(view, action, request.auth, call) == Decided(true) && pk !in old(store)
      ensures var action := if partial then "partial_update" else "update";
              HasPermission(view, action, request.auth, call) == Decided(true) && pk in old(store) &&
              HasObjectPermission(view, action, request.auth, old(store)[pk], call) == Decided(false) ==>
                resp == Failed(Forbidden)
      ensures var action := if partial then "partial_update" else "update";
              var denied := Authorize(HasPermission(view, action, request.auth, call));
              denied.Some? ==> resp == Failed(denied.value)
      ensures var action := if partial then "partial_update" else "update";
              var allowed := HasPermission(view, action, request.auth, call) == Decided(true) && pk in old(store) &&
                             HasObjectPermission(view, action, request.auth, old(store)[pk], call) == Decided(true);
              if !allowed then
                resp.Failed? && !resp.failure.BadRequest? && unchanged(this)
              else
                var v := validate(Some(old(store)[pk]), request.data, partial);
                if v.Invalid? then
                  resp == Failed(BadRequest(v.errors)) && unchanged(this)
                else
                  var entry := ChangeEntry(request.userId, contentType, pk, verboseName, display(pk, v.record),
                                           ChangedFieldNames(fields, old(store)[pk], v.record));
                  resp == Ok(v.record) &&
                  store == old(store)[pk := v.record] &&
                  log == old(log) + [entry] &&
                  trace == old(trace) + [Saved(pk, v.record), Logged(entry)]
    {
      var action := if partial then "partial_update" else "update";
      var failure := GetObject(request, action, pk, call);
      if failure.Some? {
        return Failed(failure.value);
      }
      var instance := store[pk];
      var v := validate(Some(instance), request.data, partial);
      if v.Invalid? {
        return Failed(BadRequest(v.errors));
      }
      SaveAndLogChange(request.userId, pk, instance, v.record);
      resp := Ok(v.record);
    }

    /** The valid branch of `update`: take the baseline snapshot of the
        instance, persist the new one, then log one change listing the
        fields that differ. */
    method SaveAndLogChange(userId: nat, pk: Pk, before: Record, after: Record)
      requires Valid()
      modifies this
      ensures Valid()
      ensures var entry := ChangeEntry(userId, contentType, pk, verboseName, display(pk, after),
                                       ChangedFieldNames(fields, before, after));
              store == old(store)[pk := after] &&
              log == old(log) + [entry] &&
              trace == old(trace) + [Saved(pk, after), Logged(entry)]
    {
      // the baseline is taken here, after validation and before perform_update
      var changed := DiffAgainst(before, after);
      // perform_update
      store := store[pk := after];
      trace := trace + [Saved(pk, after)];
      var entry := ChangeEntry(userId, contentType, pk, verboseName, display(pk, after), changed);
      log := log + [entry];
      trace := trace + [Logged(entry)];
    }

    /** `destroy`: authorize and fetch, log the deletion while the record
        still exists (in the shape the code writes it), then remove it. */
    method Destroy(request: HandlerRequest, pk: Pk, call: Oracle<Record>) returns (resp: Response)
      requires Valid()
      requires request.auth.httpMethod != "OPTIONS"
      modifies this
      ensures Valid()
      ensures resp == Failed(NotFound) <==>
                HasPermission(view, "destroy", request.auth, call) == Decided(true) && pk !in old(store)
      ensures HasPermission(view, "destroy", request.auth, call) == Decided(true) && pk in old(store) &&
              HasObjectPermission(view, "destroy", request.auth, old(store)[pk], call) == Decided(false) ==>
                resp == Failed(Forbidden)
      ensures var denied := Authorize(HasPermission(view, "destroy", request.auth, call));
              denied.Some? ==> resp == Failed(denied.value)
      ensures var allowed := HasPermission(view, "destroy", request.auth, call) == Decided(true) && pk in old(store) &&
                             HasObjectPermission(view, "destroy", request.auth, old(store)[pk], call) == Decided(true);
              if !allowed then
                resp.Failed? && !resp.failure.BadRequest? && unchanged(this)
              else
                var entry := DeletionEntryAsWritten(request.userId, contentType, pk, verboseName, display(pk, old(store)[pk]));
                resp == NoContent &&
                store == old(store) - {pk} &&
                log == old(log) + [entry] &&
                trace == old(trace) + [Logged(entry), Removed(pk)]
    {
      var failure := GetObject(request, "destroy", pk, call);
      if failure.Some? {
        return Failed(failure.value);
      }
      var instance := store[pk];
      var entry := DeletionEntryAsWritten(request.userId, contentType, pk, verboseName, display(pk, instance));
      log := log + [entry];
      trace := trace + [Logged(entry)];
      // perform_destroy
      store := store - {pk};
      trace := trace + [Removed(pk)];
      resp := NoContent;
    }
  }
}
