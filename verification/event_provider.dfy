/**
 * backend/providers/event.provider.js: reads (by id, by owner, by filter with the
 * `id` to `_id` remap), creation and the field-assignment update, both of which
 * save and so run the post-save hook, and deletion.
 */
module EventProvider {
  import opened Wrappers
  import opened Values
  import opened Models
  import opened Provider
  import opened Store

  /** `getById(id)`: the stored event, or `null`. */
  function GetById(db: Database, id: Id): (r: Option<Event>)
    reads db
    ensures r.Some? <==> id in db.events
    ensures r.Some? ==> r.value == db.events[id]
  {
    if id in db.events then Some(db.events[id]) else None
  }

  /** An event matches a filter when `_id` and every other named field match. */
  predicate EventMatches(id: Id, e: Event, filter: Json) {
    forall k :: k in filter ==> if k == "_id" then filter[k] == Str(id) else FieldMatches(EventField(e, k), filter[k])
  }

  function Select(events: map<Id, Event>, filter: Json): (r: map<Id, Event>)
    ensures r.Keys <= events.Keys
    ensures forall id :: id in r ==> r[id] == events[id]
    ensures forall id :: id in events ==> (id in r <==> EventMatches(id, events[id], filter))
  {
    map id | id in events && EventMatches(id, events[id], filter) :: events[id]
  }

  /** `getByParentId(id)`: exactly the events whose owner is `id`. */
  function GetByParentId(db: Database, id: Id): (r: map<Id, Event>)
    reads db
    ensures r.Keys == set e | e in db.events && db.events[e].user == Some(id)
    ensures forall e :: e in r ==> r[e] == db.events[e]
  {
    var filter := map["user" := Str(id)];
    var r := Select(db.events, filter);
    assert forall e :: e in db.events ==> (EventMatches(e, db.events[e], filter) <==> db.events[e].user == Some(id)) by {
      forall e | e in db.events
        ensures EventMatches(e, db.events[e], filter) <==> db.events[e].user == Some(id)
      {
        assert "user" in filter;
      }
    }
    r
  }

  /** JavaScript truthiness of a filter value. */
  predicate Truthy(v: Value) {
    match v
    case Str(s) => s != ""
    case Num(n) => n != 0
    case Bool(b) => b
    case Null => false
    case Date(_) => true
    case Arr(_) => true
    case Compound => true
  }

  /** The filter after `find` has moved a truthy `id` to `_id`. */
  function Remapped(filter: Json): (r: Json)
    ensures "id" in filter && Truthy(filter["id"]) ==> "id" !in r && "_id" in r && r["_id"] == filter["id"]
    ensures "id" in filter && Truthy(filter["id"]) ==> forall k :: k != "id" && k != "_id" ==> (k in r <==> k in filter) && (k in r ==> r[k] == filter[k])
    ensures !("id" in filter && Truthy(filter["id"])) ==> r == filter
  {
    if "id" in filter && Truthy(filter["id"]) then (filter - {"id"})["_id" := filter["id"]] else filter
  }

  /** The caller's filter object, which `find` rewrites in place. */
  class Query {
    var conditions: Json

    constructor (conditions: Json)
      ensures this.conditions == conditions
    {
      this.conditions := conditions;
    }
  }

  /** `find(filter)`: remap the caller's filter, then select with it. */
  method Find(db: Database, filter: Query) returns (r: map<Id, Event>)
    modifies filter
    ensures filter.conditions == Remapped(old(filter.conditions))
    ensures r == Select(db.events, filter.conditions)
  {
    if "id" in filter.conditions && Truthy(filter.conditions["id"]) {
      var id := filter.conditions["id"];
      filter.conditions := filter.conditions["_id" := id];
      filter.conditions := filter.conditions - {"id"};
    }
    r := Select(db.events, filter.conditions);
  }

  /** A lookup by the misspelt key `id` finds the event with that id and nothing else. */
  lemma FindByMisspeltId(events: map<Id, Event>, x: Id)
    requires x != ""
    ensures Select(events, Remapped(map["id" := Str(x)])) == if x in events then map[x := events[x]] else map[]
  {
    var f := Remapped(map["id" := Str(x)]);
    assert f == map["_id" := Str(x)];
    assert forall id :: id in events ==> (EventMatches(id, events[id], f) <==> id == x);
  }

  /** What `Model.create(dto)` does before the hook: cast and validate, then the driver. */
  function CreateOutcome(dto: Json, lib: Library, fault: Option<StoreError>): Result<Event, StoreError> {
    match EventFromBody(dto, lib)
    case None => Failure(Rejected(EVENT_MODEL))
    case Some(e) => if fault.Some? then Failure(fault.value) else Success(e)
  }

  /** `create(dto)`: insert, then the post-save hook attaches the event to its owner. */
  method Create(db: Database, dto: Json, lib: Library, newId: Id, hookFails: bool, fault: Option<StoreError>)
    returns (r: Result<Event, MappedError>)
    requires db.Valid() && newId !in db.events
    modifies db
    ensures db.Valid()
    ensures r == Mapped(EVENT_MODEL, CreateOutcome(dto, lib, fault))
    ensures db.events == if r.Success? then old(db.events)[newId := r.value] else old(db.events)
    ensures db.users == if r.Success? && !hookFails then Attach(old(db.users), r.value.user, newId) else old(db.users)
  {
    var outcome := CreateOutcome(dto, lib, fault);
    if outcome.Success? {
      db.events := db.events[newId := outcome.value];
      db.AfterEventSave(newId, hookFails);
    }
    r := Mapped(EVENT_MODEL, outcome);
  }

  /** What `update(id, dto)` does after the assignment loop: validate, then the driver. */
  function UpdateOutcome(events: map<Id, Event>, id: Id, es: Entries, lib: Library, fault: Option<StoreError>)
    : Result<Event, StoreError>
  {
    if id !in events then Failure(NULL_DOCUMENT)
    else
      var d := PatchedEvent(Draft(events[id], false), es, lib);
      if d.castFailed || !EventValid(d.doc) then Failure(Rejected(EVENT_MODEL))
      else if fault.Some? then Failure(fault.value)
      else Success(d.doc)
  }

  /** An update leaves every field the patch does not name as it was. */
  lemma UpdateKeepsUnnamed(events: map<Id, Event>, id: Id, es: Entries, lib: Library, fault: Option<StoreError>, key: string)
    requires UpdateOutcome(events, id, es, lib, fault).Success?
    requires forall i :: 0 <= i < |es| ==> es[i].0 != key
    ensures id in events
    ensures EventField(UpdateOutcome(events, id, es, lib, fault).value, key) == EventField(events[id], key)
  {
    PatchedEventKeeps(Draft(events[id], false), es, key, lib);
  }

  /** `update(target, dto)`: assign each entry in turn, save, and run the post-save hook. */
  method Update(db: Database, id: Id, es: Entries, lib: Library, hookFails: bool, fault: Option<StoreError>)
    returns (r: Result<Event, MappedError>)
    requires db.Valid()
    modifies db
    ensures db.Valid()
    ensures r == Mapped(EVENT_MODEL, UpdateOutcome(old(db.events), id, es, lib, fault))
    ensures db.events == if r.Success? then old(db.events)[id := r.value] else old(db.events)
    ensures db.users == if r.Success? && !hookFails then Attach(old(db.users), r.value.user, id) else old(db.users)
  {
    if id !in db.events {
      return Failure(MapError(EVENT_MODEL, NULL_DOCUMENT));
    }
    var d := Draft(db.events[id], false);
    var i := 0;
    while i < |es|
      invariant 0 <= i <= |es|
      invariant d == PatchedEvent(Draft(db.events[id], false), es[..i], lib)
    {
      assert es[..i + 1][..i] == es[..i];
      d := AssignEvent(d, es[i].0, es[i].1, lib);
      i := i + 1;
    }
    assert es[..|es|] == es;
    var outcome := UpdateOutcome(db.events, id, es, lib, fault);
    if outcome.Success? {
      db.events := db.events[id := d.doc];
      db.AfterEventSave(id, hookFails);
    }
    r := Mapped(EVENT_MODEL, outcome);
  }

  /** `delete(id)`: whether an event was removed; no hook runs and no user is touched. */
  method Delete(db: Database, id: Id, fault: Option<StoreError>) returns (r: Result<bool, MappedError>)
    requires db.Valid()
    modifies db
    ensures db.Valid()
    ensures fault.Some? ==> r == Failure(MapError(EVENT_MODEL, fault.value)) && db.events == old(db.events)
    ensures fault.None? ==> r == Success(id in old(db.events)) && db.events == old(db.events) - {id}
    ensures db.users == old(db.users)
  {
    if fault.Some? {
      return Failure(MapError(EVENT_MODEL, fault.value));
    }
    r := Success(id in db.events);
    db.events := db.events - {id};
  }
}
