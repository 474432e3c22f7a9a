/**
 * backend/providers/user.provider.js: reads, creation, the field-assignment
 * update, `$addToSet` / `$pull` on a user's `events`, and deletion, each write
 * rethrowing a storage error through `mapError`.
 */
module UserProvider {
  import opened Wrappers
  import opened Values
  import opened Models
  import opened Provider
  import opened Store

  /** `getById(id)`: the stored user, or `null`. */
  function GetById(db: Database, id: Id): (r: Option<User>)
    reads db
    ensures r.Some? <==> id in db.users
    ensures r.Some? ==> r.value == db.users[id]
  {
    if id in db.users then Some(db.users[id]) else None
  }

  /** A user matches a filter when `_id` and every other named field match. */
  predicate UserMatches(id: Id, u: User, filter: Json) {
    forall k :: k in filter ==> if k == "_id" then filter[k] == Str(id) else FieldMatches(UserField(u, k), filter[k])
  }

  /** `find(filter)`: the users the filter matches. */
  function Find(db: Database, filter: Json): (r: map<Id, User>)
    reads db
    ensures r.Keys <= db.users.Keys
    ensures forall id :: id in r ==> r[id] == db.users[id]
    ensures forall id :: id in db.users ==> (id in r <==> UserMatches(id, db.users[id], filter))
  {
    map id | id in db.users && UserMatches(id, db.users[id], filter) :: db.users[id]
  }

  /** `find()` with no filter returns every user. */
  lemma FindAll(db: Database)
    ensures Find(db, map[]) == db.users
  {
  }

  /** The first unique index a record would break, e-mail before phone number; `self` is the record's own id. */
  function Conflict(users: map<Id, User>, u: User, self: Option<Id>): (r: Option<StoreError>)
    ensures r.None? <==>
              forall o :: o in users && Some(o) != self ==> users[o].email != u.email && users[o].phoneNumber != u.phoneNumber
    ensures r.Some? ==> r.value.code == Some(DUPLICATE_KEY)
    ensures r == Some(DuplicateKey("email")) <==> exists o :: o in users && Some(o) != self && users[o].email == u.email
  {
    if exists o :: o in users && Some(o) != self && users[o].email == u.email then Some(DuplicateKey("email"))
    else if exists o :: o in users && Some(o) != self && users[o].phoneNumber == u.phoneNumber then Some(DuplicateKey("phoneNumber"))
    else None
  }

  /** What `Model.create(dto)` does: cast and validate, then the driver, then the unique indexes. */
  function CreateOutcome(users: map<Id, User>, dto: Json, lib: Library, fault: Option<StoreError>): Result<User, StoreError> {
    match UserFromBody(dto, lib)
    case None => Failure(Rejected(USER_MODEL))
    case Some(u) =>
      if fault.Some? then Failure(fault.value)
      else if Conflict(users, u, None).Some? then Failure(Conflict(users, u, None).value)
      else Success(u)
  }

  /** A created user keeps the store's constraints, the unique indexes included. */
  lemma CreateKeepsValid(users: map<Id, User>, events: map<Id, Event>, dto: Json, lib: Library, fault: Option<StoreError>, newId: Id)
    requires StoreValid(users, events) && newId !in users
    requires CreateOutcome(users, dto, lib, fault).Success?
    ensures StoreValid(users[newId := CreateOutcome(users, dto, lib, fault).value], events)
  {
  }

  lemma EmailTakenMessage()
    ensures MapError(USER_MODEL, DuplicateKey("email")).message == "User with the same \"email\" already exists!"
  {
  }

  /** A body whose e-mail is taken is refused with the duplicate-key message naming `email`. */
  lemma DuplicateEmailRefused(users: map<Id, User>, dto: Json, lib: Library, other: Id)
    requires UserFromBody(dto, lib).Some?
    requires other in users && users[other].email == UserFromBody(dto, lib).value.email
    ensures Mapped(USER_MODEL, CreateOutcome(users, dto, lib, None)) == Failure(MapError(USER_MODEL, DuplicateKey("email")))
    ensures Mapped(USER_MODEL, CreateOutcome(users, dto, lib, None)).error.message == "User with the same \"email\" already exists!"
  {
    var u := UserFromBody(dto, lib).value;
    assert other in users && Some(other) != None && users[other].email == u.email;
    assert Conflict(users, u, None) == Some(DuplicateKey("email"));
    assert CreateOutcome(users, dto, lib, None) == Failure(DuplicateKey("email"));
    EmailTakenMessage();
  }

  /** A body whose `events` names something that is not an ObjectId fails the cast, and nothing is written. */
  lemma EventsBodyRefusesBadId(users: map<Id, User>, dto: Json, lib: Library, fault: Option<StoreError>, bad: string)
    requires "events" in dto && dto["events"] == Arr([Str(bad)]) && !lib.isObjectId(bad)
    ensures CreateOutcome(users, dto, lib, fault) == Failure(Rejected(USER_MODEL))
  {
  }

  /** `create(dto)`. */
  method Create(db: Database, dto: Json, lib: Library, newId: Id, fault: Option<StoreError>) returns (r: Result<User, MappedError>)
    requires db.Valid() && newId !in db.users
    modifies db
    ensures db.Valid()
    ensures r == Mapped(USER_MODEL, CreateOutcome(old(db.users), dto, lib, fault))
    ensures db.users == if r.Success? then old(db.users)[newId := r.value] else old(db.users)
    ensures db.events == old(db.events)
  {
    var outcome := CreateOutcome(db.users, dto, lib, fault);
    if outcome.Success? {
      CreateKeepsValid(db.users, db.events, dto, lib, fault, newId);
      db.users := db.users[newId := outcome.value];
    }
    r := Mapped(USER_MODEL, outcome);
  }

  /** What `update(id, dto)` does after the assignment loop: validate, then the driver, then the unique indexes. */
  function UpdateOutcome(users: map<Id, User>, id: Id, es: Entries, lib: Library, fault: Option<StoreError>): Result<User, StoreError> {
    if id !in users then Failure(NULL_DOCUMENT)
    else
      var d := PatchedUser(Draft(users[id], false), es, lib);
      if d.castFailed || !UserValid(d.doc) then Failure(Rejected(USER_MODEL))
      else if fault.Some? then Failure(fault.value)
      else if Conflict(users, d.doc, Some(id)).Some? then Failure(Conflict(users, d.doc, Some(id)).value)
      else Success(d.doc)
  }

  /**
   * An update sets exactly the patched paths: a string path the patch names holds
   * the patch's last value for it (a `null` last name clears it), the `events` list becomes the cast of the last
   * `events` entry, and every path the patch does not name keeps its value.
   */
  lemma UpdatePatchesOnly(users: map<Id, User>, id: Id, es: Entries, lib: Library, fault: Option<StoreError>, key: string)
    requires UpdateOutcome(users, id, es, lib, fault).Success?
    ensures id in users
    ensures (forall i :: 0 <= i < |es| ==> es[i].0 != key) ==>
              UserField(UpdateOutcome(users, id, es, lib, fault).value, key) == UserField(users[id], key)
    ensures (forall i :: 0 <= i < |es| ==> es[i].0 != "events") ==>
              UpdateOutcome(users, id, es, lib, fault).value.events == users[id].events
    ensures forall i :: 0 <= i < |es| && es[i].0 == key && key in USER_TEXT_PATHS && (forall j :: i < j < |es| ==> es[j].0 != key) ==>
              UserField(UpdateOutcome(users, id, es, lib, fault).value, key) == if es[i].1.Null? then None else Some(es[i].1)
    ensures forall i :: 0 <= i < |es| && es[i].0 == "events" && (forall j :: i < j < |es| ==> es[j].0 != "events") ==>
              && EventsCast(es[i].1, lib).Some?
              && UpdateOutcome(users, id, es, lib, fault).value.events == EventsCast(es[i].1, lib).value
  {
    var d0 := Draft(users[id], false);
    if forall i :: 0 <= i < |es| ==> es[i].0 != key {
      PatchedUserKeeps(d0, es, key, lib);
    }
    if forall i :: 0 <= i < |es| ==> es[i].0 != "events" {
      PatchedUserEvents(d0, es, lib);
    }
    forall i | 0 <= i < |es| && es[i].0 == key && key in USER_TEXT_PATHS && (forall j :: i < j < |es| ==> es[j].0 != key)
      ensures UserField(UpdateOutcome(users, id, es, lib, fault).value, key) == if es[i].1.Null? then None else Some(es[i].1)
    {
      PatchedUserReads(d0, es, lib, i);
    }
    forall i | 0 <= i < |es| && es[i].0 == "events" && (forall j :: i < j < |es| ==> es[j].0 != "events")
      ensures EventsCast(es[i].1, lib).Some?
      ensures UpdateOutcome(users, id, es, lib, fault).value.events == EventsCast(es[i].1, lib).value
    {
      PatchedUserSetsEvents(d0, es, lib, i);
    }
  }

  /** An updated user keeps the store's constraints, the unique indexes included. */
  lemma UpdateKeepsValid(users: map<Id, User>, events: map<Id, Event>, id: Id, es: Entries, lib: Library, fault: Option<StoreError>)
    requires StoreValid(users, events)
    requires UpdateOutcome(users, id, es, lib, fault).Success?
    ensures StoreValid(users[id := UpdateOutcome(users, id, es, lib, fault).value], events)
  {
  }

  /**
   * An update may assign the `events` list outright, so a patch naming one event
   * twice is stored as it is: the store does not keep lists free of repeats.
   */
  lemma EventsPatchCanRepeat(u: User, id: Id, e: Id, lib: Library)
    requires UserValid(u) && lib.isObjectId(e)
    ensures var r := UpdateOutcome(map[id := u], id, [("events", Arr([Str(e), Str(e)]))], lib, None);
            r == Success(u.(events := [e, e])) && !NoDuplicates(r.value.events)
  {
    var es: Entries := [("events", Arr([Str(e), Str(e)]))];
    assert es[..|es| - 1] == [];
    var items := [Str(e), Str(e)];
    assert forall i :: 0 <= i < |items| ==> items[i] == Str(e);
    var c := CastIds(items, lib);
    assert c.Some? && c.value[0] == e && c.value[1] == e;
    assert c.value == [e, e];
    assert PatchedUser(Draft(u, false), es, lib) == Draft(u.(events := [e, e]), false);
    assert u.(events := [e, e]) == u.(events := [e, e]).(events := [e, e]);
  }

  /** An `events` entry naming something that is not an ObjectId fails the cast, and nothing is written. */
  lemma EventsPatchRefusesBadId(users: map<Id, User>, id: Id, es: Entries, lib: Library, fault: Option<StoreError>, i: nat, bad: string)
    requires id in users && i < |es| && es[i] == ("events", Arr([Str(bad)])) && !lib.isObjectId(bad)
    ensures UpdateOutcome(users, id, es, lib, fault) == Failure(Rejected(USER_MODEL))
  {
    PatchedUserCasts(Draft(users[id], false), es, lib);
    assert Refused(es[i].0, es[i].1, lib);
  }

  /** `update(target, dto)`: assign each entry of the patch in turn, then save. */
  method Update(db: Database, id: Id, es: Entries, lib: Library, fault: Option<StoreError>) returns (r: Result<User, MappedError>)
    requires db.Valid()
    modifies db
    ensures db.Valid()
    ensures r == Mapped(USER_MODEL, UpdateOutcome(old(db.users), id, es, lib, fault))
    ensures db.users == if r.Success? then old(db.users)[id := r.value] else old(db.users)
    ensures db.events == old(db.events)
  {
    if id !in db.users {
      return Failure(MapError(USER_MODEL, NULL_DOCUMENT));
    }
    var d := Draft(db.users[id], false);
    var i := 0;
    while i < |es|
      invariant 0 <= i <= |es|
      invariant d == PatchedUser(Draft(db.users[id], false), es[..i], lib)
    {
      assert es[..i + 1][..i] == es[..i];
      d := AssignUser(d, es[i].0, es[i].1, lib);
      i := i + 1;
    }
    assert es[..|es|] == es;
    var outcome := UpdateOutcome(db.users, id, es, lib, fault);
    if outcome.Success? {
      UpdateKeepsValid(db.users, db.events, id, es, lib, fault);
      db.users := db.users[id := d.doc];
    }
    r := Mapped(USER_MODEL, outcome);
  }

  /** `attachEvent(userId, eventId)`: `$addToSet`, true even when no user has that id. */
  method AttachEvent(db: Database, userId: Option<Id>, eventId: Id, fault: Option<StoreError>) returns (r: Result<bool, MappedError>)
    requires db.Valid()
    modifies db
    ensures db.Valid()
    ensures fault.Some? ==> r == Failure(MapError(USER_MODEL, fault.value)) && db.users == old(db.users)
    ensures fault.None? ==> r == Success(true) && db.users == Attach(old(db.users), userId, eventId)
    ensures db.events == old(db.events)
  {
    if fault.Some? {
      return Failure(MapError(USER_MODEL, fault.value));
    }
    AttachKeepsValid(db.users, db.events, userId, eventId);
    db.users := Attach(db.users, userId, eventId);
    r := Success(true);
  }

  /** `detachEvent(userId, eventId)`: `$pull`, true even when no user has that id. */
  method DetachEvent(db: Database, userId: Option<Id>, eventId: Id, fault: Option<StoreError>) returns (r: Result<bool, MappedError>)
    requires db.Valid()
    modifies db
    ensures db.Valid()
    ensures fault.Some? ==> r == Failure(MapError(USER_MODEL, fault.value)) && db.users == old(db.users)
    ensures fault.None? ==> r == Success(true) && db.users == Detach(old(db.users), userId, eventId)
    ensures db.events == old(db.events)
  {
    if fault.Some? {
      return Failure(MapError(USER_MODEL, fault.value));
    }
    AttachKeepsValid(db.users, db.events, userId, eventId);
    db.users := Detach(db.users, userId, eventId);
    r := Success(true);
  }

  /** `delete(id)`: whether a user was removed; afterwards no user has that id. */
  method Delete(db: Database, id: Id, fault: Option<StoreError>) returns (r: Result<bool, MappedError>)
    requires db.Valid()
    modifies db
    ensures db.Valid()
    ensures fault.Some? ==> r == Failure(MapError(USER_MODEL, fault.value)) && db.users == old(db.users)
    ensures fault.None? ==> r == Success(id in old(db.users)) && db.users == old(db.users) - {id}
    ensures db.events == old(db.events)
  {
    if fault.Some? {
      return Failure(MapError(USER_MODEL, fault.value));
    }
    r := Success(id in db.users);
    db.users := db.users - {id};
  }
}
