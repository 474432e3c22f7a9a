/**
 * backend/services/user.service.js: the create, update and delete flows over the
 * user provider with their error wrapping, the owned-events read, and `ACTIONS`
 * with the service's `validateDTO`.
 */
module UserService {
  import opened Wrappers
  import opened Values
  import opened Errors
  import opened Models
  import opened Provider
  import opened Store
  import opened Schemas
  import UserProvider
  import EventService

  // ---------------------------------------------------------------------------
  // ACTIONS and validateDTO
  // ---------------------------------------------------------------------------

  /** `ACTIONS[action]`: the schema and the `strict` flag handed to the shared `validateDTO`. */
  function Actions(action: Action): (Schema, bool) {
    match action
    case Create => (USER_CREATE, true)
    case Update => (USER_UPDATE, false)
  }

  /** `validateDTO(dto, action, options)`: the caller's options with `strict` taken from `ACTIONS`. */
  function ValidateDto(dto: Json, action: Action, options: DtoOptions, lib: Library, now: int, diag: Diagnostic)
    : Result<Json, HttpException>
  {
    Schemas.ValidateDto(dto, Actions(action).0, options.(strict := Some(Actions(action).1)), lib, now, diag)
  }

  /** CREATE accepts exactly the user create bodies, whatever `strict` the caller passed. */
  lemma CreateValidation(dto: Json, options: DtoOptions, lib: Library, now: int, diag: Diagnostic)
    requires options.strip.GetOr(false) == false
    ensures ValidateDto(dto, Create, options, lib, now, diag).Success? <==> UserCreateShape(dto, lib)
  {
    UserCreateSchema(dto, lib, now);
  }

  /** UPDATE accepts exactly the user patches; an empty patch is refused with 400. */
  lemma UpdateValidation(dto: Json, lib: Library, now: int, diag: Diagnostic)
    ensures ValidateDto(dto, Update, DEFAULT_OPTIONS, lib, now, diag).Success? <==> UserUpdateShape(dto, lib)
    ensures ValidateDto(map[], Update, DEFAULT_OPTIONS, lib, now, diag).Failure?
    ensures ValidateDto(map[], Update, DEFAULT_OPTIONS, lib, now, diag).error.statusCode == 400
  {
    UserUpdateSchema(dto, lib, now);
    UserUpdateSchema(map[], lib, now);
  }

  /** A body the CREATE schema accepts always casts; only a fault or a unique index can refuse it. */
  lemma ValidatedBodyCasts(users: map<Id, User>, dto: Json, lib: Library, fault: Option<StoreError>)
    requires UserCreateShape(dto, lib)
    ensures UserFromBody(dto, lib).Some?
    ensures UserFromBody(dto, lib).value.events == []
    ensures UserProvider.CreateOutcome(users, dto, lib, fault).Failure? ==>
              fault.Some? || UserProvider.Conflict(users, UserFromBody(dto, lib).value, None).Some?
  {
  }

  // ---------------------------------------------------------------------------
  // The flows
  // ---------------------------------------------------------------------------

  /**
   * `createUser(dto)` on a body the CREATE schema accepted (the controller
   * validates first): the stored record with no events, or 400 with the mapped
   * message of a fault or a unique index.
   */
  method CreateUser(db: Database, dto: Json, lib: Library, newId: Id, fault: Option<StoreError>) returns (r: Result<User, HttpException>)
    requires UserCreateShape(dto, lib)
    requires db.Valid() && newId !in db.users
    modifies db
    ensures db.Valid()
    ensures r == AsBadRequest(Mapped(USER_MODEL, UserProvider.CreateOutcome(old(db.users), dto, lib, fault)))
    ensures r.Failure? <==> fault.Some? || UserProvider.Conflict(old(db.users), UserFromBody(dto, lib).value, None).Some?
    ensures r.Success? ==> r.value == UserFromBody(dto, lib).value && r.value.events == []
    ensures db.users == if r.Success? then old(db.users)[newId := r.value] else old(db.users)
    ensures db.events == old(db.events)
  {
    ValidatedBodyCasts(db.users, dto, lib, fault);
    var created := UserProvider.Create(db, dto, lib, newId, fault);
    r := AsBadRequest(created);
  }

  /**
   * `updateUser(id, dto)`: 404 before any write when the id is unknown; otherwise
   * the provider's update over the patch's entries, its failure wrapped as 400.
   */
  method UpdateUser(db: Database, id: Id, es: Entries, lib: Library, fault: Option<StoreError>) returns (r: Result<User, HttpException>)
    requires db.Valid()
    modifies db
    ensures db.Valid()
    ensures id !in old(db.users) ==>
              r == Failure(Raise(NotFound, None, EMPTY_PAYLOAD)) && db.users == old(db.users)
    ensures id in old(db.users) ==>
              && r == AsBadRequest(Mapped(USER_MODEL, UserProvider.UpdateOutcome(old(db.users), id, es, lib, fault)))
              && db.users == (if r.Success? then old(db.users)[id := r.value] else old(db.users))
    ensures db.events == old(db.events)
  {
    if UserProvider.GetById(db, id).None? {
      return Failure(Raise(NotFound, None, EMPTY_PAYLOAD));
    }
    var updated := UserProvider.Update(db, id, es, lib, fault);
    r := AsBadRequest(updated);
  }

  /**
   * A provider failure without a `keyPattern` reaches the client as 400 with the
   * `TypeError` of `mapError` itself and no `debug`: here, an `events` entry that
   * does not cast.
   */
  lemma RefusedPatchAnswersTypeError(users: map<Id, User>, id: Id, es: Entries, lib: Library, fault: Option<StoreError>, i: nat, bad: string)
    requires id in users && i < |es| && es[i] == ("events", Arr([Str(bad)])) && !lib.isObjectId(bad)
    ensures var w := AsBadRequest(Mapped(USER_MODEL, UserProvider.UpdateOutcome(users, id, es, lib, fault)));
            w.Failure? && w.error.statusCode == 400 && w.error.message == NO_KEYS_MESSAGE && w.error.debug.None?
  {
    UserProvider.EventsPatchRefusesBadId(users, id, es, lib, fault, i, bad);
    MapErrorWithoutKeyPattern(USER_MODEL);
  }

  /** After a patch, a user field holds the patch's string when the patch names it, and keeps its value otherwise. */
  lemma FieldAfterPatch(d: Draft<User>, es: Entries, lib: Library, dto: Json, key: string)
    requires Enumerates(es, dto) && key in USER_TEXT_PATHS
    requires key in dto ==> dto[key].Str?
    ensures UserField(PatchedUser(d, es, lib).doc, key) == if key in dto then Some(dto[key]) else UserField(d.doc, key)
  {
    if key in dto {
      var i :| 0 <= i < |es| && es[i] == (key, dto[key]);
      PatchedUserReads(d, es, lib, i);
    } else {
      PatchedUserKeeps(d, es, key, lib);
    }
  }

  /** An accepted patch names only string paths, each with a string, so no assignment fails to cast. */
  lemma ValidatedPatchCasts(d: Draft<User>, dto: Json, es: Entries, lib: Library)
    requires !d.castFailed && UserUpdateShape(dto, lib) && Enumerates(es, dto)
    ensures !PatchedUser(d, es, lib).castFailed
  {
    forall i | 0 <= i < |es| ensures !Refused(es[i].0, es[i].1, lib) {
      assert es[i].0 in dto && dto[es[i].0] == es[i].1;
    }
    PatchedUserCasts(d, es, lib);
  }

  /**
   * A patch the UPDATE schema accepted, given as its entries, leaves a record
   * holding the patch's values on the named fields, the stored ones elsewhere,
   * and the stored `events` list.
   */
  lemma ValidatedPatchFields(u: User, dto: Json, es: Entries, lib: Library)
    requires UserUpdateShape(dto, lib) && Enumerates(es, dto)
    ensures forall k :: k in USER_TEXT_PATHS ==>
              UserField(PatchedUser(Draft(u, false), es, lib).doc, k) == if k in dto then Some(dto[k]) else UserField(u, k)
    ensures PatchedUser(Draft(u, false), es, lib).doc.events == u.events
  {
    var d0 := Draft(u, false);
    forall k | k in USER_TEXT_PATHS
      ensures UserField(PatchedUser(d0, es, lib).doc, k) == if k in dto then Some(dto[k]) else UserField(u, k)
    {
      FieldAfterPatch(d0, es, lib, dto, k);
    }
    forall i | 0 <= i < |es| ensures es[i].0 != "events" {
      assert es[i].0 in dto;
    }
    PatchedUserEvents(d0, es, lib);
  }

  /** The record an accepted patch leaves behind meets every bound of the user schema. */
  lemma ValidatedPatchValid(u: User, dto: Json, es: Entries, lib: Library)
    requires UserValid(u) && UserUpdateShape(dto, lib) && Enumerates(es, dto)
    ensures UserValid(PatchedUser(Draft(u, false), es, lib).doc)
  {
    ValidatedPatchFields(u, dto, es, lib);
    var p := PatchedUser(Draft(u, false), es, lib).doc;
    assert UserField(p, "firstName") == if "firstName" in dto then Some(dto["firstName"]) else UserField(u, "firstName");
    assert UserField(p, "lastName") == if "lastName" in dto then Some(dto["lastName"]) else UserField(u, "lastName");
    assert UserField(p, "email") == if "email" in dto then Some(dto["email"]) else UserField(u, "email");
    assert UserField(p, "phoneNumber") == if "phoneNumber" in dto then Some(dto["phoneNumber"]) else UserField(u, "phoneNumber");
  }

  /** An update with an accepted patch fails only by a fault or a unique index. */
  lemma ValidatedPatchApplies(users: map<Id, User>, id: Id, dto: Json, es: Entries, lib: Library, fault: Option<StoreError>)
    requires id in users && UserValid(users[id])
    requires UserUpdateShape(dto, lib) && Enumerates(es, dto)
    ensures UserProvider.UpdateOutcome(users, id, es, lib, fault).Failure? <==>
              fault.Some? || UserProvider.Conflict(users, PatchedUser(Draft(users[id], false), es, lib).doc, Some(id)).Some?
  {
    ValidatedPatchCasts(Draft(users[id], false), dto, es, lib);
    ValidatedPatchValid(users[id], dto, es, lib);
  }

  /**
   * `deleteUser(id)` with the outcome of its existence check `_exists({ id })`
   * given as `found`: 404 when the check fails; otherwise the provider's delete.
   * The user's events are never deleted or detached.
   */
  method DeleteUser(db: Database, id: Id, found: bool, fault: Option<StoreError>) returns (r: Result<bool, HttpException>)
    requires db.Valid()
    modifies db
    ensures db.Valid()
    ensures !found ==> r == Failure(Raise(NotFound, None, EMPTY_PAYLOAD)) && db.users == old(db.users)
    ensures found && fault.Some? ==>
              r == AsBadRequest(Failure(MapError(USER_MODEL, fault.value))) && db.users == old(db.users)
    ensures found && fault.None? ==> r == Success(id in old(db.users)) && db.users == old(db.users) - {id}
    ensures db.events == old(db.events)
  {
    if !found {
      return Failure(Raise(NotFound, None, EMPTY_PAYLOAD));
    }
    var deleted := UserProvider.Delete(db, id, fault);
    r := AsBadRequest(deleted);
  }

  /** Removing a user who owns an event leaves that event naming a user that no longer exists. */
  lemma DeleteLeavesDanglingOwners(users: map<Id, User>, events: map<Id, Event>, id: Id, e: Id)
    requires e in events && events[e].user == Some(id)
    ensures !OwnersExist(users - {id}, events)
  {
    assert events[e].user.value !in users - {id};
  }

  /** `getUserEvents(id)`: the events that name `id` as owner, read from the events alone. */
  function GetUserEvents(db: Database, id: Id): (r: map<Id, Event>)
    reads db
    ensures r.Keys == set e | e in db.events && db.events[e].user == Some(id)
    ensures forall e :: e in r ==> r[e] == db.events[e]
  {
    EventService.GetEventsByUserId(db, id)
  }

  /** While users and events are in step, a user's events are exactly the ones its list names. */
  lemma UserEventsMatchList(db: Database, id: Id)
    requires Synced(db.users, db.events) && id in db.users
    ensures GetUserEvents(db, id).Keys == set e | e in db.users[id].events
  {
    var owned := GetUserEvents(db, id).Keys;
    forall e ensures e in owned <==> e in db.users[id].events {
      if e in db.users[id].events {
        assert e in db.events && db.events[e].user == Some(id);
      }
    }
  }

  /** The answer depends on the events alone: two stores with the same events give the same answer, whatever the users' lists. */
  lemma UserEventsIgnoreList(db1: Database, db2: Database, id: Id)
    requires db1.events == db2.events
    ensures GetUserEvents(db1, id) == GetUserEvents(db2, id)
  {
  }
}
